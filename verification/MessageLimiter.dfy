/** `MessageLimiter` of `telegram_notifier.py`: a sliding window over a monotonic clock. */
module MessageLimiter {
  import opened Prelude

  const WINDOW: real := 60.0

  /** `time.monotonic` and `time.sleep`; sleeping lasts at least as long as asked for. */
  class MonotonicClock {
    var now: real

    constructor ()
    {
      now := 0.0;
    }

    method Read() returns (t: real)
      modifies this
      ensures old(now) <= now == t
    {
      var passed: real := *;
      if passed > 0.0 {
        now := now + passed;
      }
      t := now;
    }

    method Sleep(d: real)
      modifies this
      ensures now >= old(now) + d && now >= old(now)
    {
      if d > 0.0 {
        now := now + d;
      }
      var _ := Read();
    }
  }

  /** `span` consecutive entries never fit into the window. */
  predicate Spread(times: seq<real>, span: nat) {
    forall i :: 0 <= i && i + span < |times| ==> times[i + span] - times[i] >= WINDOW
  }

  predicate Ascending(times: seq<real>) {
    forall i, j :: 0 <= i <= j < |times| ==> times[i] <= times[j]
  }

  /** At `now` the deque is the end of all recorded send times, and what it no longer holds is at least one
      window old. */
  predicate Tracks(sent: seq<real>, history: seq<real>, limit: int, now: real) {
    && |sent| <= Max(limit, 0)
    && |sent| <= |history| && sent == history[|history| - |sent|..]
    && Ascending(history)
    && (forall i :: 0 <= i < |history| ==> history[i] <= now)
    && (forall i :: 0 <= i < |history| - |sent| ==> now - history[i] >= WINDOW)
    && (limit > 0 ==> Spread(history, limit))
    && (limit <= 0 ==> history == [])
  }

  lemma TimePasses(sent: seq<real>, history: seq<real>, limit: int, now: real, later: real)
    requires Tracks(sent, history, limit, now) && now <= later
    ensures Tracks(sent, history, limit, later)
  {
  }

  lemma OldestLeaves(sent: seq<real>, history: seq<real>, limit: int, now: real)
    requires Tracks(sent, history, limit, now) && sent != [] && now - sent[0] >= WINDOW
    ensures Tracks(sent[1..], history, limit, now)
  {
    assert history[|history| - |sent|] == sent[0];
    assert sent[1..] == history[|history| - |sent[1..]|..];
  }

  /** With room in the deque, the message `limit` places back left the window. */
  lemma NewestEnters(sent: seq<real>, history: seq<real>, limit: int, now: real)
    requires Tracks(sent, history, limit, now) && |sent| < limit
    ensures Tracks(sent + [now], history + [now], limit, now)
  {
    var longer := history + [now];
    assert sent + [now] == longer[|longer| - |sent| - 1..];
    forall i | 0 <= i && i + limit < |longer| ensures longer[i + limit] - longer[i] >= WINDOW {
      assert longer[i] == history[i];
    }
  }

  class MessageLimiter {
    const limit: int
    const clock: MonotonicClock
    var sent: seq<real>
    /** Every send time ever recorded. */
    ghost var history: seq<real>

    ghost predicate Valid()
      reads this, clock
    {
      Tracks(sent, history, limit, clock.now)
    }

    constructor (maxPerMinute: int, source: MonotonicClock)
      ensures limit == maxPerMinute && clock == source && history == [] && Valid()
    {
      limit, clock, sent, history := maxPerMinute, source, [], [];
    }

    /** Drop the entries that have left the window. */
    method Expire(now: real)
      requires Valid() && now == clock.now
      modifies this`sent
      ensures Valid() && (sent == [] || now - sent[0] < WINDOW)
      ensures |sent| <= |old(sent)| && (old(sent) != [] && now - old(sent)[0] >= WINDOW ==> |sent| < |old(sent)|)
      ensures |sent| == |old(sent)| ==> sent == old(sent)
    {
      while sent != [] && now - sent[0] >= WINDOW
        invariant Valid() && now == clock.now && history == old(history)
        invariant |sent| <= |old(sent)| && (|sent| == |old(sent)| ==> sent == old(sent))
        decreases |sent|
      {
        OldestLeaves(sent, history, limit, now);
        sent := sent[1..];
      }
    }

    /** Wait until the window has room. */
    method MakeRoom() returns (raised: bool)
      requires Valid()
      modifies this`sent, clock
      ensures Valid() && history == old(history)
      ensures raised <==> limit <= 0
      ensures !raised ==> |sent| < limit
    {
      var now := clock.Read();
      TimePasses(sent, history, limit, old(clock.now), now);
      Expire(now);
      if |sent| < limit {
        return false;
      }
      if sent == [] {
        return true;
      }
      var oldest := sent[0];
      var pause := WINDOW - (now - oldest);
      clock.Sleep(if pause > 0.01 then pause else 0.01);
      ghost var before := now;
      now := clock.Read();
      TimePasses(sent, history, limit, before, now);
      Expire(now);
      return false;
    }

    /** `wait_turn`; it raises IndexError exactly when no message is allowed at all. */
    method WaitTurn() returns (raised: bool)
      requires Valid()
      modifies this, clock
      ensures Valid()
      ensures raised <==> limit <= 0
      ensures history == if raised then old(history) else old(history) + [clock.now]
      ensures limit > 0 ==> |sent| <= limit && Spread(history, limit)
    {
      raised := MakeRoom();
      if !raised {
        NewestEnters(sent, history, limit, clock.now);
        sent := sent + [clock.now];
        history := history + [clock.now];
      }
    }
  }
}
