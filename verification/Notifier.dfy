/** `telegram_notifier.py`: a durable, deduplicating tail of the audit log. */
module Notifier {
  import opened Prelude

  datatype AuditAction =
    | TaskCreated | TaskStatusChanged | TaskRepositoryChanged | ApprovalRequested | ApprovalApproved | ApprovalRejected
    | ExecutionQueued | ExecutionCompleted | ExecutionFailed | ExecutionCancelled | ExecutionOpencodeError
    | ExecutionTimedOut | ExecutionStalledTool | ExecutionRunnerGateFailed | RunnerJobFailed | OtherAction(name: string)

  /** Identifiers are compared in the collation of the audit index. */
  datatype Notice = Notice(id: Uuid, action: AuditAction, createdAt: Time)

  datatype Settings = Settings(batchSize: nat, overlap: Time, settle: Time, interval: Time, window: Time)

  const RETENTION: Time := 90 * DAY

  /** The configured constants: the windows a scan looks back stay inside the retention of the delivery table. */
  predicate Sane(s: Settings) {
    s.batchSize >= 1 && 0 < s.overlap <= RETENTION && 0 <= s.settle && s.window <= RETENTION
  }

  predicate IsAllowed(a: AuditAction) {
    !a.OtherAction?
  }

  datatype Key = Key(at: Time, id: Uuid)

  function KeyOf(e: Notice): Key {
    Key(e.createdAt, e.id)
  }

  predicate Less(a: Key, b: Key) {
    a.at < b.at || (a.at == b.at && a.id < b.id)
  }

  predicate Behind(after: Option<Key>, e: Notice) {
    after.Some? ==> Less(after.value, KeyOf(e))
  }

  /** The WHERE clause of the page query. */
  predicate Eligible(e: Notice, since: Time, until: Time, after: Option<Key>) {
    since <= e.createdAt <= until && IsAllowed(e.action) && Behind(after, e)
  }

  predicate InWindow(e: Notice, since: Time, until: Time) {
    Eligible(e, since, until, None)
  }

  predicate StrictlyAscending(es: seq<Notice>) {
    forall i, j :: 0 <= i < j < |es| ==> Less(KeyOf(es[i]), KeyOf(es[j]))
  }

  /** The first `size` eligible rows in (created_at, id) order. */
  ghost predicate IsPage(page: seq<Notice>, rows: set<Notice>, since: Time, until: Time, after: Option<Key>,
                         size: nat) {
    && |page| <= size && StrictlyAscending(page)
    && (forall i :: 0 <= i < |page| ==> page[i] in rows && Eligible(page[i], since, until, after))
    && (forall e :: e in rows && Eligible(e, since, until, after) ==>
          e in page || (|page| == size && forall i :: 0 <= i < |page| ==> Less(KeyOf(page[i]), KeyOf(e))))
  }

  predicate IdsUnique(rows: set<Notice>) {
    forall e, f :: e in rows && f in rows && e.id == f.id ==> e == f
  }

  /** `m` comes before every other row. */
  predicate IsLeast(m: Notice, s: set<Notice>) {
    m in s && forall f :: f in s && f != m ==> Less(KeyOf(m), KeyOf(f))
  }

  lemma LeastOf(e: Notice, m: Notice, s: set<Notice>)
    requires IdsUnique(s) && e in s && IsLeast(m, s - {e})
    ensures IsLeast(if Less(KeyOf(e), KeyOf(m)) then e else m, s)
  {
    forall f | f in s && f != e ensures f in s - {e} {
    }
  }

  lemma LeastExists(s: set<Notice>)
    requires s != {} && IdsUnique(s)
    ensures exists m :: IsLeast(m, s)
  {
    var e :| e in s;
    if s == {e} {
      assert IsLeast(e, s);
    } else {
      LeastExists(s - {e});
      var m :| IsLeast(m, s - {e});
      LeastOf(e, m, s);
    }
  }

  /** The rows that may be visible: some of the events that are ever committed, whose ids are unique. */
  ghost predicate Legal(visible: set<Notice>, universe: set<Notice>) {
    visible <= universe && IdsUnique(universe)
  }

  /** The audit log. `universe` is every event that is ever committed; `late` are those whose commit lags
      their timestamp by more than `lag`. Rows become visible at any time and stay. */
  class AuditReader {
    const universe: set<Notice>
    const late: set<Notice>
    const lag: Time
    var visible: set<Notice>

    constructor (events: set<Notice>, tardy: set<Notice>, bound: Time)
      requires IdsUnique(events)
      ensures universe == events && late == tardy && lag == bound && Legal(visible, universe)
    {
      universe, late, lag, visible := events, tardy, bound, {};
    }

    method Commits()
      requires Legal(visible, universe)
      modifies this
      ensures Legal(visible, universe) && old(visible) <= visible
    {
      var more: set<Notice> := *;
      visible := visible + more * universe;
    }

    /** `current_time`, or None when the connection or a check fails. The clock of the server may be set back. */
    method CurrentTime() returns (t: Option<Time>)
      requires Legal(visible, universe)
      modifies this
      ensures Legal(visible, universe) && old(visible) <= visible
      ensures t.Some? ==> SeenAt(universe - late, visible, lag, t.value)
    {
      Commits();
      t := *;
      if t.Some? {
        var due := set e | e in universe && e !in late && e.createdAt + lag <= t.value;
        visible := visible + due;
      }
    }

    /** `page`; None when the query fails. */
    method Page(since: Time, until: Time, after: Option<Key>, size: nat) returns (page: Option<seq<Notice>>)
      requires Legal(visible, universe)
      modifies this
      ensures Legal(visible, universe) && old(visible) <= visible
      ensures page.Some? ==> IsPage(page.value, visible, since, until, after, size)
    {
      Commits();
      var broken: bool := *;
      if broken {
        return None;
      }
      var rows := FirstRows(visible, since, until, after, size);
      return Some(rows);
    }
  }

  /** A punctual event that was not visible when the clock read `now` is younger than the lag. */
  ghost predicate SeenAt(punctual: set<Notice>, seen: set<Notice>, lag: Time, now: Time) {
    forall e :: e in punctual && e.createdAt + lag <= now ==> e in seen
  }

  /** The query: eligible rows, least first. */
  method FirstRows(visible: set<Notice>, since: Time, until: Time, after: Option<Key>, size: nat)
      returns (rows: seq<Notice>)
    requires IdsUnique(visible)
    ensures IsPage(rows, visible, since, until, after, size)
  {
    var rest := set e | e in visible && Eligible(e, since, until, after);
    rows := [];
    while |rows| < size && rest != {}
      invariant |rows| <= size && StrictlyAscending(rows)
      invariant forall i :: 0 <= i < |rows| ==> rows[i] in visible && Eligible(rows[i], since, until, after)
      invariant rest <= visible
      invariant forall e :: e in visible && Eligible(e, since, until, after) ==> e in rows || e in rest
      invariant forall e, i :: e in rest && 0 <= i < |rows| ==> Less(KeyOf(rows[i]), KeyOf(e))
      invariant forall e :: e in rest ==> Eligible(e, since, until, after)
      decreases rest
    {
      LeastExists(rest);
      var m :| IsLeast(m, rest);
      rows := rows + [m];
      rest := rest - {m};
    }
  }

  // ---- Durable state

  /** What happened to an event, in order: a message was attempted, a delivery was recorded. */
  datatype Entry = Sent(id: Uuid) | Marked(id: Uuid)

  ghost predicate IsMarked(journal: seq<Entry>, id: Uuid) {
    Marked(id) in journal
  }

  /** No event marked delivered is ever sent again. */
  ghost predicate NeverResent(journal: seq<Entry>) {
    forall i, j :: 0 <= i < j < |journal| && journal[i].Marked? ==> journal[j] != Sent(journal[i].id)
  }

  /** The SQLite tables: the rows of `meta`, and `delivered`. */
  datatype Tables = Tables(startedAt: Option<Time>, scanThrough: Option<Time>, lastReconciled: Option<Time>,
                           retryNotBefore: Option<Time>,
                           delivered: map<Uuid, Time>)

  /** The delivery table forgets only events that no scan will look at again. */
  ghost predicate DeliveredInv(delivered: map<Uuid, Time>, journal: seq<Entry>, scan: Option<Time>, events: set<Notice>,
                               s: Settings) {
    && (forall id :: id in delivered ==> IsMarked(journal, id))
    && (forall e :: e in events && e.id in delivered ==> e.createdAt + s.settle <= delivered[e.id])
    && (forall e :: e in events && IsMarked(journal, e.id) && e.id !in delivered
                    ==> scan.Some? && e.createdAt < scan.value - RETENTION)
  }

  /** Every punctual event behind the cursor was delivered, unless it is still inside the overlap. */
  ghost predicate CursorInv(started: Time, scan: Time, journal: seq<Entry>, punctual: set<Notice>, s: Settings) {
    forall e :: e in punctual && IsAllowed(e.action) && started <= e.createdAt <= scan
                ==> IsMarked(journal, e.id) || scan < e.createdAt + s.overlap
  }

  /** The invariant of the durable state, for the events that are ever committed and the punctual ones among them. */
  ghost predicate Sound(db: Tables, journal: seq<Entry>, events: set<Notice>, punctual: set<Notice>, s: Settings) {
    var holds :=
    && (db.scanThrough.Some? ==> db.startedAt.Some?)
    && (db.startedAt.None? ==> db.delivered == map[] && forall id :: !IsMarked(journal, id))
    && NeverResent(journal)
    && DeliveredInv(db.delivered, journal, db.scanThrough, events, s)
    && (db.startedAt.Some? && db.scanThrough.Some?
        ==> CursorInv(db.startedAt.value, db.scanThrough.value, journal, punctual, s));
    holds
  }

  class StateStore {
    var db: Tables
    ghost var journal: seq<Entry>

    constructor (ghost events: set<Notice>, ghost punctual: set<Notice>, ghost s: Settings)
      ensures Sound(db, journal, events, punctual, s) && journal == []
    {
      db, journal := Tables(None, None, None, None, map[]), [];
    }

    /** `bootstrap`: one transaction; existing cursors are kept. */
    method Bootstrap(now: Time, ghost events: set<Notice>, ghost punctual: set<Notice>, ghost s: Settings)
        returns (isNew: bool)
      requires Sound(db, journal, events, punctual, s) && Sane(s)
      modifies this`db
      ensures Sound(db, journal, events, punctual, s) && db.startedAt.Some? && db.scanThrough.Some?
      ensures isNew <==> old(db).startedAt.None?
      ensures !isNew ==> db == old(db).(scanThrough := if old(db).scanThrough.Some? then old(db).scanThrough
                                                         else db.startedAt)
      ensures isNew ==> db.startedAt == Some(now) == db.scanThrough
    {
      var existing := db.startedAt;
      if db.startedAt.None? {
        db := db.(startedAt := Some(now));
      }
      if db.scanThrough.None? {
        db := db.(scanThrough := Some(if existing.Some? then existing.value else now));
      }
      if existing.None? && db.lastReconciled.None? {
        db := db.(lastReconciled := Some(now));
      }
      return existing.None?;
    }

    /** `set_time("scan_through", until)`, once everything visible in the backlog window was delivered. */
    method AdvanceScan(until: Time, ghost events: set<Notice>, ghost punctual: set<Notice>, ghost s: Settings)
      requires Sound(db, journal, events, punctual, s) && Sane(s) && db.startedAt.Some? && db.scanThrough.Some?
               && db.scanThrough.value < until
      requires forall e :: e in punctual && InWindow(e, Max(db.startedAt.value, db.scanThrough.value - s.overlap),
                                                     until) ==>
                 IsMarked(journal, e.id) || until < e.createdAt + s.overlap
      modifies this`db
      ensures Sound(db, journal, events, punctual, s) && db == old(db).(scanThrough := Some(until))
    {
      db := db.(scanThrough := Some(until));
    }

    /** A send is attempted. */
    ghost method Attempt(e: Notice, events: set<Notice>, punctual: set<Notice>, s: Settings)
      requires Sound(db, journal, events, punctual, s) && !IsMarked(journal, e.id)
      modifies this`journal
      ensures Sound(db, journal, events, punctual, s) && journal == old(journal) + [Sent(e.id)]
    {
      journal := journal + [Sent(e.id)];
      assert forall id :: IsMarked(journal, id) <==> IsMarked(old(journal), id);
    }

    /** `mark_delivered`. */
    method MarkDelivered(e: Notice, now: Time, ghost events: set<Notice>, ghost punctual: set<Notice>,
                         ghost s: Settings)
      requires Sound(db, journal, events, punctual, s) && IdsUnique(events) && e in events
               && e.createdAt + s.settle <= now && db.startedAt.Some?
      modifies this
      ensures Sound(db, journal, events, punctual, s) && journal == old(journal) + [Marked(e.id)]
      ensures db == old(db).(delivered := if e.id in old(db).delivered then old(db).delivered
                                            else old(db).delivered[e.id := now])
    {
      if e.id !in db.delivered {
        db := db.(delivered := db.delivered[e.id := now]);
      }
      journal := journal + [Marked(e.id)];
      assert forall id :: IsMarked(journal, id) <==> IsMarked(old(journal), id) || id == e.id;
    }

    /** `set_time` for the two keys no invariant depends on. */
    method SetTimes(reconciled: Option<Time>, notBefore: Option<Time>, ghost events: set<Notice>,
                    ghost punctual: set<Notice>, ghost s: Settings)
      requires Sound(db, journal, events, punctual, s)
      modifies this`db
      ensures Sound(db, journal, events, punctual, s)
              && db == old(db).(lastReconciled := reconciled, retryNotBefore := notBefore)
    {
      db := db.(lastReconciled := reconciled, retryNotBefore := notBefore);
    }

    /** `prune`, right after a poll at `now` advanced the cursor. */
    method Prune(now: Time, ghost events: set<Notice>, ghost punctual: set<Notice>, ghost s: Settings)
      requires Sound(db, journal, events, punctual, s) && db.scanThrough == Some(now - s.settle)
      modifies this`db
      ensures Sound(db, journal, events, punctual, s)
      ensures db == old(db).(delivered := Recent(old(db).delivered, now - RETENTION))
    {
      var kept := Recent(db.delivered, now - RETENTION);
      db := db.(delivered := kept);
    }
  }

  /** The rows `DELETE ... WHERE delivered_at < before` leaves. */
  function Recent(delivered: map<Uuid, Time>, before: Time): map<Uuid, Time> {
    map id | id in delivered && delivered[id] >= before :: delivered[id]
  }

  datatype SendResult = Confirmed | RateLimited(notBefore: Time) | SendFailed

  /** `TelegramSender.send`; a send that fails may still have been delivered. Its limiter is `MessageLimiter`. */
  method Send(e: Notice) returns (r: SendResult) {
    r := *;
  }

  /** Everything marked in the reach of a scan from `since` is still in the delivery table. */
  ghost predicate Remembered(delivered: map<Uuid, Time>, journal: seq<Entry>, events: set<Notice>, since: Time) {
    var holds := forall e :: e in events && since <= e.createdAt && IsMarked(journal, e.id) ==> e.id in delivered;
    holds
  }

  /** What the delivery of events leaves alone: the cursors and the time of the last reconciliation. */
  predicate SameCursors(db: Tables, db': Tables) {
    db'.startedAt == db.startedAt && db'.scanThrough == db.scanThrough && db'.lastReconciled == db.lastReconciled
  }

  lemma MarksStay(before: seq<Entry>, journal: seq<Entry>)
    requires before <= journal
    ensures forall id :: IsMarked(before, id) ==> IsMarked(journal, id)
  {
  }

  lemma MarkRemembers(delivered: map<Uuid, Time>, delivered': map<Uuid, Time>, journal: seq<Entry>,
                      journal': seq<Entry>, events: set<Notice>, since: Time, id: Uuid)
    requires Remembered(delivered, journal, events, since)
    requires forall k :: k in delivered ==> k in delivered'
    requires forall k :: IsMarked(journal', k) ==> IsMarked(journal, k) || (k == id && id in delivered')
    ensures Remembered(delivered', journal', events, since)
  {
  }

  /** Deliver one event that is not in the table. False when the send failed or the process died. */
  method DeliverEvent(e: Notice, since: Time, now: Time, state: StateStore, ghost events: set<Notice>,
                      ghost punctual: set<Notice>, s: Settings)
    returns (ok: bool)
    requires Sound(state.db, state.journal, events, punctual, s)
             && Remembered(state.db.delivered, state.journal, events, since)
    requires IdsUnique(events) && e in events && since <= e.createdAt <= now - s.settle && e.id !in state.db.delivered
             && state.db.startedAt.Some?
    modifies state
    ensures Sound(state.db, state.journal, events, punctual, s)
            && Remembered(state.db.delivered, state.journal, events, since)
    ensures SameCursors(old(state.db), state.db) && old(state.journal) <= state.journal
    ensures ok ==> IsMarked(state.journal, e.id)
  {
    ghost var journal, delivered := state.journal, state.db.delivered;
    state.Attempt(e, events, punctual, s);
    MarkRemembers(delivered, delivered, journal, state.journal, events, since, e.id);
    var r := Send(e);
    match r {
      case Confirmed =>
      case SendFailed => return false;
      case RateLimited(notBefore) =>
        state.SetTimes(state.db.lastReconciled, Some(notBefore), events, punctual, s);
        return false;
    }
    // The process may die between the confirmation and the commit of the mark.
    var died: bool := *;
    if died {
      return false;
    }
    journal := state.journal;
    state.MarkDelivered(e, now, events, punctual, s);
    MarkRemembers(delivered, state.db.delivered, journal, state.journal, events, since, e.id);
    return true;
  }

  /** Deliver one page, event by event. */
  method DeliverPage(page: seq<Notice>, since: Time, now: Time, state: StateStore, ghost events: set<Notice>,
                     ghost punctual: set<Notice>, s: Settings)
    returns (ok: bool)
    requires Sound(state.db, state.journal, events, punctual, s)
             && Remembered(state.db.delivered, state.journal, events, since)
    requires IdsUnique(events) && state.db.startedAt.Some?
    requires forall i :: 0 <= i < |page| ==> page[i] in events && since <= page[i].createdAt <= now - s.settle
    modifies state
    ensures Sound(state.db, state.journal, events, punctual, s)
            && Remembered(state.db.delivered, state.journal, events, since)
    ensures SameCursors(old(state.db), state.db) && old(state.journal) <= state.journal
    ensures ok ==> forall i :: 0 <= i < |page| ==> IsMarked(state.journal, page[i].id)
  {
    for k := 0 to |page|
      invariant Sound(state.db, state.journal, events, punctual, s)
                && Remembered(state.db.delivered, state.journal, events, since)
      invariant SameCursors(old(state.db), state.db) && old(state.journal) <= state.journal
      invariant forall i :: 0 <= i < k ==> IsMarked(state.journal, page[i].id)
    {
      if page[k].id in state.db.delivered {
        DeliveredIsMarked(state.db, state.journal, events, punctual, s, page[k].id);
      } else {
        ghost var before := state.journal;
        var delivered := DeliverEvent(page[k], since, now, state, events, punctual, s);
        if !delivered {
          return false;
        }
        MarksStay(before, state.journal);
      }
    }
    return true;
  }

  lemma DeliveredIsMarked(db: Tables, journal: seq<Entry>, events: set<Notice>, punctual: set<Notice>, s: Settings,
                          id: Uuid)
    requires Sound(db, journal, events, punctual, s) && id in db.delivered
    ensures IsMarked(journal, id)
  {
  }

  /** The rows a scan has yet to visit. */
  ghost function Unvisited(events: set<Notice>, after: Option<Key>): set<Notice> {
    set e | e in events && Behind(after, e)
  }

  /** A scan that has moved its cursor to `after` has visited and marked everything up to it that was in `rows`. */
  ghost predicate Covered(visited: seq<Notice>, journal: seq<Entry>, rows: set<Notice>, since: Time, until: Time,
                          after: Option<Key>) {
    forall e :: e in rows && Eligible(e, since, until, None) && !Behind(after, e)
                ==> e in visited && IsMarked(journal, e.id)
  }

  /** The events visited so far lie in the window, up to the cursor. */
  ghost predicate Visited(visited: seq<Notice>, since: Time, until: Time, after: Option<Key>) {
    && StrictlyAscending(visited)
    && (after.None? ==> visited == [])
    && forall i :: 0 <= i < |visited| ==> Eligible(visited[i], since, until, None) && !Behind(after, visited[i])
  }

  lemma LessIsTransitive(a: Key, b: Key, c: Key)
    requires !Less(b, a) && Less(b, c)
    ensures Less(a, c)
  {
  }

  /** A page behind the cursor extends what was visited. */
  lemma PageExtends(visited: seq<Notice>, page: seq<Notice>, since: Time, until: Time, after: Option<Key>)
    requires Visited(visited, since, until, after) && StrictlyAscending(page)
    requires forall i :: 0 <= i < |page| ==> Eligible(page[i], since, until, after)
    ensures StrictlyAscending(visited + page)
    ensures forall i :: 0 <= i < |visited + page| ==> Eligible((visited + page)[i], since, until, None)
    ensures page != [] ==> Visited(visited + page, since, until, Some(KeyOf(page[|page| - 1])))
  {
    forall i, j | 0 <= i < |visited| && 0 <= j < |page| ensures Less(KeyOf(visited[i]), KeyOf(page[j])) {
      LessIsTransitive(KeyOf(visited[i]), after.value, KeyOf(page[j]));
    }
  }

  /** What a page adds to the cover: up to its last row if it is full, everything if it is not. */
  lemma PageCovers(visited: seq<Notice>, page: seq<Notice>, before: seq<Entry>, journal: seq<Entry>, rows: set<Notice>,
                   visible: set<Notice>,
                   since: Time, until: Time, after: Option<Key>, size: nat)
    requires Covered(visited, before, rows, since, until, after) && before <= journal && rows <= visible
    requires IsPage(page, visible, since, until, after, size) && forall i ::
             0 <= i < |page| ==> IsMarked(journal, page[i].id)
    ensures |page| < size ==> forall e :: e in rows && Eligible(e, since, until, None)
                                          ==> e in visited + page && IsMarked(journal, e.id)
    ensures page != [] ==> Covered(visited + page, journal, rows, since, until, Some(KeyOf(page[|page| - 1])))
  {
    forall e | e in rows && Eligible(e, since, until, None) && !Behind(after, e)
      ensures e in visited + page && IsMarked(journal, e.id)
    {
      assert Marked(e.id) in before;
    }
  }

  /** `deliver_range`: page after page, moving the keyset cursor. When it finishes, `visited` lists every event of the
      window that was visible from the start exactly once, in (created_at, id) order, whatever was added meanwhile. */
  method DeliverRange(since: Time, until: Time, now: Time, state: StateStore, reader: AuditReader,
                      ghost punctual: set<Notice>, s: Settings)
    returns (ok: bool, ghost visited: seq<Notice>)
    requires Legal(reader.visible, reader.universe) && Sane(s) && until == now - s.settle && state.db.startedAt.Some?
    requires Sound(state.db, state.journal, reader.universe, punctual, s)
             && Remembered(state.db.delivered, state.journal, reader.universe, since)
    modifies reader, state
    ensures Legal(reader.visible, reader.universe) && old(reader.visible) <= reader.visible
    ensures Sound(state.db, state.journal, reader.universe, punctual, s)
    ensures SameCursors(old(state.db), state.db) && old(state.journal) <= state.journal
    ensures StrictlyAscending(visited) && forall i :: 0 <= i < |visited| ==> Eligible(visited[i], since, until, None)
    ensures ok ==> forall e :: e in old(reader.visible) && Eligible(e, since, until, None) ==> e in visited
    ensures ok ==> Complete(state.journal, old(reader.visible), since, until)
  {
    var after: Option<Key> := None;
    visited := [];
    ghost var start := reader.visible;
    while true
      invariant Legal(reader.visible, reader.universe) && start <= reader.visible
      invariant Sound(state.db, state.journal, reader.universe, punctual, s)
                && Remembered(state.db.delivered, state.journal, reader.universe, since)
      invariant SameCursors(old(state.db), state.db) && old(state.journal) <= state.journal
      invariant Visited(visited, since, until, after) && Covered(visited, state.journal, start, since, until, after)
      decreases Unvisited(reader.universe, after)
    {
      var result := reader.Page(since, until, after, s.batchSize);
      if result.None? {
        return false, visited;
      }
      var page := result.value;
      ghost var before := state.journal;
      PageExtends(visited, page, since, until, after);
      PageIsInside(page, reader.visible, reader.universe, since, until, after, s.batchSize);
      var delivered := DeliverPage(page, since, now, state, reader.universe, punctual, s);
      if !delivered {
        return false, visited;
      }
      PageCovers(visited, page, before, state.journal, start, reader.visible, since, until, after, s.batchSize);
      visited := visited + page;
      if |page| < s.batchSize {
        return true, visited;
      }
      var last := page[|page| - 1];
      CursorMoves(reader.universe, after, last);
      after := Some(KeyOf(last));
    }
  }

  lemma PageIsInside(page: seq<Notice>, visible: set<Notice>, universe: set<Notice>, since: Time, until: Time,
                     after: Option<Key>, size: nat)
    requires IsPage(page, visible, since, until, after, size) && Legal(visible, universe)
    ensures forall i :: 0 <= i < |page| ==> page[i] in universe && since <= page[i].createdAt <= until
                                            && Behind(after, page[i])
    ensures IdsUnique(universe)
  {
  }

  lemma CursorMoves(events: set<Notice>, after: Option<Key>, last: Notice)
    requires last in events && Behind(after, last)
    ensures Unvisited(events, Some(KeyOf(last))) < Unvisited(events, after)
  {
    assert last in Unvisited(events, after) && last !in Unvisited(events, Some(KeyOf(last)));
  }

  // ---- One poll

  datatype PollResult = Unreachable | Bootstrapped | BackedOff | NotDue | Interrupted | Finished(reconciled: bool)

  /** Every allowed event of `events` between `since` and `until` has been delivered. */
  ghost predicate Complete(journal: seq<Entry>, events: set<Notice>, since: Time, until: Time) {
    var holds := forall e :: e in events && InWindow(e, since, until) ==> IsMarked(journal, e.id);
    holds
  }

  lemma CompleteGrows(before: seq<Entry>, journal: seq<Entry>, events: set<Notice>, since: Time, until: Time)
    requires Complete(before, events, since, until) && before <= journal
    ensures Complete(journal, events, since, until)
  {
    MarksStay(before, journal);
  }

  /** The delivery table remembers everything a scan that starts behind the retention may meet. */
  lemma RetentionCovers(db: Tables, journal: seq<Entry>, events: set<Notice>, punctual: set<Notice>, since: Time,
                        s: Settings)
    requires Sound(db, journal, events, punctual, s) && db.scanThrough.Some?
             && since >= db.scanThrough.value - RETENTION
    ensures Remembered(db.delivered, journal, events, since)
  {
  }

  /** Behind the cursor the invariant vouches for a punctual event, behind the window the scan does, and what was not
      visible when the clock was read is still inside the overlap. */
  lemma BacklogIsComplete(db: Tables, journal: seq<Entry>, events: set<Notice>, punctual: set<Notice>,
                          seen: set<Notice>,
                          scanned: Time, since: Time, until: Time, now: Time, s: Settings)
    requires Sound(db, journal, events, punctual, s) && Sane(s) && SeenAt(punctual, seen, s.overlap + s.settle, now)
    requires db.startedAt.Some? && db.scanThrough == Some(scanned) && scanned < until == now - s.settle
    requires since == Max(db.startedAt.value, scanned - s.overlap) && Complete(journal, seen, since, until)
    ensures forall e :: e in punctual && InWindow(e, since, until) ==> IsMarked(journal, e.id)
                                                                       || until < e.createdAt + s.overlap
    ensures Complete(journal, seen * punctual, db.startedAt.value, until)
  {
    forall e | e in seen * punctual && InWindow(e, db.startedAt.value, until)
      ensures IsMarked(journal, e.id)
    {
      if e.createdAt >= since {
        assert InWindow(e, since, until);
      } else {
        assert e.createdAt + s.overlap < scanned;
      }
    }
  }

  lemma CompleteShrinks(journal: seq<Entry>, events: set<Notice>, fewer: set<Notice>, since: Time, until: Time)
    requires Complete(journal, events, since, until) && fewer <= events
    ensures Complete(journal, fewer, since, until)
  {
  }

  /** The backlog half of `poll_once`: from the overlap behind the cursor up to `until`; then the cursor advances. */
  method ScanBacklog(now: Time, until: Time, started: Time, scanned: Time, state: StateStore, reader: AuditReader,
                     s: Settings,
                     ghost punctual: set<Notice>, ghost seen: set<Notice>)
    returns (ok: bool)
    requires Legal(reader.visible, reader.universe) && Sane(s)
             && Sound(state.db, state.journal, reader.universe, punctual, s)
    requires until == now - s.settle && state.db.startedAt == Some(started) && state.db.scanThrough == Some(scanned)
             && scanned < until
    requires SeenAt(punctual, seen, s.overlap + s.settle, now) && seen <= reader.visible
    modifies reader, state
    ensures Legal(reader.visible, reader.universe) && old(reader.visible) <= reader.visible
    ensures Sound(state.db, state.journal, reader.universe, punctual, s) && old(state.journal) <= state.journal
    ensures state.db.startedAt == Some(started) && state.db.lastReconciled == old(state.db).lastReconciled
    ensures state.db.scanThrough == Some(if ok then until else scanned)
    ensures ok ==> Complete(state.journal, seen * punctual, started, until)
  {
    var since := Max(started, scanned - s.overlap);
    RetentionCovers(state.db, state.journal, reader.universe, punctual, since, s);
    ghost var start := reader.visible;
    ghost var visited;
    ok, visited := DeliverRange(since, until, now, state, reader, punctual, s);
    if ok {
      CompleteShrinks(state.journal, start, seen, since, until);
      BacklogIsComplete(state.db, state.journal, reader.universe, punctual, seen, scanned, since, until, now, s);
      state.AdvanceScan(until, reader.universe, punctual, s);
    }
  }

  /** The reconciliation pass of `poll_once`: the whole window behind `until`, whatever was already scanned. */
  method Reconcile(now: Time, until: Time, started: Time, state: StateStore, reader: AuditReader, s: Settings,
                   ghost punctual: set<Notice>, ghost seen: set<Notice>)
    returns (ok: bool)
    requires Legal(reader.visible, reader.universe) && Sane(s)
             && Sound(state.db, state.journal, reader.universe, punctual, s)
    requires until == now - s.settle && state.db.scanThrough == Some(until) && state.db.startedAt == Some(started)
             && seen <= reader.visible
    modifies reader, state
    ensures Legal(reader.visible, reader.universe) && old(reader.visible) <= reader.visible
    ensures Sound(state.db, state.journal, reader.universe, punctual, s) && old(state.journal) <= state.journal
    ensures state.db.startedAt == Some(started) && state.db.scanThrough == Some(until)
    ensures ok ==> Complete(state.journal, seen, Max(started, until - s.window), until)
  {
    var since := Max(started, until - s.window);
    RetentionCovers(state.db, state.journal, reader.universe, punctual, since, s);
    ghost var start := reader.visible;
    ghost var visited;
    ok, visited := DeliverRange(since, until, now, state, reader, punctual, s);
    if ok {
      CompleteShrinks(state.journal, start, seen, since, until);
      state.SetTimes(Some(now), state.db.retryNotBefore, reader.universe, punctual, s);
    }
  }

  /** The scanning part of `poll_once`: backlog, reconciliation if it is due, pruning. */
  method Scan(now: Time, until: Time, started: Time, scanned: Time, due: bool, state: StateStore, reader: AuditReader,
              s: Settings,
              ghost punctual: set<Notice>, ghost seen: set<Notice>)
    returns (ok: bool)
    requires Legal(reader.visible, reader.universe) && Sane(s)
             && Sound(state.db, state.journal, reader.universe, punctual, s)
    requires until == now - s.settle && state.db.startedAt == Some(started) && state.db.scanThrough == Some(scanned)
             && scanned < until
    requires SeenAt(punctual, seen, s.overlap + s.settle, now) && seen <= reader.visible
    modifies reader, state
    ensures Legal(reader.visible, reader.universe) && old(reader.visible) <= reader.visible
    ensures Sound(state.db, state.journal, reader.universe, punctual, s) && old(state.journal) <= state.journal
    ensures state.db.startedAt == Some(started)
    ensures state.db.scanThrough == Some(scanned) || (state.db.scanThrough == Some(until)
                                                      && Complete(state.journal, seen * punctual, started, until))
    ensures ok ==> state.db.scanThrough == Some(until)
    ensures ok && due ==> Complete(state.journal, seen, Max(started, until - s.window), until)
  {
    ok := ScanBacklog(now, until, started, scanned, state, reader, s, punctual, seen);
    if !ok {
      return;
    }
    if due {
      ghost var before := state.journal;
      ok := Reconcile(now, until, started, state, reader, s, punctual, seen);
      CompleteGrows(before, state.journal, seen * punctual, started, until);
      if !ok {
        return;
      }
    }
    state.Prune(now, reader.universe, punctual, s);
  }

  /** `poll_once`. `seen` is what was visible when the poll read the server clock `now`. */
  method PollOnce(state: StateStore, reader: AuditReader, s: Settings, ghost punctual: set<Notice>)
    returns (result: PollResult, now: Time, ghost seen: set<Notice>)
    requires Legal(reader.visible, reader.universe) && Sane(s)
             && Sound(state.db, state.journal, reader.universe, punctual, s)
    requires reader.lag == s.overlap + s.settle && punctual == reader.universe - reader.late
    modifies reader, state
    ensures Legal(reader.visible, reader.universe) && old(reader.visible) <= seen <= reader.visible
    ensures Sound(state.db, state.journal, reader.universe, punctual, s) && old(state.journal) <= state.journal
    ensures old(state.db).startedAt.Some? ==> state.db.startedAt == old(state.db).startedAt
    ensures old(state.db).scanThrough.Some? && state.db.scanThrough != old(state.db).scanThrough ==>
              && state.db.scanThrough == Some(now - s.settle) && old(state.db).scanThrough.value < now - s.settle
              && state.db.startedAt.Some? && Complete(state.journal, seen * punctual, state.db.startedAt.value,
                                                      now - s.settle)
    ensures result.Finished? ==> state.db.scanThrough == Some(now - s.settle) && state.db.startedAt.Some?
    ensures result.Finished? && result.reconciled ==>
              Complete(state.journal, seen, Max(state.db.startedAt.value, now - s.settle - s.window), now - s.settle)
  {
    now, seen := 0, reader.visible;
    var read := reader.CurrentTime();
    seen := reader.visible;
    if read.None? {
      return Unreachable, now, seen;
    }
    now := read.value;
    var isNew := state.Bootstrap(now, reader.universe, punctual, s);
    if isNew {
      return Bootstrapped, now, seen;
    }
    if state.db.retryNotBefore.Some? && now < state.db.retryNotBefore.value {
      return BackedOff, now, seen;
    }
    var until, started, scanned := now - s.settle, state.db.startedAt.value, state.db.scanThrough.value;
    if until <= scanned {
      return NotDue, now, seen;
    }
    var due := state.db.lastReconciled.None? || now - state.db.lastReconciled.value >= s.interval;
    var ok := Scan(now, until, started, scanned, due, state, reader, s, punctual, seen);
    return if ok then Finished(due) else Interrupted, now, seen;
  }

  /** `main`: poll after poll, whatever fails in between, over any number of process lives. In the end no delivered
      event was ever sent again, and every punctual event behind the cursor was delivered or is still inside the
      overlap, where the next successful poll will look again. */
  method PollForever(state: StateStore, reader: AuditReader, s: Settings, polls: nat, ghost punctual: set<Notice>)
    requires Legal(reader.visible, reader.universe) && Sane(s)
             && Sound(state.db, state.journal, reader.universe, punctual, s)
    requires reader.lag == s.overlap + s.settle && punctual == reader.universe - reader.late
    modifies reader, state
    ensures Sound(state.db, state.journal, reader.universe, punctual, s) && NeverResent(state.journal)
    ensures state.db.startedAt.Some? && state.db.scanThrough.Some? ==>
              CursorInv(state.db.startedAt.value, state.db.scanThrough.value, state.journal, punctual, s)
  {
    for k := 0 to polls
      invariant Legal(reader.visible, reader.universe) && Sound(state.db, state.journal, reader.universe, punctual, s)
    {
      var _, _, _ := PollOnce(state, reader, s, punctual);
    }
  }
}
