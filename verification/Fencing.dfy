/** The theory of leased rows shared by the execution, workspace, runner-job and repository managers. */
module Fencing {
  import opened Prelude

  /** What an ownership check reads of a row. `tag` is the leased state (the operation, for a
      workspace); `version` is constant for the rows that are not versioned. */
  datatype Leased = Leased(active: bool, tag: nat, owner: Option<string>, generation: nat, version: nat,
                           expiry: Option<Time>)

  /** A lease as handed out by a claim. */
  datatype Ticket = Ticket(tag: nat, worker: string, generation: nat, version: nat)

  /** Somebody holds an unexpired lease on the row. */
  predicate Held(r: Leased, now: Time) {
    r.active && r.owner.Some? && r.expiry.Some? && r.expiry.value > now
  }

  /** The ownership check. */
  predicate Passes(r: Leased, t: Ticket, now: Time) {
    Held(r, now) && r.owner == Some(t.worker) && r.tag == t.tag && r.generation == t.generation
        && r.version == t.version
  }

  /** One transaction at `now`: generations and versions never go back, and a row that ends up held under
      the same generation and version was already held by the same owner in the same state. */
  predicate FencedStep(r: Leased, r': Leased, now: Time) {
    && r.generation <= r'.generation && r.version <= r'.version
    && (r'.generation == r.generation && r'.version == r.version && Held(r', now) ==>
          Held(r, now) && r'.owner == r.owner && r'.tag == r.tag)
  }

  /** The ticket was issued for this row or an earlier state of it. */
  predicate Issued(r: Leased, t: Ticket) {
    t.generation <= r.generation && t.version <= r.version
  }

  /** A ticket that failed the ownership check fails it after any further transaction, and ever after. */
  lemma DeadTicketStaysDead(r: Leased, r': Leased, t: Ticket, before: Time, now: Time, later: Time)
    requires FencedStep(r, r', now) && before <= now <= later
    requires Issued(r, t) && !Passes(r, t, before)
    ensures Issued(r', t) && !Passes(r', t, later)
  {
  }

  /** Tickets issued by different claims, which always move to a fresh generation, never pass together. */
  lemma AtMostOneTicketPasses(r: Leased, s: Ticket, t: Ticket, now: Time)
    requires s.generation != t.generation
    ensures !(Passes(r, s, now) && Passes(r, t, now))
  {
  }
}
