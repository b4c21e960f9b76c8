/** The inventory ledger of one event:

      counter + CLAIMED rows + CONFIRMED rows + decrements held by claim attempts + increments owed

    and what every statement of every process does to it. */
module Ledger {
  import opened Domain
  import opened Protocol
  import opened Integrity

  predicate Holds(q: Proc, e: EventId) {
    (q.Inserting? || q.RollingBack?) && q.event == e
  }

  predicate Owes(q: Proc, e: EventId) {
    q.Owing? && q.event == e
  }

  function Holders(procs: map<ProcId, Proc>, e: EventId): set<ProcId> {
    set p | p in procs && Holds(procs[p], e)
  }

  function Owers(procs: map<ProcId, Proc>, e: EventId): set<ProcId> {
    set p | p in procs && Owes(procs[p], e)
  }

  function R(s: State, e: EventId): int { Counter(s.counters, e) }
  function C(s: State, e: EventId): nat { CountActive(s.claims, e) }
  function F(s: State, e: EventId): nat { |RowsIn(s.claims, e, Confirmed)| }
  function H(s: State, e: EventId): nat { |Holders(s.procs, e)| }
  function O(s: State, e: EventId): nat { |Owers(s.procs, e)| }

  function Balance(s: State, e: EventId): int {
    R(s, e) + C(s, e) + F(s, e) + H(s, e) + O(s, e)
  }

  function One(b: bool): int { if b then 1 else 0 }

  // ---- how one change to a table moves its counts

  lemma Resize<T>(a: set<T>, b: set<T>, x: T)
    requires a - {x} == b - {x}
    ensures |b| == |a| - One(x in a) + One(x in b)
  {
    assert a == (a - {x}) + (if x in a then {x} else {});
    assert b == (b - {x}) + (if x in b then {x} else {});
  }

  lemma ProcPut(procs: map<ProcId, Proc>, p: ProcId, q: Proc, e: EventId)
    ensures |Holders(procs[p := q], e)| == |Holders(procs, e)| - One(p in procs && Holds(procs[p], e)) + One(Holds(q, e))
    ensures |Owers(procs[p := q], e)| == |Owers(procs, e)| - One(p in procs && Owes(procs[p], e)) + One(Owes(q, e))
  {
    Resize(Holders(procs, e), Holders(procs[p := q], e), p);
    Resize(Owers(procs, e), Owers(procs[p := q], e), p);
  }

  lemma ProcDrop(procs: map<ProcId, Proc>, p: ProcId, e: EventId)
    ensures |Holders(procs - {p}, e)| == |Holders(procs, e)| - One(p in procs && Holds(procs[p], e))
    ensures |Owers(procs - {p}, e)| == |Owers(procs, e)| - One(p in procs && Owes(procs[p], e))
  {
    Resize(Holders(procs, e), Holders(procs - {p}, e), p);
    Resize(Owers(procs, e), Owers(procs - {p}, e), p);
  }

  lemma RowPut(claims: map<ClaimId, ClaimRow>, id: ClaimId, row: ClaimRow, e: EventId, st: ClaimStatus)
    ensures |RowsIn(claims[id := row], e, st)|
         == |RowsIn(claims, e, st)| - One(id in claims && claims[id].event == e && claims[id].status == st)
            + One(row.event == e && row.status == st)
  {
    Resize(RowsIn(claims, e, st), RowsIn(claims[id := row], e, st), id);
  }

  // ---- the classification of the steps

  /** The statements that lose a ticket from the ledger of event e: an increment or an answered
      decrement that goes missing, a process that stops while it holds or owes, a Redis wipe. */
  predicate Loses(s: State, a: Action, e: EventId) {
    match a
    case Wipe => true
    case Decrement(p, d) =>
      d.AnswerLost? && p in s.procs && s.procs[p].Decrementing? && s.procs[p].event == e && R(s, e) > 0
    case GiveBack(p, d) =>
      d.Unsent? && p in s.procs && (s.procs[p].RollingBack? || s.procs[p].Owing?) && s.procs[p].event == e
    case Stop(p) => p in s.procs && (Holds(s.procs[p], e) || Owes(s.procs[p], e))
    case _ => false
  }

  /** The second cache miss, which the claim path does not look at. */
  predicate SecondMiss(s: State, a: Action, e: EventId) {
    a.Decrement? && a.delivery.Answered? && a.p in s.procs && s.procs[a.p].Decrementing?
    && s.procs[a.p].event == e && s.procs[a.p].retry && e !in s.counters
  }

  /** failureFlow whose MarkFailed finds no row in the expected status. */
  predicate FailureWithoutRow(s: State, a: Action, e: EventId) {
    a.UpdatePayment? && a.p in s.procs && s.procs[a.p].TxOpen? && s.procs[a.p].outcome.Fail?
    && !PaymentLocked(s.procs, s.procs[a.p].payment)
    && s.procs[a.p].payment in s.payments
    && s.payments[s.procs[a.p].payment].status != s.procs[a.p].outcome.expected
    && s.procs[a.p].claim in s.claims && s.claims[s.procs[a.p].claim].event == e
  }

  /** A counter overwritten with a count read from Postgres: ForceSync, cache warming, recovery. */
  predicate Overwrites(s: State, a: Action, e: EventId) {
    (a.WarmCache? || a.WriteCount?) && a.p in s.procs && !a.delivery.Unsent? &&
    var q := s.procs[a.p];
    && (if a.WarmCache? then q.Warming? && q.event == e
        else q.Syncing? && q.event == e && !(q.onlyIfMissing && e in s.counters))
  }

  predicate Raises(s: State, a: Action, e: EventId) {
    SecondMiss(s, a, e) || FailureWithoutRow(s, a, e) || Overwrites(s, a, e)
  }

  /** The ledger law.  Every statement of every process keeps the balance of every event, apart
      from three kinds: lossy ones lower it, by one or by the whole counter; the ignored cache miss
      and the row-less failure raise it by exactly one; an overwrite replaces the counter. */
  lemma LedgerLaw(s: State, a: Action, e: EventId)
    requires Sound(s)
    ensures !Loses(s, a, e) && !Raises(s, a, e) ==> Balance(Apply(s, a), e) == Balance(s, e)
    ensures Loses(s, a, e) && !a.Wipe? ==> Balance(Apply(s, a), e) == Balance(s, e) - 1
    ensures a.Wipe? ==> Balance(Apply(s, a), e) == Balance(s, e) - R(s, e)
    ensures SecondMiss(s, a, e) || FailureWithoutRow(s, a, e) ==> Balance(Apply(s, a), e) == Balance(s, e) + 1
    ensures Overwrites(s, a, e) ==> Balance(Apply(s, a), e) == Balance(s, e) - R(s, e) + s.procs[a.p].count
  {
    if !a.Wipe? {
      Entries(s, a, e);
      Account(s, a, e);
    }
  }

  /** What a process adds to the ledger: the decrement it holds, the increment it owes. */
  function Weight(q: Option<Proc>, e: EventId): int {
    if q.None? then 0 else One(Holds(q.value, e)) + One(Owes(q.value, e))
  }

  function At(s: State, p: ProcId): Option<Proc> {
    if p in s.procs then Some(s.procs[p]) else None
  }

  /** Held and owed entries move by the difference in weight of the one process that steps. */
  lemma Entries(s: State, a: Action, e: EventId)
    requires !a.Wipe?
    ensures var t := Apply(s, a);
      H(t, e) + O(t, e) == H(s, e) + O(s, e) - Weight(At(s, a.p), e) + Weight(Effects(s, a).1, e)
  {
    var r := Effects(s, a);
    if r.1.None? { ProcDrop(s.procs, a.p, e); } else { ProcPut(s.procs, a.p, r.1.value, e); }
  }

  function Sold(claims: map<ClaimId, ClaimRow>, e: EventId): int {
    |RowsIn(claims, e, Claimed)| + |RowsIn(claims, e, Confirmed)|
  }

  lemma SoldPut(claims: map<ClaimId, ClaimRow>, id: ClaimId, row: ClaimRow, e: EventId)
    ensures Sold(claims[id := row], e) == Sold(claims, e)
      - One(id in claims && claims[id].event == e && !claims[id].status.Released?) + One(row.event == e && !row.status.Released?)
  {
    RowPut(claims, id, row, e, Claimed);
    RowPut(claims, id, row, e, Confirmed);
  }

  /** The statements that touch the claim table, one row each. */
  lemma SoldMoves(s: State, a: Action, e: EventId)
    requires Sound(s) && !a.Wipe?
    ensures var t := Effects(s, a).0; var q := At(s, a.p);
      Sold(t.claims, e) == Sold(s.claims, e)
        + (if t.claims == s.claims then 0
           else if a.InsertClaim? then One(q.value.event == e)
           else if a.ReleaseRow? then -One(s.claims[a.id].event == e)
           else if q.value.outcome.Fail? then -One(s.claims[q.value.claim].event == e) else 0)
  {
    hide PaymentLocked, ClaimLocked, HasActiveClaim, Sold;
    var t := Effects(s, a).0;
    if t.claims != s.claims {
      var q := At(s, a.p);
      if a.InsertClaim? {
        SoldPut(s.claims, a.id, ClaimRow(q.value.event, q.value.customer, Claimed), e);
      } else if a.ReleaseRow? {
        SoldPut(s.claims, a.id, s.claims[a.id].(status := Released), e);
      } else {
        assert Remembers(s, q.value);
        SoldPut(s.claims, q.value.claim, s.claims[q.value.claim].(status := ClaimTarget(q.value.outcome)), e);
      }
    }
  }

  /** What one statement does to counter, sold rows and its own ledger entry, put together. */
  ghost predicate Accounts(s: State, a: Action, e: EventId)
    requires !a.Wipe?
  {
    var r := Effects(s, a);
    Counter(r.0.counters, e) + Sold(r.0.claims, e) + Weight(r.1, e)
    == Counter(s.counters, e) + Sold(s.claims, e) + Weight(At(s, a.p), e)
       + (if Overwrites(s, a, e) then s.procs[a.p].count - R(s, e)
          else One(SecondMiss(s, a, e) || FailureWithoutRow(s, a, e)) - One(Loses(s, a, e)))
  }

  lemma AccountDecrement(s: State, a: Action, e: EventId)
    requires Sound(s) && a.Decrement? && a.p in s.procs
    ensures Accounts(s, a, e)
  {
    SoldMoves(s, a, e);
  }

  lemma AccountClaimPath(s: State, a: Action, e: EventId)
    requires Sound(s) && !a.Wipe? && a.p in s.procs
    requires a.WarmCache? || a.InsertClaim? || a.GiveBack? || a.WriteCount?
    ensures Accounts(s, a, e)
  {
    hide PaymentLocked, ClaimLocked, HasActiveClaim, Sold, Sound;
    SoldMoves(s, a, e);
    match (a, s.procs[a.p])
    case (InsertClaim(_, _, _), Inserting(_, _)) =>
    case _ =>
  }

  lemma AccountPaymentPath(s: State, a: Action, e: EventId)
    requires Sound(s) && !a.Wipe? && a.p in s.procs
    requires !(a.Decrement? || a.WarmCache? || a.InsertClaim? || a.GiveBack? || a.WriteCount?)
    ensures Accounts(s, a, e)
  {
    hide Counter, Sold;
    SoldMoves(s, a, e);
    assert Remembers(s, s.procs[a.p]);
    match (a, s.procs[a.p])
    case (UpdatePayment(_), TxOpen(_, _, _)) =>
    case (Commit(_, _), TxBoth(_, _, _)) =>
    case _ =>
  }

  lemma Account(s: State, a: Action, e: EventId)
    requires Sound(s) && !a.Wipe?
    ensures Accounts(s, a, e)
  {
    if a.p !in s.procs {
      SoldMoves(s, a, e);
    } else if a.Decrement? {
      AccountDecrement(s, a, e);
    } else if a.WarmCache? || a.InsertClaim? || a.GiveBack? || a.WriteCount? {
      AccountClaimPath(s, a, e);
    } else {
      AccountPaymentPath(s, a, e);
    }
  }
}
