/** The rows kept in Postgres and the values that travel between the services. */
module Domain {

  // Every identifier in the source is a UUID.  A UUID is a 128-bit number, and the byte order of
  // its canonical lower-case text is the order of that number, so identifiers are numbers here.
  type EventId = nat
  type CustomerId = nat
  type ClaimId = nat
  type PaymentId = nat
  type ProcId = nat
  type Reference = nat

  datatype Option<+T> = None | Some(value: T)

  datatype EventStatus = Draft | Active | SoldOut | Ended

  datatype EventRow = EventRow(total: nat, price: int, status: EventStatus)

  datatype ClaimStatus = Claimed | Confirmed | Released

  datatype ClaimRow = ClaimRow(event: EventId, customer: CustomerId, status: ClaimStatus)

  // Paid stands for the payment status CONFIRMED, to keep it apart from the claim status.
  datatype PaymentStatus = Initializing | Pending | Paid | Failed

  datatype PaymentRow = PaymentRow(claim: ClaimId, amount: int, reference: Reference, status: PaymentStatus)

  /** What happened to one Redis command: it was executed and answered, it never reached Redis,
      or it was executed and the answer was lost.  The caller sees the last two as an error. */
  datatype Delivery = Answered | Unsent | AnswerLost

  /** The rows of one event in one status. */
  function RowsIn(claims: map<ClaimId, ClaimRow>, e: EventId, st: ClaimStatus): set<ClaimId> {
    set id | id in claims && claims[id].event == e && claims[id].status == st
  }

  /** The query behind the partial unique index on claims: does the customer hold a CLAIMED row? */
  predicate HasActiveClaim(claims: map<ClaimId, ClaimRow>, c: CustomerId, e: EventId) {
    exists id :: id in claims && claims[id].customer == c && claims[id].event == e && claims[id].status == Claimed
  }

  /** CountActive: only CLAIMED rows are counted, CONFIRMED ones are not. */
  function CountActive(claims: map<ClaimId, ClaimRow>, e: EventId): nat {
    |RowsIn(claims, e, Claimed)|
  }

  /** The conditional UPDATE on one claim row, seen as a function of the table: the row moves only
      from CLAIMED, and any other row is left alone. */
  function SetClaim(claims: map<ClaimId, ClaimRow>, id: ClaimId, st: ClaimStatus): map<ClaimId, ClaimRow>
    requires id in claims
  {
    claims[id := claims[id].(status := st)]
  }

  /** There is always an unused identifier. */
  lemma Fresh(used: set<nat>) returns (x: nat)
    ensures x !in used
  {
    x := FreshAbove(used);
  }

  lemma {:induction false} FreshAbove(used: set<nat>) returns (x: nat)
    ensures forall y | y in used :: y < x
  {
    if used == {} { return 0; }
    var y :| y in used;
    var z := FreshAbove(used - {y});
    x := if y < z then z else y + 1;
    assert forall w | w in used :: w == y || w in used - {y};
  }
}
