/** The two-store protocol as a state machine.

    A state is what Postgres and Redis hold, plus the program counter of every request, webhook and
    worker pass in flight.  An action is one atomic statement of one of them: one SQL statement, one
    Redis command or script, one gateway call.  Actions are total: an action that is not enabled (no
    such process, a row locked by an open transaction) leaves the state as it is.  A run is any
    sequence of actions, so every interleaving of any number of processes is a run. */
module Protocol {
  import opened Domain

  /** The two transaction bodies: confirmFlow, and failureFlow with the status it expects. */
  datatype Outcome = Confirm | Fail(expected: PaymentStatus)

  datatype Proc =
    // Claim: before the first (or, with retry, the second) AttemptDecrement
    | Decrementing(customer: CustomerId, event: EventId, retry: bool)
    // Claim: the script reported a cache miss, before countFromPostgres
    | Counting(customer: CustomerId, event: EventId)
    // Claim: a count was read, before ForceSync
    | Warming(customer: CustomerId, event: EventId, count: int)
    // Claim: past the decrement, before the INSERT
    | Inserting(customer: CustomerId, event: EventId)
    // Claim: the INSERT was refused, before the compensating increment
    | RollingBack(event: EventId)
    // a row was released, before the increment that gives the ticket back
    | Owing(event: EventId)
    // Initialize: claim validated, before the payment row is inserted
    | Creating(claim: ClaimId, amount: int)
    // before InitializeTransaction; fromRow says that the values come from Reconcile's snapshot
    | Calling(payment: PaymentId, claim: ClaimId, reference: Reference, amount: int, fromRow: bool)
    // the gateway accepted, before MarkPending
    | Accepted(payment: PaymentId, claim: ClaimId)
    // inside WithTransaction: before the payment UPDATE, before the claim UPDATE, before COMMIT
    | TxOpen(payment: PaymentId, claim: ClaimId, outcome: Outcome)
    | TxPayment(payment: PaymentId, claim: ClaimId, outcome: Outcome)
    | TxBoth(payment: PaymentId, claim: ClaimId, outcome: Outcome)
    // reconcileEvent and recoverEvent: T - CLAIMED was read, before the counter is written
    | Syncing(event: EventId, count: int, onlyIfMissing: bool)

  /** One InitializeTransaction request as the gateway sees it. */
  datatype Call = Call(payment: PaymentId, claim: ClaimId, reference: Reference, amount: int, byInitialize: bool)

  datatype GatewayReply = Success | Transient | Permanent

  datatype State = State(
    events: map<EventId, EventRow>,
    counters: map<EventId, int>,
    claims: map<ClaimId, ClaimRow>,
    payments: map<PaymentId, PaymentRow>,
    procs: map<ProcId, Proc>,
    log: seq<Call>)

  datatype Action =
    | BeginClaim(p: ProcId, customer: CustomerId, event: EventId)
    | Decrement(p: ProcId, delivery: Delivery)
    | CountFromPostgres(p: ProcId)
    | WarmCache(p: ProcId, delivery: Delivery)
    | InsertClaim(p: ProcId, id: ClaimId, ok: bool)
    | GiveBack(p: ProcId, delivery: Delivery)
    | ReleaseRow(p: ProcId, id: ClaimId)
    | BeginPayment(p: ProcId, id: ClaimId)
    | InsertPayment(p: ProcId, pay: PaymentId, reference: Reference)
    | BeginRetry(p: ProcId, pay: PaymentId)
    | CallGateway(p: ProcId, reply: GatewayReply)
    | MarkPending(p: ProcId)
    | BeginSettle(p: ProcId, pay: PaymentId, confirm: bool)
    | UpdatePayment(p: ProcId)
    | UpdateClaim(p: ProcId)
    | Commit(p: ProcId, ok: bool)
    | ReadCount(p: ProcId, event: EventId, onlyIfMissing: bool)
    | WriteCount(p: ProcId, delivery: Delivery)
    | Stop(p: ProcId)
    | Wipe

  // ---- Redis commands on the inventory counter

  /** decrementIfAvailableScript: -1 for a missing key, -2 for a count that is not positive, and the
      new count otherwise. */
  function DecrementScript(counters: map<EventId, int>, e: EventId): (r: (map<EventId, int>, int))
    ensures r.1 >= 0 <==> e in counters && counters[e] > 0
    ensures r.1 < 0 ==> r.0 == counters
    ensures r.1 >= 0 ==> r.0.Keys == counters.Keys && r.1 == r.0[e] && r.0[e] + 1 == counters[e]
    ensures forall x | x in counters && x != e :: x in r.0 && r.0[x] == counters[x]
  {
    if e !in counters then (counters, -1)
    else if counters[e] <= 0 then (counters, -2)
    else (counters[e := counters[e] - 1], counters[e] - 1)
  }

  /** The counter as a number: a missing key counts as zero, as INCRBY treats it. */
  function Counter(counters: map<EventId, int>, e: EventId): int {
    if e in counters then counters[e] else 0
  }

  /** GET: -1 stands for a missing key. */
  function Get(counters: map<EventId, int>, e: EventId): int {
    if e in counters then counters[e] else -1
  }

  /** INCRBY 1, which creates a missing key. */
  function IncrementBy1(counters: map<EventId, int>, e: EventId): map<EventId, int> {
    counters[e := Counter(counters, e) + 1]
  }

  // ---- row locks of open transactions

  predicate HoldsPayment(q: Proc, pay: PaymentId) {
    (q.TxPayment? || q.TxBoth?) && q.payment == pay
  }

  predicate HoldsClaim(q: Proc, id: ClaimId) {
    q.TxBoth? && q.claim == id
  }

  predicate PaymentLocked(procs: map<ProcId, Proc>, pay: PaymentId) {
    exists p :: p in procs && HoldsPayment(procs[p], pay)
  }

  predicate ClaimLocked(procs: map<ProcId, Proc>, id: ClaimId) {
    exists p :: p in procs && HoldsClaim(procs[p], id)
  }

  // ---- actions

  function Expected(o: Outcome): PaymentStatus {
    match o case Confirm => Pending case Fail(st) => st
  }

  function PaymentTarget(o: Outcome): PaymentStatus {
    if o.Confirm? then Paid else Failed
  }

  function ClaimTarget(o: Outcome): ClaimStatus {
    if o.Confirm? then Confirmed else Released
  }

  /** What one statement does: the new contents of the stores, and where its process goes next,
      None when the process is over.  A blocked statement goes nowhere. */
  type Effect = (State, Option<Proc>)

  function DoDecrement(s: State, q: Proc, delivery: Delivery): Effect
    requires q.Decrementing?
  {
    var r := DecrementScript(s.counters, q.event);
    match delivery
    case Unsent => (s, None)
    case AnswerLost => (s.(counters := r.0), None)
    case Answered =>
      if r.1 >= 0 then (s.(counters := r.0), Some(Inserting(q.customer, q.event)))
      else if r.1 == -2 then (s, None)
      else if q.retry then (s, Some(Inserting(q.customer, q.event))) // the second miss is not looked at
      else (s, Some(Counting(q.customer, q.event)))
  }

  function DoCount(s: State, q: Proc): Effect
    requires q.Counting?
  {
    if q.event !in s.events then (s, None)
    else
      var count := s.events[q.event].total - CountActive(s.claims, q.event);
      (s, if count <= 0 then None else Some(Warming(q.customer, q.event, count)))
  }

  /** ForceSync's error is only logged: the retry follows in every case. */
  function DoWarm(s: State, q: Proc, delivery: Delivery): Effect
    requires q.Warming?
  {
    (if delivery.Unsent? then s else s.(counters := s.counters[q.event := q.count]),
     Some(Decrementing(q.customer, q.event, true)))
  }

  /** The INSERT is refused by an unknown event, a used id, or the partial unique index. */
  function DoInsertClaim(s: State, q: Proc, id: ClaimId, ok: bool): Effect
    requires q.Inserting?
  {
    if !ok || q.event !in s.events || id in s.claims || HasActiveClaim(s.claims, q.customer, q.event)
    then (s, Some(RollingBack(q.event)))
    else (s.(claims := s.claims[id := ClaimRow(q.event, q.customer, Claimed)]), None)
  }

  function DoGiveBack(s: State, e: EventId, delivery: Delivery): Effect {
    (if delivery.Unsent? then s else s.(counters := IncrementBy1(s.counters, e)), None)
  }

  /** The INSERT fails on the primary key, on the one-payment-per-claim index and on the unique
      reference; Initialize then answers with the existing row and calls nobody. */
  function DoInsertPayment(s: State, q: Proc, pay: PaymentId, reference: Reference): Effect
    requires q.Creating?
  {
    if pay in s.payments
       || (exists k :: k in s.payments && (s.payments[k].claim == q.claim || s.payments[k].reference == reference))
    then (s, None)
    else (s.(payments := s.payments[pay := PaymentRow(q.claim, q.amount, reference, Initializing)]),
          Some(Calling(pay, q.claim, reference, q.amount, false)))
  }

  function DoCallGateway(s: State, q: Proc, reply: GatewayReply): Effect
    requires q.Calling?
  {
    (s.(log := s.log + [Call(q.payment, q.claim, q.reference, q.amount, !q.fromRow)]),
     match reply
     case Success => Some(Accepted(q.payment, q.claim))
     case Transient => None
     case Permanent => Some(TxOpen(q.payment, q.claim, Fail(Initializing))))
  }

  function DoMarkPending(s: State, q: Proc): Effect
    requires q.Accepted?
  {
    if PaymentLocked(s.procs, q.payment) then (s, Some(q))
    else if q.payment in s.payments && s.payments[q.payment].status == Initializing
    then (s.(payments := s.payments[q.payment := s.payments[q.payment].(status := Pending)]), None)
    else (s, None)
  }

  /** The payment UPDATE of either transaction body.  No matching row is not an error: the empty
      transaction commits, and failureFlow goes on to give the ticket back. */
  function DoUpdatePayment(s: State, q: Proc): Effect
    requires q.TxOpen?
  {
    if PaymentLocked(s.procs, q.payment) then (s, Some(q))
    else if q.payment in s.payments && s.payments[q.payment].status == Expected(q.outcome)
    then (s, Some(TxPayment(q.payment, q.claim, q.outcome)))
    else if q.outcome.Confirm? || q.claim !in s.claims then (s, None)
    else (s, Some(Owing(s.claims[q.claim].event)))
  }

  /** The claim UPDATE of either body.  No matching row is an error, which rolls the whole
      transaction back. */
  function DoUpdateClaim(s: State, q: Proc): Effect
    requires q.TxPayment?
  {
    if ClaimLocked(s.procs, q.claim) then (s, Some(q))
    else if q.claim in s.claims && s.claims[q.claim].status == Claimed
    then (s, Some(TxBoth(q.payment, q.claim, q.outcome)))
    else (s, None)
  }

  /** COMMIT publishes both staged rows at once; a failed COMMIT publishes neither. */
  function DoCommit(s: State, q: Proc, ok: bool): Effect
    requires q.TxBoth?
  {
    if !ok || q.payment !in s.payments || q.claim !in s.claims then (s, None)
    else
      (s.(payments := s.payments[q.payment := s.payments[q.payment].(status := PaymentTarget(q.outcome))],
          claims := SetClaim(s.claims, q.claim, ClaimTarget(q.outcome))),
       if q.outcome.Confirm? then None else Some(Owing(s.claims[q.claim].event)))
  }

  function DoWriteCount(s: State, q: Proc, delivery: Delivery): Effect
    requires q.Syncing?
  {
    if delivery.Unsent? || (q.onlyIfMissing && q.event in s.counters) then (s, None)
    else (s.(counters := s.counters[q.event := q.count]), None)
  }

  /** Statements that open a process, whose name must be unused. */
  function Open(s: State, a: Action): (r: Effect)
    ensures r.0.(claims := s.claims) == s
    ensures r.0 != s ==> a.ReleaseRow?
    ensures r.1.None? ==> r.0 == s
  {
    match a
    case BeginClaim(_, c, e) =>
      (s, if HasActiveClaim(s.claims, c, e) then None else Some(Decrementing(c, e, false)))
    case ReleaseRow(_, id) =>
      if id in s.claims && s.claims[id].status == Claimed && !ClaimLocked(s.procs, id)
      then (s.(claims := SetClaim(s.claims, id, Released)), Some(Owing(s.claims[id].event))) else (s, None)
    case BeginPayment(_, id) =>
      if id in s.claims && s.claims[id].status == Claimed && s.claims[id].event in s.events
      then (s, Some(Creating(id, s.events[s.claims[id].event].price))) else (s, None)
    case BeginRetry(_, pay) =>
      if pay in s.payments   // Reconcile works on a snapshot, so the status may be out of date
      then (s, Some(Calling(pay, s.payments[pay].claim, s.payments[pay].reference, s.payments[pay].amount, true)))
      else (s, None)
    case BeginSettle(_, pay, confirm) =>
      if pay in s.payments
      then (s, Some(TxOpen(pay, s.payments[pay].claim, if confirm then Confirm else Fail(Pending)))) else (s, None)
    case ReadCount(_, e, onlyIfMissing) =>
      if e in s.events
      then (s, Some(Syncing(e, s.events[e].total - CountActive(s.claims, e), onlyIfMissing))) else (s, None)
    case _ => (s, None)
  }

  /** Statements of a process that is at q.  Stop is a crash, a cancelled context, or any error that
      makes the process give up before its next statement. */
  function Continue(s: State, a: Action, q: Proc): (r: Effect)
    ensures r.0.procs == s.procs && r.0.events == s.events
    ensures r.0.counters != s.counters ==> a.Decrement? || a.WarmCache? || a.GiveBack? || a.WriteCount?
    ensures r.0.claims != s.claims ==> (a.InsertClaim? && q.Inserting?) || (a.Commit? && q.TxBoth?)
    ensures r.0.payments != s.payments ==>
      (a.MarkPending? && q.Accepted?) || (a.InsertPayment? && q.Creating?) || (a.Commit? && q.TxBoth?)
    ensures r.0.log != s.log ==> a.CallGateway? && q.Calling?
  {
    match (a, q)
    case (Decrement(_, d), Decrementing(_, _, _)) => DoDecrement(s, q, d)
    case (CountFromPostgres(_), Counting(_, _)) => DoCount(s, q)
    case (WarmCache(_, d), Warming(_, _, _)) => DoWarm(s, q, d)
    case (InsertClaim(_, id, ok), Inserting(_, _)) => DoInsertClaim(s, q, id, ok)
    case (GiveBack(_, d), RollingBack(e)) => DoGiveBack(s, e, d)
    case (GiveBack(_, d), Owing(e)) => DoGiveBack(s, e, d)
    case (InsertPayment(_, pay, r), Creating(_, _)) => DoInsertPayment(s, q, pay, r)
    case (CallGateway(_, reply), Calling(_, _, _, _, _)) => DoCallGateway(s, q, reply)
    case (MarkPending(_), Accepted(_, _)) => DoMarkPending(s, q)
    case (UpdatePayment(_), TxOpen(_, _, _)) => DoUpdatePayment(s, q)
    case (UpdateClaim(_), TxPayment(_, _, _)) => DoUpdateClaim(s, q)
    case (Commit(_, ok), TxBoth(_, _, _)) => DoCommit(s, q, ok)
    case (WriteCount(_, d), Syncing(_, _, _)) => DoWriteCount(s, q, d)
    case (Stop(_), _) => (s, None)
    case _ => (s, Some(q))
  }

  function Effects(s: State, a: Action): (r: Effect)
    requires !a.Wipe?
    ensures r.0.procs == s.procs && r.0.events == s.events
  {
    if a.p in s.procs then Continue(s, a, s.procs[a.p]) else Open(s, a)
  }

  function Apply(s: State, a: Action): State {
    if a.Wipe? then s.(counters := map[])
    else
      var r := Effects(s, a);
      r.0.(procs := if r.1.None? then s.procs - {a.p} else s.procs[a.p := r.1.value])
  }

  function Run(s: State, run: seq<Action>): State
    decreases run
  {
    if run == [] then s else Run(Apply(s, run[0]), run[1..])
  }

  lemma {:induction false} RunAppend(s: State, r1: seq<Action>, r2: seq<Action>)
    ensures Run(s, r1 + r2) == Run(Run(s, r1), r2)
    decreases r1
  {
    if r1 == [] {
      assert r1 + r2 == r2;
    } else {
      RunAppend(Apply(s, r1[0]), r1[1..], r2);
      assert (r1 + r2)[1..] == r1[1..] + r2;
    }
  }

  lemma {:induction false} RunSnoc(s: State, r: seq<Action>, a: Action)
    ensures Run(s, r + [a]) == Apply(Run(s, r), a)
  {
    RunAppend(s, r, [a]);
    assert Run(Run(s, r), [a]) == Apply(Run(s, r), a);
  }

  /** Nothing is in flight, sold or paid; counters may hold anything. */
  predicate Initial(s: State) {
    s.claims == map[] && s.payments == map[] && s.procs == map[] && s.log == []
  }

  lemma CountRead(s: State, p: ProcId, e: EventId, onlyIfMissing: bool)
    requires p !in s.procs && e in s.events
    ensures Apply(s, ReadCount(p, e, onlyIfMissing))
         == s.(procs := s.procs[p := Syncing(e, s.events[e].total - CountActive(s.claims, e), onlyIfMissing)])
  {
  }

  lemma CountWritten(s: State, p: ProcId, e: EventId, count: int, onlyIfMissing: bool, d: Delivery)
    requires p in s.procs && s.procs[p] == Syncing(e, count, onlyIfMissing)
    ensures Apply(s, WriteCount(p, d))
         == s.(procs := s.procs - {p},
               counters := if d.Unsent? || (onlyIfMissing && e in s.counters) then s.counters else s.counters[e := count])
  {
  }

  /** The two statements of a pass of reconciliation or recovery over one event, undisturbed. */
  lemma CountPass(s: State, p: ProcId, e: EventId, onlyIfMissing: bool, d: Delivery)
    requires p !in s.procs && e in s.events
    ensures Run(s, [ReadCount(p, e, onlyIfMissing), WriteCount(p, d)])
         == s.(counters := if d.Unsent? || (onlyIfMissing && e in s.counters) then s.counters
                           else s.counters[e := s.events[e].total - CountActive(s.claims, e)])
  {
    hide Apply, CountActive;
    var r := [ReadCount(p, e, onlyIfMissing), WriteCount(p, d)];
    var s1, s2 := Apply(s, r[0]), Apply(Apply(s, r[0]), r[1]);
    CountRead(s, p, e, onlyIfMissing);
    CountWritten(s1, p, e, s.events[e].total - CountActive(s.claims, e), onlyIfMissing, d);
    assert s1.procs - {p} == s.procs;
    assert r[1..] == [r[1]] && [r[1]][1..] == [];
    assert Run(s1, [r[1]]) == s2;
  }
}
