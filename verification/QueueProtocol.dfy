/** One event's queue in both stores: the two sorted sets in Redis, and the rows in Postgres under
    the partial unique index. */
module QueueProtocol {
  import opened Domain
  import opened SortedSet
  import opened Score
  import Fairness

  type EntryId = nat

  datatype EntryStatus = Waiting | Admitted | Completed | Expired | Abandoned

  /** Times in rows are microseconds, as Postgres keeps them. */
  datatype Entry = Entry(customer: CustomerId, status: EntryStatus, joinedAt: nat, admittedAt: Option<nat>)

  type Rows = map<EntryId, Entry>

  datatype State = State(queue: Fairness.Queue, rows: Rows)

  predicate InQueue(x: Entry) { x.status == Waiting || x.status == Admitted }

  predicate HasActive(rows: Rows, c: CustomerId) {
    exists id :: id in rows && rows[id].customer == c && InQueue(rows[id])
  }

  /** The row that GetByCustomerAndEvent finds. */
  predicate IsActiveRow(rows: Rows, id: EntryId, c: CustomerId) {
    id in rows && rows[id].customer == c && InQueue(rows[id])
  }

  ghost predicate UniqueIndex(rows: Rows) {
    forall i, j | i in rows && j in rows && InQueue(rows[i]) && InQueue(rows[j]) && rows[i].customer == rows[j].customer :: i == j
  }

  function Customers(rows: Rows, st: EntryStatus): set<CustomerId> {
    set id | id in rows && rows[id].status == st :: rows[id].customer
  }

  function SetStatus(rows: Rows, id: EntryId, st: EntryStatus): Rows
    requires id in rows
  {
    rows[id := rows[id].(status := st)]
  }

  // ---- the batch updates

  function MarkAdmitted(rows: Rows, batch: set<CustomerId>, now: nat): Rows {
    map id | id in rows ::
      if rows[id].customer in batch && rows[id].status == Waiting
      then rows[id].(status := Admitted, admittedAt := Some(now / 1000)) else rows[id]
  }

  function MarkExpired(rows: Rows, batch: set<CustomerId>): Rows {
    map id | id in rows ::
      if rows[id].customer in batch && rows[id].status == Admitted then rows[id].(status := Expired) else rows[id]
  }

  const QUEUE_ENTRY_TTL: nat := 7_200_000_000   // two hours, in microseconds
  const ADMISSION_WINDOW: nat := 300_000_000    // five minutes, in microseconds

  /** GetStaleEntries at a moment in microseconds. */
  predicate Stale(x: Entry, now: nat) {
    || (x.status == Waiting && x.joinedAt + QUEUE_ENTRY_TTL < now)
    || (x.status == Admitted && x.admittedAt.Some? && x.admittedAt.value + ADMISSION_WINDOW < now)
  }

  function ExpireStale(rows: Rows, now: nat): Rows {
    map id | id in rows :: if Stale(rows[id], now) then rows[id].(status := Expired) else rows[id]
  }

  /** Scores that recovery gives to the WAITING customers Redis does not know. */
  ghost function RecoveredScores(q: Fairness.Queue, rows: Rows): ZSet
    requires UniqueIndex(rows)
  {
    map c | c in Customers(rows, Waiting) && c !in q.waiting && c !in q.admitted :: ScoreOf(1000 * JoinTime(rows, c))
  }

  ghost function JoinTime(rows: Rows, c: CustomerId): nat
    requires UniqueIndex(rows) && c in Customers(rows, Waiting)
  {
    var id :| id in rows && rows[id].status == Waiting && rows[id].customer == c;
    rows[id].joinedAt
  }

  // ---- operations, each done in one go

  datatype Op =
    | Join(id: EntryId, c: CustomerId, ns: nat, redis: Delivery)
    | Abandon(c: CustomerId, redis: Delivery)
    | Admit(available: int, batchSize: int, now: nat, redis: Delivery, sqlOk: bool)
    | Complete(c: CustomerId, redis: Delivery)
    | Evict(cutoff: int, redis: Delivery, sqlOk: bool)
    | ExpireRows(now: nat)
    | Recover(lost: set<EntryId>)   // the rows whose re-join does not reach Redis
    | Wipe

  /** Postgres first; a lost Redis write is only logged. */
  function DoJoin(s: State, id: EntryId, c: CustomerId, ns: nat, d: Delivery): State {
    if id in s.rows || HasActive(s.rows, c) then s
    else State(if d.Unsent? then s.queue else Fairness.JoinScript(s.queue, c, ScoreOf(ns)).0,
               s.rows[id := Entry(c, Waiting, ns / 1000, None)])
  }

  ghost function DoAbandon(s: State, c: CustomerId, d: Delivery): State {
    if id :| id in s.rows && IsActiveRow(s.rows, id, c) && s.rows[id].status == Waiting then
      State(if d.Unsent? then s.queue else s.queue.(waiting := s.queue.waiting - {c}), SetStatus(s.rows, id, Abandoned))
    else s
  }

  ghost function DoComplete(s: State, c: CustomerId, d: Delivery): State {
    if id :| id in s.rows && IsActiveRow(s.rows, id, c) && s.rows[id].status == Admitted then
      State(if d.Unsent? then s.queue else s.queue.(admitted := s.queue.admitted - {c}), SetStatus(s.rows, id, Completed))
    else s
  }

  /** Redis first; without an answer the rows are not touched. */
  ghost function DoAdmit(s: State, n: int, now: nat, d: Delivery, sqlOk: bool): (State, seq<CustomerId>) {
    if d.Unsent? then (s, [])
    else
      var r := Fairness.AdmitScript(s.queue, n, now);
      if d.AnswerLost? || !sqlOk then (s.(queue := r.0), if d.AnswerLost? then [] else r.1)
      else (State(r.0, MarkAdmitted(s.rows, Members(r.1), now)), r.1)
  }

  function DoEvict(s: State, cutoff: int, d: Delivery, sqlOk: bool): State {
    if d.Unsent? then s
    else
      var gone := Fairness.Overdue(s.queue, cutoff);
      State(s.queue.(admitted := s.queue.admitted - gone),
            if d.AnswerLost? || !sqlOk then s.rows else MarkExpired(s.rows, gone))
  }

  ghost function Apply(s: State, a: Op): State
    requires UniqueIndex(s.rows)
  {
    match a
    case Join(id, c, ns, d) => DoJoin(s, id, c, ns, d)
    case Abandon(c, d) => DoAbandon(s, c, d)
    case Admit(available, size, now, d, ok) => DoAdmit(s, Fairness.AdmitCount(available, size), now, d, ok).0
    case Complete(c, d) => DoComplete(s, c, d)
    case Evict(cutoff, d, ok) => DoEvict(s, cutoff, d, ok)
    case ExpireRows(now) => s.(rows := ExpireStale(s.rows, now))
    case Recover(lost) => s.(queue := s.queue.(waiting := s.queue.waiting + RecoveredScores(s.queue, s.rows - lost)))
    case Wipe => s.(queue := Fairness.Queue(map[], map[]))
  }

  lemma IndexKept(s: State, a: Op)
    requires UniqueIndex(s.rows)
    ensures UniqueIndex(Apply(s, a).rows)
  {
  }

  ghost function Run(s: State, run: seq<Op>): State
    requires UniqueIndex(s.rows)
    decreases run
  {
    if run == [] then s else IndexKept(s, run[0]); Run(Apply(s, run[0]), run[1..])
  }

  // ---- the two stores agree

  ghost predicate Agree(s: State) {
    && UniqueIndex(s.rows)
    && s.queue.waiting.Keys == Customers(s.rows, Waiting)
    && s.queue.admitted.Keys == Customers(s.rows, Admitted)
  }

  /** An operation of the services with nothing lost. */
  predicate Lossless(a: Op) {
    match a
    case Join(_, _, _, d) => !d.Unsent?
    case Abandon(_, d) => !d.Unsent?
    case Admit(_, _, _, d, ok) => d.Unsent? || (d.Answered? && ok)
    case Complete(_, d) => !d.Unsent?
    case Evict(_, d, ok) => d.Unsent? || (d.Answered? && ok)
    case ExpireRows(_) => false
    case Recover(_) => true
    case Wipe => false
  }

  lemma AgreeMember(s: State, c: CustomerId)
    requires Agree(s)
    ensures c in s.queue.waiting <==> exists id :: id in s.rows && s.rows[id].status == Waiting && s.rows[id].customer == c
    ensures c in s.queue.admitted <==> exists id :: id in s.rows && s.rows[id].status == Admitted && s.rows[id].customer == c
  {
  }

  lemma BatchWaits(s: State, n: int)
    ensures Members(Batch(s.queue.waiting, n)) <= s.queue.waiting.Keys
  {
    forall c | c in Members(Batch(s.queue.waiting, n))
      ensures c in s.queue.waiting
    {
      BatchIsRankBelow(s.queue.waiting, n, c);
    }
  }

  lemma MarkAdmittedMoves(rows: Rows, batch: set<CustomerId>, now: nat)
    ensures Customers(MarkAdmitted(rows, batch, now), Waiting) == Customers(rows, Waiting) - batch
    ensures Customers(MarkAdmitted(rows, batch, now), Admitted) == Customers(rows, Admitted) + (Customers(rows, Waiting) * batch)
  {
    var t := MarkAdmitted(rows, batch, now);
    forall c | c in Customers(rows, Waiting)
      ensures if c in batch then c in Customers(t, Admitted) else c in Customers(t, Waiting)
    {
      var id :| id in rows && rows[id].status == Waiting && rows[id].customer == c;
      assert t[id].customer == c;
    }
    forall c | c in Customers(rows, Admitted)
      ensures c in Customers(t, Admitted)
    {
      var id :| id in rows && rows[id].status == Admitted && rows[id].customer == c;
      assert t[id] == rows[id];
    }
  }

  lemma AgreeAdmit(s: State, n: int, now: nat)
    requires Agree(s)
    ensures Agree(DoAdmit(s, n, now, Answered, true).0)
  {
    BatchWaits(s, n);
    MarkAdmittedMoves(s.rows, Members(Batch(s.queue.waiting, n)), now);
  }

  lemma AgreeEvict(s: State, cutoff: int)
    requires Agree(s)
    ensures Agree(DoEvict(s, cutoff, Answered, true))
  {
    var gone := Fairness.Overdue(s.queue, cutoff);
    var t := DoEvict(s, cutoff, Answered, true);
    forall c
      ensures c in t.queue.waiting <==> c in Customers(t.rows, Waiting)
      ensures c in t.queue.admitted <==> c in Customers(t.rows, Admitted)
    {
      AgreeMember(s, c);
      if c in Customers(s.rows, Waiting) {
        var id :| id in s.rows && s.rows[id].status == Waiting && s.rows[id].customer == c;
        assert t.rows[id] == s.rows[id];
      }
      if c in Customers(s.rows, Admitted) && c !in gone {
        var id :| id in s.rows && s.rows[id].status == Admitted && s.rows[id].customer == c;
        assert t.rows[id] == s.rows[id];
      }
    }
  }

  lemma AgreeJoin(s: State, id: EntryId, c: CustomerId, ns: nat, d: Delivery)
    requires Agree(s) && !d.Unsent?
    ensures Agree(DoJoin(s, id, c, ns, d))
  {
    AgreeMember(s, c);
    var t := DoJoin(s, id, c, ns, d);
    if t != s {
      assert t.queue.waiting == s.queue.waiting[c := ScoreOf(ns)];
      assert Customers(t.rows, Waiting) == Customers(s.rows, Waiting) + {c} by {
        assert t.rows[id].customer == c;
        forall x | x in Customers(s.rows, Waiting)
          ensures x in Customers(t.rows, Waiting)
        {
          var k :| k in s.rows && s.rows[k].status == Waiting && s.rows[k].customer == x;
          assert t.rows[k] == s.rows[k];
        }
      }
      assert Customers(t.rows, Admitted) == Customers(s.rows, Admitted) by {
        forall x | x in Customers(s.rows, Admitted)
          ensures x in Customers(t.rows, Admitted)
        {
          var k :| k in s.rows && s.rows[k].status == Admitted && s.rows[k].customer == x;
          assert t.rows[k] == s.rows[k];
        }
      }
    }
  }

  /** One active row of a customer leaves the active statuses. */
  lemma LeaveRow(rows: Rows, id: EntryId, to: EntryStatus)
    requires UniqueIndex(rows) && id in rows && InQueue(rows[id]) && (to == Abandoned || to == Completed)
    ensures var t := SetStatus(rows, id, to);
      && UniqueIndex(t)
      && Customers(t, rows[id].status) == Customers(rows, rows[id].status) - {rows[id].customer}
      && (forall st | (st == Waiting || st == Admitted) && st != rows[id].status :: Customers(t, st) == Customers(rows, st))
  {
    var t := SetStatus(rows, id, to);
    forall st, x | (st == Waiting || st == Admitted) && x in Customers(rows, st) && (st != rows[id].status || x != rows[id].customer)
      ensures x in Customers(t, st)
    {
      var k :| k in rows && rows[k].status == st && rows[k].customer == x;
      assert t[k] == rows[k];
    }
  }

  /** The rows after a join, and after a row leaves the queue. */
  lemma JoinedRows(rows: Rows, id: EntryId, c: CustomerId, x: Entry)
    requires UniqueIndex(rows) && id !in rows && !HasActive(rows, c) && x.customer == c && x.status == Waiting
    ensures UniqueIndex(rows[id := x])
    ensures Customers(rows[id := x], Waiting) == Customers(rows, Waiting) + {c}
    ensures Customers(rows[id := x], Admitted) == Customers(rows, Admitted)
    ensures c !in Customers(rows, Waiting) && c !in Customers(rows, Admitted)
  {
    var t := rows[id := x];
    assert t[id].customer == c;
    forall st, y | (st == Waiting || st == Admitted) && y in Customers(rows, st)
      ensures y in Customers(t, st)
    {
      var k :| k in rows && rows[k].status == st && rows[k].customer == y;
      assert t[k] == rows[k];
    }
  }

  lemma LeftRows(rows: Rows, id: EntryId, to: EntryStatus)
    requires UniqueIndex(rows) && id in rows && InQueue(rows[id]) && (to == Abandoned || to == Completed)
    ensures var t, c := SetStatus(rows, id, to), rows[id].customer;
      && UniqueIndex(t) && c !in Customers(t, Waiting) && c !in Customers(t, Admitted)
      && c in Customers(rows, rows[id].status)
      && (rows[id].status == Waiting ==> c !in Customers(rows, Admitted))
      && (forall st, x | (st == Waiting || st == Admitted) && x != c :: x in Customers(t, st) <==> x in Customers(rows, st))
  {
    LeaveRow(rows, id, to);
    var t, c := SetStatus(rows, id, to), rows[id].customer;
    assert forall k | k in t && InQueue(t[k]) :: k != id && t[k] == rows[k] && t[k].customer != c;
  }

  /** The customer is in the sets that its rows say. */
  predicate AgreesOn(s: State, c: CustomerId) {
    (c in s.queue.waiting <==> c in Customers(s.rows, Waiting)) && (c in s.queue.admitted <==> c in Customers(s.rows, Admitted))
  }

  lemma AgreePointwise(s: State)
    requires UniqueIndex(s.rows)
    ensures Agree(s) <==> forall c :: AgreesOn(s, c)
  {
    if forall c :: AgreesOn(s, c) {
      assert forall c :: AgreesOn(s, c) ==> (c in s.queue.waiting.Keys <==> c in Customers(s.rows, Waiting));
      assert forall c :: AgreesOn(s, c) ==> (c in s.queue.admitted.Keys <==> c in Customers(s.rows, Admitted));
    }
  }

  lemma AgreeStep(s: State, a: Op)
    requires Agree(s) && Lossless(a)
    ensures Agree(Apply(s, a))
  {
    match a
    case Join(id, c, ns, d) => AgreeJoin(s, id, c, ns, d);
    case Abandon(c, d) =>
      if id :| id in s.rows && IsActiveRow(s.rows, id, c) && s.rows[id].status == Waiting {
        LeaveRow(s.rows, id, Abandoned);
      }
    case Complete(c, d) =>
      if id :| id in s.rows && IsActiveRow(s.rows, id, c) && s.rows[id].status == Admitted {
        LeaveRow(s.rows, id, Completed);
      }
    case Admit(available, size, now, d, ok) =>
      if d.Answered? { AgreeAdmit(s, Fairness.AdmitCount(available, size), now); }
    case Evict(cutoff, d, ok) =>
      if d.Answered? { AgreeEvict(s, cutoff); }
    case Recover(lost) =>
      assert Customers(s.rows - lost, Waiting) <= Customers(s.rows, Waiting);
      assert RecoveredScores(s.queue, s.rows - lost) == map[];
    case _ =>
  }

  /** Over every run of operations with nothing lost, the waiting set holds exactly the customers with
      a WAITING row, and the admitted set exactly those with an ADMITTED one. */
  lemma {:induction false} AgreementRun(s: State, run: seq<Op>)
    requires Agree(s) && forall a | a in run :: Lossless(a)
    ensures Agree(Run(s, run))
    decreases run
  {
    if run != [] {
      AgreeStep(s, run[0]);
      AgreementRun(Apply(s, run[0]), run[1..]);
    }
  }

  /** The expiry worker writes Postgres only: agreement survives it exactly if it had nothing to do. */
  lemma ExpireKeepsAgreementIff(s: State, now: nat)
    requires Agree(s)
    ensures Agree(Apply(s, ExpireRows(now))) <==> forall id | id in s.rows :: !Stale(s.rows[id], now)
  {
    var t := Apply(s, ExpireRows(now));
    if id :| id in s.rows && Stale(s.rows[id], now) {
      var c, st := s.rows[id].customer, s.rows[id].status;
      assert c in Customers(s.rows, st);
      assert forall k | k in t.rows && InQueue(t.rows[k]) :: t.rows[k] == s.rows[k];
    } else {
      assert t.rows == s.rows;
    }
  }

  /** Nobody is in both sets, whatever is lost, wiped, expired or recovered. */
  lemma DisjointStep(s: State, a: Op)
    requires UniqueIndex(s.rows) && Fairness.Disjoint(s.queue)
    ensures Fairness.Disjoint(Apply(s, a).queue)
  {
  }

  lemma {:induction false} DisjointRun(s: State, run: seq<Op>)
    requires UniqueIndex(s.rows) && Fairness.Disjoint(s.queue)
    ensures Fairness.Disjoint(Run(s, run).queue)
    decreases run
  {
    if run != [] {
      DisjointStep(s, run[0]);
      IndexKept(s, run[0]);
      DisjointRun(Apply(s, run[0]), run[1..]);
    }
  }

  // ---- recovery

  function LostJoins(rows: Rows, io: EntryId -> Delivery): set<EntryId> {
    set id | id in rows && io(id).Unsent?
  }

  /** Recovery changes no member and no score that Redis has; it adds the missing WAITING customers
      whose re-join reaches Redis, with the score of their join time. */
  lemma RecoveryRebuilds(s: State, lost: set<EntryId>)
    requires UniqueIndex(s.rows)
    ensures var t := Apply(s, Recover(lost));
      && t.rows == s.rows && t.queue.admitted == s.queue.admitted
      && (forall c | c in s.queue.waiting :: c in t.queue.waiting && t.queue.waiting[c] == s.queue.waiting[c])
      && t.queue.waiting.Keys == s.queue.waiting.Keys + (Customers(s.rows - lost, Waiting) - s.queue.admitted.Keys)
      && (forall id | id in s.rows && id !in lost && s.rows[id].status == Waiting
            && s.rows[id].customer !in s.queue.waiting && s.rows[id].customer !in s.queue.admitted ::
            s.rows[id].customer in t.queue.waiting
            && t.queue.waiting[s.rows[id].customer] == ScoreOf(1000 * s.rows[id].joinedAt))
  {
    var kept := s.rows - lost;
    forall id | id in s.rows && id !in lost && s.rows[id].status == Waiting
      ensures s.rows[id].customer in Customers(kept, Waiting) && JoinTime(kept, s.rows[id].customer) == s.rows[id].joinedAt
    {
      assert kept[id] == s.rows[id];
    }
  }

  lemma SameRecovery(s: State, lost: set<EntryId>, c: CustomerId)
    requires UniqueIndex(s.rows)
    ensures var u, v := Apply(s, Recover({})), Apply(Apply(s, Recover(lost)), Recover({}));
      (c in v.queue.waiting <==> c in u.queue.waiting)
      && (c in v.queue.waiting && c in u.queue.waiting ==> v.queue.waiting[c] == u.queue.waiting[c])
  {
    var t := Apply(s, Recover(lost));
    RecoveryRebuilds(s, lost);
    RecoveryRebuilds(s, {});
    RecoveryRebuilds(t, {});
    hide Apply;
    assert s.rows - {} == s.rows;
    if c in Customers(s.rows, Waiting) {
      var id :| id in s.rows && s.rows[id].status == Waiting && s.rows[id].customer == c;
      assert id !in lost ==> id in s.rows - lost && (s.rows - lost)[id] == s.rows[id];
    }
  }

  /** A second recovery changes nothing, and a complete one makes up for an incomplete one. */
  lemma RecoveryResumes(s: State, lost: set<EntryId>)
    requires UniqueIndex(s.rows)
    ensures Apply(Apply(s, Recover(lost)), Recover(lost)) == Apply(s, Recover(lost))
    ensures Apply(Apply(s, Recover(lost)), Recover({})) == Apply(s, Recover({}))
  {
    var t, u := Apply(s, Recover(lost)), Apply(s, Recover({}));
    RecoveryRebuilds(s, lost);
    RecoveryRebuilds(s, {});
    RecoveryRebuilds(t, lost);
    RecoveryRebuilds(t, {});
    hide Apply;
    assert Apply(t, Recover(lost)).queue.waiting == t.queue.waiting;
    assert s.rows - {} == s.rows;
    var v := Apply(t, Recover({}));
    forall c
      ensures c in v.queue.waiting <==> c in u.queue.waiting
      ensures c in v.queue.waiting && c in u.queue.waiting ==> v.queue.waiting[c] == u.queue.waiting[c]
    {
      SameRecovery(s, lost, c);
    }
    assert v.queue.waiting == u.queue.waiting;
  }

  /** After a wipe, and however the stores differed before it, a complete recovery restores agreement
      exactly if nobody was admitted.  The waiting customers are back in any case, ordered by the
      microsecond of their join, and by their id within the same microsecond. */
  lemma RecoveryAfterWipe(s: State)
    requires UniqueIndex(s.rows)
    ensures var t := Run(s, [Wipe, Recover({})]);
      && t.rows == s.rows
      && t.queue.waiting.Keys == Customers(s.rows, Waiting)
      && (Agree(t) <==> Customers(s.rows, Admitted) == {})
      && (forall i, j | Recoverable(s.rows, i) && Recoverable(s.rows, j) ::
            Before(t.queue.waiting, s.rows[i].customer, s.rows[j].customer) <==> RecoveredBefore(s.rows[i], s.rows[j]))
  {
    var w := Apply(s, Wipe);
    var t := Apply(w, Recover({}));
    RecoveryRebuilds(w, {});
    assert s.rows - {} == s.rows;
    assert [Wipe, Recover({})][1..] == [Recover({})] && [Recover({})][1..] == [];
    assert Run(s, [Wipe, Recover({})]) == t;
    forall i, j | Recoverable(s.rows, i) && Recoverable(s.rows, j)
      ensures s.rows[i].customer in t.queue.waiting && s.rows[j].customer in t.queue.waiting
      ensures Before(t.queue.waiting, s.rows[i].customer, s.rows[j].customer) <==> RecoveredBefore(s.rows[i], s.rows[j])
    {
      RecoveredOrder(s.rows[i].joinedAt, s.rows[j].joinedAt);
    }
  }

  /** A WAITING row whose join time, cut to microseconds, is between 2006 and 2043. */
  predicate Recoverable(rows: Rows, id: EntryId) {
    id in rows && rows[id].status == Waiting && InRange(1000 * rows[id].joinedAt)
  }

  /** The order that recovery gives to two rows. */
  predicate RecoveredBefore(x: Entry, y: Entry) {
    x.joinedAt < y.joinedAt || (x.joinedAt == y.joinedAt && x.customer < y.customer)
  }

  lemma RecoveredOrder(a: nat, b: nat)
    requires InRange(1000 * a) && InRange(1000 * b)
    ensures ScoreOf(1000 * a) < ScoreOf(1000 * b) <==> a < b
    ensures ScoreOf(1000 * a) == ScoreOf(1000 * b) <==> a == b
  {
    if a < b { MicrosecondsStrict(a, b); }
    if b < a { MicrosecondsStrict(b, a); }
  }
}
