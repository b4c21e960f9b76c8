/** Admission and eviction in two statements: the script in Redis, and later the batch UPDATE in
    Postgres.  In between, whole operations of other calls run. */
module QueueBatches {
  import opened Domain
  import opened SortedSet
  import opened QueueProtocol
  import Fairness

  /** A popped customer whose batch UPDATE is still to come: out of the waiting set, without an ADMITTED
      row, and admitted in Redis or WAITING in Postgres. */
  predicate Popped(s: State, c: CustomerId) {
    c !in s.queue.waiting && c !in Customers(s.rows, Admitted) && (c in s.queue.admitted || c in Customers(s.rows, Waiting))
  }

  /** An evicted customer whose batch UPDATE is still to come. */
  predicate Vanished(s: State, c: CustomerId) {
    c !in s.queue.waiting && c !in s.queue.admitted && c in Customers(s.rows, Admitted)
  }

  /** Everybody is where the rows say, but for the customers of one torn batch. */
  ghost predicate Between(s: State, popped: set<CustomerId>, gone: set<CustomerId>) {
    UniqueIndex(s.rows) && forall c :: AgreesOn(s, c) || (c in popped && Popped(s, c)) || (c in gone && Vanished(s, c))
  }

  lemma MarkExpiredMoves(rows: Rows, batch: set<CustomerId>)
    ensures Customers(MarkExpired(rows, batch), Waiting) == Customers(rows, Waiting)
    ensures Customers(MarkExpired(rows, batch), Admitted) == Customers(rows, Admitted) - batch
  {
    var t := MarkExpired(rows, batch);
    forall st, c | (st == Waiting || st == Admitted) && c in Customers(rows, st) && (st == Waiting || c !in batch)
      ensures c in Customers(t, st)
    {
      var id :| id in rows && rows[id].status == st && rows[id].customer == c;
      assert t[id] == rows[id];
    }
    assert forall id | id in t && InQueue(t[id]) :: t[id] == rows[id] && (t[id].status == Admitted ==> t[id].customer !in batch);
  }

  /** Under the unique index nobody has a WAITING and an ADMITTED row. */
  lemma OneStatus(rows: Rows, c: CustomerId)
    requires UniqueIndex(rows)
    ensures !(c in Customers(rows, Waiting) && c in Customers(rows, Admitted))
    ensures HasActive(rows, c) <==> c in Customers(rows, Waiting) || c in Customers(rows, Admitted)
  {
    if id :| id in rows && rows[id].customer == c && InQueue(rows[id]) {
      assert c in Customers(rows, rows[id].status);
    }
  }

  lemma JoinBetween(s: State, id: EntryId, d: CustomerId, ns: nat, io: Delivery, popped: set<CustomerId>, gone: set<CustomerId>)
    requires Between(s, popped, gone) && !io.Unsent?
    ensures Between(DoJoin(s, id, d, ns, io), popped, gone)
  {
    if !(id in s.rows || HasActive(s.rows, d)) {
      JoinedRows(s.rows, id, d, Entry(d, Waiting, ns / 1000, None));
      hide Customers;
      var t := DoJoin(s, id, d, ns, io);
      forall c
        ensures AgreesOn(t, c) || (c in popped && Popped(t, c)) || (c in gone && Vanished(t, c))
      {
        assert AgreesOn(s, c) || (c in popped && Popped(s, c)) || (c in gone && Vanished(s, c));
      }
    }
  }

  lemma AbandonBetween(s: State, d: CustomerId, io: Delivery, popped: set<CustomerId>, gone: set<CustomerId>)
    requires Between(s, popped, gone) && !io.Unsent?
    ensures Between(DoAbandon(s, d, io), popped, gone)
  {
    if id :| id in s.rows && IsActiveRow(s.rows, id, d) && s.rows[id].status == Waiting {
      LeftRows(s.rows, id, Abandoned);
      hide Customers;
      var t := DoAbandon(s, d, io);
      forall c
        ensures AgreesOn(t, c) || (c in popped && Popped(t, c)) || (c in gone && Vanished(t, c))
      {
        assert AgreesOn(s, c) || (c in popped && Popped(s, c)) || (c in gone && Vanished(s, c));
      }
    }
  }

  lemma CompleteBetween(s: State, d: CustomerId, io: Delivery, popped: set<CustomerId>, gone: set<CustomerId>)
    requires Between(s, popped, gone) && !io.Unsent?
    ensures Between(DoComplete(s, d, io), popped, gone)
  {
    if id :| id in s.rows && IsActiveRow(s.rows, id, d) && s.rows[id].status == Admitted {
      LeftRows(s.rows, id, Completed);
      OneStatus(s.rows, d);
      hide Customers;
      var t := DoComplete(s, d, io);
      forall c
        ensures AgreesOn(t, c) || (c in popped && Popped(t, c)) || (c in gone && Vanished(t, c))
      {
        assert AgreesOn(s, c) || (c in popped && Popped(s, c)) || (c in gone && Vanished(s, c));
      }
    }
  }

  lemma AdmitBetween(s: State, n: int, now: nat, popped: set<CustomerId>, gone: set<CustomerId>)
    requires Between(s, popped, gone)
    ensures Between(DoAdmit(s, n, now, Answered, true).0, popped, gone)
  {
    var batch := Members(Batch(s.queue.waiting, n));
    BatchWaits(s, n);
    MarkAdmittedMoves(s.rows, batch, now);
    var t := DoAdmit(s, n, now, Answered, true).0;
    assert UniqueIndex(t.rows);
    hide Customers, Batch, Members;
    forall c
      ensures AgreesOn(t, c) || (c in popped && Popped(t, c)) || (c in gone && Vanished(t, c))
    {
      assert AgreesOn(s, c) || (c in popped && Popped(s, c)) || (c in gone && Vanished(s, c));
    }
  }

  lemma EvictBetween(s: State, cutoff: int, popped: set<CustomerId>, gone: set<CustomerId>)
    requires Between(s, popped, gone)
    ensures Between(DoEvict(s, cutoff, Answered, true), popped, gone)
  {
    MarkExpiredMoves(s.rows, Fairness.Overdue(s.queue, cutoff));
    var t := DoEvict(s, cutoff, Answered, true);
    assert UniqueIndex(t.rows);
    hide Customers;
    forall c
      ensures AgreesOn(t, c) || (c in popped && Popped(t, c)) || (c in gone && Vanished(t, c))
    {
      assert AgreesOn(s, c) || (c in popped && Popped(s, c)) || (c in gone && Vanished(s, c));
    }
  }

  lemma RecoverBetween(s: State, lost: set<EntryId>, popped: set<CustomerId>, gone: set<CustomerId>)
    requires Between(s, popped, gone)
    ensures Between(Apply(s, Recover(lost)), popped, gone)
  {
    RecoveryRebuilds(s, lost);
    var t := Apply(s, Recover(lost));
    assert Customers(s.rows - lost, Waiting) <= Customers(s.rows, Waiting);
    forall c
      ensures AgreesOn(t, c) || (c in popped && Popped(t, c)) || (c in gone && Vanished(t, c))
    {
      OneStatus(s.rows, c);
      hide Customers, Apply;
      assert AgreesOn(s, c) || (c in popped && Popped(s, c)) || (c in gone && Vanished(s, c));
      assert c in t.queue.waiting.Keys <==> c in s.queue.waiting || (c in Customers(s.rows - lost, Waiting) && c !in s.queue.admitted);
    }
  }

  lemma StepBetween(s: State, a: Op, popped: set<CustomerId>, gone: set<CustomerId>)
    requires Between(s, popped, gone) && Lossless(a)
    ensures Between(Apply(s, a), popped, gone)
  {
    hide Between;
    BetweenIndex(s, popped, gone);
    match a
    case Join(id, d, ns, io) => JoinBetween(s, id, d, ns, io, popped, gone);
    case Abandon(d, io) => AbandonBetween(s, d, io, popped, gone);
    case Complete(d, io) => CompleteBetween(s, d, io, popped, gone);
    case Admit(available, size, now, io, ok) =>
      if io.Answered? { AdmitBetween(s, Fairness.AdmitCount(available, size), now, popped, gone); }
    case Evict(cutoff, io, ok) =>
      if io.Answered? { EvictBetween(s, cutoff, popped, gone); }
    case Recover(lost) => RecoverBetween(s, lost, popped, gone);
    case _ =>
  }

  lemma BetweenIndex(s: State, popped: set<CustomerId>, gone: set<CustomerId>)
    requires Between(s, popped, gone)
    ensures UniqueIndex(s.rows)
  {
  }

  lemma {:induction false} RunBetween(s: State, run: seq<Op>, popped: set<CustomerId>, gone: set<CustomerId>)
    requires UniqueIndex(s.rows) && Between(s, popped, gone) && forall a | a in run :: Lossless(a)
    ensures Between(Run(s, run), popped, gone)
    decreases run
  {
    if run != [] {
      hide Between, Apply;
      StepBetween(s, run[0], popped, gone);
      IndexKept(s, run[0]);
      RunBetween(Apply(s, run[0]), run[1..], popped, gone);
    }
  }

  // ---- admission

  /** After the script, before the batch UPDATE. */
  ghost function AfterPop(s: State, n: int, now: nat): State {
    s.(queue := Fairness.AdmitScript(s.queue, n, now).0)
  }

  ghost function Batched(s: State, n: int): set<CustomerId> {
    Members(Batch(s.queue.waiting, n))
  }

  /** Redis has admitted exactly those of the batch that have an active row. */
  predicate StillThere(s: State, batch: set<CustomerId>) {
    forall c | c in batch :: c in s.queue.admitted <==> HasActive(s.rows, c)
  }

  lemma PopBetween(s: State, n: int, now: nat)
    requires Agree(s)
    ensures Between(AfterPop(s, n, now), Batched(s, n), {})
  {
    var t := AfterPop(s, n, now);
    BatchWaits(s, n);
    AgreePointwise(s);
    forall c
      ensures AgreesOn(t, c) || (c in Batched(s, n) && Popped(t, c))
    {
      OneStatus(s.rows, c);
      assert AgreesOn(s, c);
    }
  }

  lemma MarkAgreesIff(s: State, batch: set<CustomerId>, now: nat, c: CustomerId)
    requires Between(s, batch, {})
    ensures AgreesOn(s.(rows := MarkAdmitted(s.rows, batch, now)), c)
       <==> (c in batch ==> (c in s.queue.admitted <==> HasActive(s.rows, c)))
  {
    MarkAdmittedMoves(s.rows, batch, now);
    OneStatus(s.rows, c);
    hide Customers;
    assert AgreesOn(s, c) || (c in batch && Popped(s, c));
  }

  /** However many whole operations run between the script and the batch UPDATE of an admission: the
      stores agree after it if and only if, just before it, Redis has admitted exactly those of the batch
      that still have an active row. */
  lemma TornAdmissionIff(s: State, n: int, now: nat, mid: seq<Op>)
    requires Agree(s) && forall a | a in mid :: Lossless(a)
    ensures var m := Run(AfterPop(s, n, now), mid);
      Agree(m.(rows := MarkAdmitted(m.rows, Batched(s, n), now))) <==> StillThere(m, Batched(s, n))
  {
    var batch := Batched(s, n);
    PopBetween(s, n, now);
    RunBetween(AfterPop(s, n, now), mid, batch, {});
    var m := Run(AfterPop(s, n, now), mid);
    BetweenIndex(m, batch, {});
    var t := m.(rows := MarkAdmitted(m.rows, batch, now));
    assert UniqueIndex(t.rows);
    AgreePointwise(t);
    hide Run, Between, AgreesOn, Agree, MarkAdmitted, HasActive, Batched;
    forall c
      ensures AgreesOn(t, c) <==> (c in batch ==> (c in m.queue.admitted <==> HasActive(m.rows, c)))
    {
      MarkAgreesIff(m, batch, now, c);
    }
  }

  /** A customer of the batch that abandons in between stays admitted in Redis without a row. */
  lemma AbandonInBetween(s: State, n: int, now: nat, c: CustomerId)
    requires Agree(s) && c in Batched(s, n)
    ensures var m := Run(AfterPop(s, n, now), [Abandon(c, Answered)]);
      var t := m.(rows := MarkAdmitted(m.rows, Batched(s, n), now));
      !Agree(t) && c in t.queue.admitted && !HasActive(t.rows, c)
  {
    var p := AfterPop(s, n, now);
    var m := Apply(p, Abandon(c, Answered));
    PopThenAbandon(s, n, now, c);
    assert [Abandon(c, Answered)][1..] == [];
    assert Run(p, [Abandon(c, Answered)]) == m;
    TornAdmissionIff(s, n, now, [Abandon(c, Answered)]);
    hide Run, Apply, Agree, AfterPop, Batched, HasActive;
    StaysWithoutRow(m.rows, Batched(s, n), now, c);
  }

  lemma PopThenAbandon(s: State, n: int, now: nat, c: CustomerId)
    requires Agree(s) && c in Batched(s, n)
    ensures UniqueIndex(AfterPop(s, n, now).rows)
    ensures var m := Apply(AfterPop(s, n, now), Abandon(c, Answered));
      UniqueIndex(m.rows) && c in m.queue.admitted && !HasActive(m.rows, c)
  {
    var p := AfterPop(s, n, now);
    BatchWaits(s, n);
    assert c in Customers(s.rows, Waiting);
    var id :| id in p.rows && IsActiveRow(p.rows, id, c) && p.rows[id].status == Waiting;
    LeftRows(p.rows, id, Abandoned);
    OneStatus(SetStatus(p.rows, id, Abandoned), c);
  }

  lemma StaysWithoutRow(rows: Rows, batch: set<CustomerId>, now: nat, c: CustomerId)
    requires !HasActive(rows, c)
    ensures !HasActive(MarkAdmitted(rows, batch, now), c)
  {
    var t := MarkAdmitted(rows, batch, now);
    assert forall id | id in t && InQueue(t[id]) :: InQueue(rows[id]) && rows[id].customer == t[id].customer;
  }

  // ---- eviction

  ghost function AfterEvict(s: State, cutoff: int): State {
    s.(queue := Fairness.Apply(s.queue, Fairness.Evict(cutoff)))
  }

  lemma EvictPopBetween(s: State, cutoff: int)
    requires Agree(s)
    ensures Between(AfterEvict(s, cutoff), {}, Fairness.Overdue(s.queue, cutoff))
  {
    var t := AfterEvict(s, cutoff);
    AgreePointwise(s);
    forall c
      ensures AgreesOn(t, c) || (c in Fairness.Overdue(s.queue, cutoff) && Vanished(t, c))
    {
      OneStatus(s.rows, c);
      assert AgreesOn(s, c);
    }
  }

  lemma ExpireAgreesIff(s: State, gone: set<CustomerId>, c: CustomerId)
    requires Between(s, {}, gone)
    ensures AgreesOn(s.(rows := MarkExpired(s.rows, gone)), c) <==> !(c in gone && c in s.queue.admitted)
  {
    MarkExpiredMoves(s.rows, gone);
    OneStatus(s.rows, c);
    hide Customers;
    assert AgreesOn(s, c) || (c in gone && Vanished(s, c));
  }

  /** The same for an eviction: the stores agree after its batch UPDATE if and only if nobody it removed
      has been admitted again in between. */
  lemma TornEvictionIff(s: State, cutoff: int, mid: seq<Op>)
    requires Agree(s) && forall a | a in mid :: Lossless(a)
    ensures var m := Run(AfterEvict(s, cutoff), mid); var gone := Fairness.Overdue(s.queue, cutoff);
      Agree(m.(rows := MarkExpired(m.rows, gone))) <==> forall c | c in gone :: c !in m.queue.admitted
  {
    var gone := Fairness.Overdue(s.queue, cutoff);
    EvictPopBetween(s, cutoff);
    RunBetween(AfterEvict(s, cutoff), mid, {}, gone);
    var m := Run(AfterEvict(s, cutoff), mid);
    BetweenIndex(m, {}, gone);
    var t := m.(rows := MarkExpired(m.rows, gone));
    assert UniqueIndex(t.rows);
    AgreePointwise(t);
    hide Run, Between, AgreesOn, Agree, MarkExpired;
    forall c
      ensures AgreesOn(t, c) <==> !(c in gone && c in m.queue.admitted)
    {
      ExpireAgreesIff(m, gone, c);
    }
  }
}
