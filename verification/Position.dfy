/** The two answers to "where am I in the queue?": the rank in Redis and the window function in
    Postgres. */
module Position {
  import opened Domain
  import opened SortedSet
  import opened Score
  import opened QueueProtocol
  import Fairness

  /** ORDER BY joined_at, id. */
  predicate RowBefore(rows: Rows, i: EntryId, j: EntryId)
    requires i in rows && j in rows
  {
    rows[i].joinedAt < rows[j].joinedAt || (rows[i].joinedAt == rows[j].joinedAt && i < j)
  }

  function RowsBefore(rows: Rows, id: EntryId, st: EntryStatus): set<EntryId>
    requires id in rows
  {
    set k | k in rows && rows[k].status == st && RowBefore(rows, k, id)
  }

  /** GetCustomerPosition: ROW_NUMBER over the WAITING and ADMITTED rows. */
  function RowPosition(rows: Rows, id: EntryId): nat
    requires id in rows
  {
    1 + |set k | k in rows && InQueue(rows[k]) && RowBefore(rows, k, id)|
  }

  /** Both stores order the waiting customers alike. */
  ghost predicate OrderAgrees(s: State) {
    forall i, j | i in s.rows && j in s.rows && s.rows[i].status == Waiting && s.rows[j].status == Waiting
      && s.rows[i].customer in s.queue.waiting && s.rows[j].customer in s.queue.waiting ::
      RowBefore(s.rows, i, j) <==> Before(s.queue.waiting, s.rows[i].customer, s.rows[j].customer)
  }

  lemma {:induction false} CustomersAsManyAsRows(rows: Rows, ids: set<EntryId>)
    requires forall i | i in ids :: i in rows
    requires forall i, j | i in ids && j in ids && rows[i].customer == rows[j].customer :: i == j
    ensures |set i | i in ids :: rows[i].customer| == |ids|
    decreases |ids|
  {
    if ids != {} {
      var x :| x in ids;
      CustomersAsManyAsRows(rows, ids - {x});
      assert (set i | i in ids :: rows[i].customer) == (set i | i in ids - {x} :: rows[i].customer) + {rows[x].customer};
    }
  }

  lemma RankCountsRows(s: State, id: EntryId)
    requires Agree(s) && OrderAgrees(s) && id in s.rows && s.rows[id].status == Waiting
    ensures s.rows[id].customer in s.queue.waiting
    ensures Rank(s.queue.waiting, s.rows[id].customer) == |RowsBefore(s.rows, id, Waiting)|
  {
    var c, ids := s.rows[id].customer, RowsBefore(s.rows, id, Waiting);
    assert c in Customers(s.rows, Waiting);
    CustomersAsManyAsRows(s.rows, ids);
    var ahead := set i | i in ids :: s.rows[i].customer;
    forall x
      ensures x in ahead <==> x in Ahead(s.queue.waiting, c)
    {
      if x in Ahead(s.queue.waiting, c) {
        assert x in Customers(s.rows, Waiting);
        var k :| k in s.rows && s.rows[k].status == Waiting && s.rows[k].customer == x;
        assert k in ids;
      }
      if x in ahead {
        var k :| k in ids && s.rows[k].customer == x;
        assert x in Customers(s.rows, Waiting);
      }
    }
    assert ahead == Ahead(s.queue.waiting, c);
  }

  /** The answer from Postgres is the rank, plus one, plus the ADMITTED customers that joined earlier;
      so the fallback gives the Redis answer exactly if there are none. */
  lemma FallbackPosition(s: State, id: EntryId)
    requires Agree(s) && OrderAgrees(s) && id in s.rows && s.rows[id].status == Waiting
    ensures s.rows[id].customer in s.queue.waiting
    ensures var redis := Rank(s.queue.waiting, s.rows[id].customer) + 1;
      && RowPosition(s.rows, id) == redis + |RowsBefore(s.rows, id, Admitted)|
      && (RowPosition(s.rows, id) == redis <==> RowsBefore(s.rows, id, Admitted) == {})
  {
    RankCountsRows(s, id);
    assert (set k | k in s.rows && InQueue(s.rows[k]) && RowBefore(s.rows, k, id))
        == RowsBefore(s.rows, id, Waiting) + RowsBefore(s.rows, id, Admitted);
  }

  // ---- the orders agree over whole runs

  /** The score of a waiting customer stems from a join time in the microsecond that the row shows. */
  ghost predicate Stamped(s: State) {
    forall id | id in s.rows && s.rows[id].status == Waiting && s.rows[id].customer in s.queue.waiting ::
      exists ns: nat :: StampOf(s, id, ns)
  }

  ghost predicate StampOf(s: State, id: EntryId, ns: nat)
    requires id in s.rows && s.rows[id].customer in s.queue.waiting
  {
    s.queue.waiting[s.rows[id].customer] == ScoreOf(ns) && ns / 1000 == s.rows[id].joinedAt
  }

  /** A waiting customer keeps its score; only recovery and a join add one. */
  lemma ScoreKept(s: State, a: Op, c: CustomerId)
    requires UniqueIndex(s.rows) && c in s.queue.waiting && c in Apply(s, a).queue.waiting
    ensures Apply(s, a).queue.waiting[c] == s.queue.waiting[c]
  {
  }

  /** A row is WAITING only since it was inserted. */
  lemma WaitingSinceJoin(s: State, a: Op, id: EntryId)
    requires UniqueIndex(s.rows) && id in Apply(s, a).rows && Apply(s, a).rows[id].status == Waiting
    ensures (id in s.rows && s.rows[id] == Apply(s, a).rows[id])
         || (a.Join? && id == a.id && !HasActive(s.rows, a.c) && Apply(s, a) == DoJoin(s, id, a.c, a.ns, a.redis) && id !in s.rows)
  {
  }

  lemma StampedStep(s: State, a: Op)
    requires Agree(s) && Lossless(a) && Stamped(s)
    ensures Stamped(Apply(s, a))
  {
    var t := Apply(s, a);
    forall id | id in t.rows && t.rows[id].status == Waiting && t.rows[id].customer in t.queue.waiting
      ensures exists ns: nat :: StampOf(t, id, ns)
    {
      WaitingSinceJoin(s, a, id);
      AgreeMember(s, t.rows[id].customer);
      if id in s.rows {
        var ns: nat :| StampOf(s, id, ns);
        ScoreKept(s, a, t.rows[id].customer);
        assert StampOf(t, id, ns);
      } else {
        assert StampOf(t, id, a.ns);
      }
    }
  }

  lemma {:induction false} StampedRun(s: State, run: seq<Op>)
    requires Agree(s) && Stamped(s) && forall a | a in run :: Lossless(a)
    ensures Agree(Run(s, run)) && Stamped(Run(s, run))
    decreases run
  {
    if run != [] {
      AgreeStep(s, run[0]);
      StampedStep(s, run[0]);
      StampedRun(Apply(s, run[0]), run[1..]);
    }
  }

  /** The WAITING rows joined at least two microseconds apart, between 2006 and 2043. */
  predicate JoinsApart(rows: Rows) {
    && (forall i | i in rows && rows[i].status == Waiting :: TWO_TO_60 <= 1000 * rows[i].joinedAt && 1000 * rows[i].joinedAt + 1000 <= TWO_TO_61)
    && (forall i, j | i in rows && j in rows && i != j && rows[i].status == Waiting && rows[j].status == Waiting ::
          rows[i].joinedAt + 1 < rows[j].joinedAt || rows[j].joinedAt + 1 < rows[i].joinedAt)
  }

  lemma ApartInOrder(s: State, i: EntryId, j: EntryId)
    requires Stamped(s) && JoinsApart(s.rows)
    requires i in s.rows && j in s.rows && s.rows[i].status == Waiting && s.rows[j].status == Waiting
    requires s.rows[i].customer in s.queue.waiting && s.rows[j].customer in s.queue.waiting
    requires i != j && RowBefore(s.rows, i, j)
    ensures s.queue.waiting[s.rows[i].customer] < s.queue.waiting[s.rows[j].customer]
  {
    var x: nat :| StampOf(s, i, x);
    var y: nat :| StampOf(s, j, y);
    assert x == 1000 * s.rows[i].joinedAt + x % 1000;
    assert y == 1000 * s.rows[j].joinedAt + y % 1000;
    ScoreStrict(x, y);
  }

  lemma StampsOrder(s: State)
    requires Agree(s) && Stamped(s) && JoinsApart(s.rows)
    ensures OrderAgrees(s)
  {
    forall i, j | i in s.rows && j in s.rows && s.rows[i].status == Waiting && s.rows[j].status == Waiting
      && s.rows[i].customer in s.queue.waiting && s.rows[j].customer in s.queue.waiting
      ensures RowBefore(s.rows, i, j) <==> Before(s.queue.waiting, s.rows[i].customer, s.rows[j].customer)
    {
      if i != j {
        if RowBefore(s.rows, i, j) { ApartInOrder(s, i, j); } else { ApartInOrder(s, j, i); }
      }
    }
  }

  /** After any run with nothing lost, from an empty queue: if the waiting customers joined at least two
      microseconds apart, the Postgres position of each is its Redis position plus the number of
      ADMITTED customers that joined earlier. */
  lemma PositionsAfterRun(run: seq<Op>, id: EntryId)
    requires forall a | a in run :: Lossless(a)
    requires var s := Run(QueueProtocol.State(Fairness.Queue(map[], map[]), map[]), run);
      id in s.rows && s.rows[id].status == Waiting && JoinsApart(s.rows)
    ensures var s := Run(QueueProtocol.State(Fairness.Queue(map[], map[]), map[]), run);
      && s.rows[id].customer in s.queue.waiting
      && RowPosition(s.rows, id) == Rank(s.queue.waiting, s.rows[id].customer) + 1 + |RowsBefore(s.rows, id, Admitted)|
  {
    var s0 := QueueProtocol.State(Fairness.Queue(map[], map[]), map[]);
    StampedRun(s0, run);
    StampsOrder(Run(s0, run));
    FallbackPosition(Run(s0, run), id);
  }

  // ---- what recovery does to the order

  /** The order of two waiting customers before a wipe, and after the recovery that follows it. */
  ghost predicate OrderKept(s: State, a: CustomerId, b: CustomerId)
    requires UniqueIndex(s.rows)
  {
    var t := Run(s, [Wipe, Recover({})]);
    a in s.queue.waiting && b in s.queue.waiting && a in t.queue.waiting && b in t.queue.waiting
    && (Before(s.queue.waiting, a, b) <==> Before(t.queue.waiting, a, b))
  }

  /** Recovery keeps the order of two customers that joined at x < y exactly if the earlier one has the
      smaller id, or the two joins are told apart by their scores and by their microseconds alike. */
  lemma RecoveryKeepsOrderIff(s: State, i: EntryId, j: EntryId, x: nat, y: nat)
    requires Agree(s) && i != j && Recoverable(s.rows, i) && Recoverable(s.rows, j)
    requires s.rows[i].customer in s.queue.waiting && s.rows[j].customer in s.queue.waiting
    requires StampOf(s, i, x) && StampOf(s, j, y) && x < y && InRange(x) && InRange(y)
    ensures var a, b := s.rows[i].customer, s.rows[j].customer;
      OrderKept(s, a, b) <==> a < b || (Cell(x) < Cell(y) <==> x / 1000 < y / 1000)
  {
    RecoveryAfterWipe(s);
    ScoresCompare(x, y);
    hide Run, ScoreOf, Cell;
    var t := Run(s, [Wipe, Recover({})]);
    assert s.rows[i].customer in Customers(s.rows, Waiting) && s.rows[j].customer in Customers(s.rows, Waiting);
    assert x / 1000 <= y / 1000;
  }

  /** The stores after two joins in one microsecond, 900 ns apart. */
  function SameMicrosecond(m: nat, i: EntryId, j: EntryId, a: CustomerId, b: CustomerId): State {
    QueueProtocol.State(Fairness.Queue(map[a := ScoreOf(1000 * m), b := ScoreOf(1000 * m + 900)], map[]),
                        map[i := Entry(a, Waiting, m, None), j := Entry(b, Waiting, m, None)])
  }

  lemma TwoJoins(m: nat, i: EntryId, j: EntryId, a: CustomerId, b: CustomerId)
    requires i != j && a != b
    ensures Run(QueueProtocol.State(Fairness.Queue(map[], map[]), map[]),
                [Join(i, a, 1000 * m, Answered), Join(j, b, 1000 * m + 900, Answered)]) == SameMicrosecond(m, i, j, a, b)
  {
    hide ScoreOf;
    var s0 := QueueProtocol.State(Fairness.Queue(map[], map[]), map[]);
    var s1 := QueueProtocol.State(Fairness.Queue(map[a := ScoreOf(1000 * m)], map[]), map[i := Entry(a, Waiting, m, None)]);
    var s2 := SameMicrosecond(m, i, j, a, b);
    var r := [Join(i, a, 1000 * m, Answered), Join(j, b, 1000 * m + 900, Answered)];
    assert (1000 * m + 900) / 1000 == m;
    assert Apply(s0, r[0]) == s1;
    assert !HasActive(s1.rows, b);
    assert Apply(s1, r[1]) == s2;
    assert r[1..] == [r[1]] && [r[1]][1..] == [];
    assert Run(s1, [r[1]]) == s2;
  }

  lemma TwoJoinsAgree(m: nat, i: EntryId, j: EntryId, a: CustomerId, b: CustomerId)
    requires i != j && a != b
    ensures var s := SameMicrosecond(m, i, j, a, b);
      && Agree(s) && Customers(s.rows, Waiting) == {a, b} && Customers(s.rows, Admitted) == {}
      && i in s.rows && j in s.rows && s.rows[i] == Entry(a, Waiting, m, None) && s.rows[j] == Entry(b, Waiting, m, None)
    ensures var q := SameMicrosecond(m, i, j, a, b).queue; q.waiting[a] == ScoreOf(1000 * m) && q.waiting[b] == ScoreOf(1000 * m + 900)
  {
    hide ScoreOf;
    var s := SameMicrosecond(m, i, j, a, b);
    assert s.rows[i].customer == a && s.rows[j].customer == b;
    assert Customers(s.rows, Waiting) == {a, b};
  }

  /** The earlier of the two has the larger id: live it is first, after a wipe and a complete recovery
      the later one is, although the stores agree before and after. */
  lemma RecoveryReverses(m: nat, i: EntryId, j: EntryId, a: CustomerId, b: CustomerId)
    requires i != j && b < a && InRange(1000 * m) && InRange(1000 * m + 900)
    ensures var s := SameMicrosecond(m, i, j, a, b);
      Agree(s) && Before(s.queue.waiting, a, b) && Reversed(s, a, b)
  {
    hide Run, ScoreOf, InRange, SameMicrosecond, Agree;
    var s := SameMicrosecond(m, i, j, a, b);
    TwoJoinsAgree(m, i, j, a, b);
    AgreeMeans(s);
    var t := Run(s, [Wipe, Recover({})]);
    ScoreStrict(1000 * m, 1000 * m + 900);
    RecoveryAfterWipe(s);
    assert Recoverable(s.rows, i) && Recoverable(s.rows, j);
    assert Before(t.queue.waiting, s.rows[j].customer, s.rows[i].customer);
  }

  lemma AgreeMeans(s: State)
    requires Agree(s)
    ensures UniqueIndex(s.rows) && s.queue.waiting.Keys == Customers(s.rows, Waiting)
  {
  }

  /** After a wipe and a complete recovery the stores agree, and b comes before a. */
  ghost predicate Reversed(s: State, a: CustomerId, b: CustomerId)
    requires UniqueIndex(s.rows)
  {
    var t := Run(s, [Wipe, Recover({})]);
    Agree(t) && a in t.queue.waiting && b in t.queue.waiting && Before(t.queue.waiting, b, a)
  }
}
