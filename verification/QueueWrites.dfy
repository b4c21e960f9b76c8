/** Join, Abandon and Complete in two statements: the row in Postgres, and later the write in Redis.
    In between, the statements of other calls run. */
module QueueWrites {
  import opened Domain
  import opened SortedSet
  import opened Score
  import opened QueueProtocol
  import Fairness

  datatype Write = Add(c: CustomerId, score: int) | DropWaiting(c: CustomerId) | DropAdmitted(c: CustomerId)

  /** The stores, and the Redis writes still to come, in the order of their rows. */
  datatype Split = Split(queue: Fairness.Queue, rows: Rows, pending: seq<Write>)

  datatype Half =
    | JoinRow(id: EntryId, c: CustomerId, ns: nat)
    | AbandonRow(c: CustomerId)
    | CompleteRow(c: CustomerId)
    | Land(i: nat)

  function Do(q: Fairness.Queue, w: Write): Fairness.Queue {
    match w
    case Add(c, score) => Fairness.JoinScript(q, c, score).0
    case DropWaiting(c) => q.(waiting := q.waiting - {c})
    case DropAdmitted(c) => q.(admitted := q.admitted - {c})
  }

  function Flush(q: Fairness.Queue, pending: seq<Write>): Fairness.Queue
    decreases pending
  {
    if pending == [] then q else Flush(Do(q, pending[0]), pending[1..])
  }

  /** The row half of one call, which leaves a write behind if it succeeds, or the landing of a write. */
  ghost function Step(s: Split, a: Half): Split {
    match a
    case JoinRow(id, c, ns) =>
      if id in s.rows || HasActive(s.rows, c) then s
      else s.(rows := s.rows[id := Entry(c, Waiting, ns / 1000, None)], pending := s.pending + [Add(c, ScoreOf(ns))])
    case AbandonRow(c) =>
      if id :| id in s.rows && IsActiveRow(s.rows, id, c) && s.rows[id].status == Waiting
      then s.(rows := SetStatus(s.rows, id, Abandoned), pending := s.pending + [DropWaiting(c)]) else s
    case CompleteRow(c) =>
      if id :| id in s.rows && IsActiveRow(s.rows, id, c) && s.rows[id].status == Admitted
      then s.(rows := SetStatus(s.rows, id, Completed), pending := s.pending + [DropAdmitted(c)]) else s
    case Land(i) =>
      if i < |s.pending| then s.(queue := Do(s.queue, s.pending[i]), pending := s.pending[..i] + s.pending[i + 1..]) else s
  }

  ghost function RunHalves(s: Split, run: seq<Half>): Split
    decreases run
  {
    if run == [] then s else RunHalves(Step(s, run[0]), run[1..])
  }

  /** The stores agree once everything pending has landed in order. */
  ghost predicate Settles(s: Split) {
    Agree(State(Flush(s.queue, s.pending), s.rows))
  }

  /** A landing overtakes no earlier write of the same customer. */
  predicate InOrder(s: Split, a: Half) {
    a.Land? && a.i < |s.pending| ==> forall j | 0 <= j < a.i :: s.pending[j].c != s.pending[a.i].c
  }

  ghost predicate OrderedRun(s: Split, run: seq<Half>)
    decreases run
  {
    run == [] || (InOrder(s, run[0]) && OrderedRun(Step(s, run[0]), run[1..]))
  }

  lemma {:induction false} FlushSnoc(q: Fairness.Queue, pending: seq<Write>, w: Write)
    ensures Flush(q, pending + [w]) == Do(Flush(q, pending), w)
    decreases pending
  {
    if pending == [] {
      assert [w][1..] == [];
      assert pending + [w] == [w];
    } else {
      assert (pending + [w])[1..] == pending[1..] + [w];
      FlushSnoc(Do(q, pending[0]), pending[1..], w);
    }
  }

  lemma MapsCommute(m: ZSet, a: CustomerId, b: CustomerId, x: int, y: int)
    requires a != b
    ensures m - {a} - {b} == m - {b} - {a}
    ensures m[a := x] - {b} == (m - {b})[a := x] && m[b := y] - {a} == (m - {a})[b := y]
    ensures m[a := x][b := y] == m[b := y][a := x]
  {
  }

  /** Writes of different customers commute. */
  lemma Commute(q: Fairness.Queue, v: Write, w: Write)
    requires v.c != w.c
    ensures Do(Do(q, v), w) == Do(Do(q, w), v)
  {
    MapsCommute(q.waiting, v.c, w.c, if v.Add? then v.score else 0, if w.Add? then w.score else 0);
    MapsCommute(q.admitted, v.c, w.c, 0, 0);
  }

  /** A write that overtakes no earlier one of its customer may as well land first. */
  lemma {:induction false} LandsFirst(q: Fairness.Queue, pending: seq<Write>, i: nat)
    requires i < |pending| && forall j | 0 <= j < i :: pending[j].c != pending[i].c
    ensures Flush(Do(q, pending[i]), pending[..i] + pending[i + 1..]) == Flush(q, pending)
    decreases i
  {
    var rest := pending[..i] + pending[i + 1..];
    if i == 0 {
      assert rest == pending[1..];
    } else {
      assert rest[0] == pending[0] && rest[1..] == pending[1..][..i - 1] + pending[1..][i..];
      Commute(q, pending[0], pending[i]);
      LandsFirst(Do(q, pending[0]), pending[1..], i - 1);
    }
  }

  lemma SettlesStep(s: Split, a: Half)
    requires Settles(s) && InOrder(s, a)
    ensures Settles(Step(s, a))
  {
    var t := State(Flush(s.queue, s.pending), s.rows);
    match a
    case JoinRow(id, c, ns) =>
      AgreeStep(t, Join(id, c, ns, Answered));
      FlushSnoc(s.queue, s.pending, Add(c, ScoreOf(ns)));
    case AbandonRow(c) =>
      AgreeStep(t, Abandon(c, Answered));
      FlushSnoc(s.queue, s.pending, DropWaiting(c));
    case CompleteRow(c) =>
      AgreeStep(t, Complete(c, Answered));
      FlushSnoc(s.queue, s.pending, DropAdmitted(c));
    case Land(i) =>
      if i < |s.pending| { LandsFirst(s.queue, s.pending, i); }
  }

  /** However the two statements of any number of calls interleave: if the Redis writes of each
      customer land in the order of its rows, the stores agree whenever nothing is pending. */
  lemma {:induction false} OrderedWritesAgree(s: Split, run: seq<Half>)
    requires Settles(s) && OrderedRun(s, run)
    ensures var t := RunHalves(s, run); Settles(t) && (t.pending == [] ==> Agree(State(t.queue, t.rows)))
    decreases run
  {
    if run != [] {
      SettlesStep(s, run[0]);
      OrderedWritesAgree(Step(s, run[0]), run[1..]);
    }
  }

  // ---- the exact condition

  /** What a step does for one customer, seen from its calls: a row half that succeeds issues a write, a
      landing executes one; true stands for an Add, false for a removal. */
  ghost function Issued(s: Split, a: Half, c: CustomerId): Option<bool> {
    var t := Step(s, a);
    if !a.Land? && |t.pending| > |s.pending| && t.pending[|s.pending|].c == c then Some(t.pending[|s.pending|].Add?) else None
  }

  function Landed(s: Split, a: Half, c: CustomerId): Option<bool> {
    if a.Land? && a.i < |s.pending| && s.pending[a.i].c == c then Some(s.pending[a.i].Add?) else None
  }

  function Later(x: Option<bool>, y: Option<bool>): Option<bool> {
    if y.Some? then y else x
  }

  /** The last row half of a customer that succeeded in a run. */
  ghost function LastIssued(s: Split, run: seq<Half>, c: CustomerId): Option<bool>
    decreases run
  {
    if run == [] then None else Later(Issued(s, run[0], c), LastIssued(Step(s, run[0]), run[1..], c))
  }

  /** The last write of a customer that landed in a run. */
  ghost function LastLanded(s: Split, run: seq<Half>, c: CustomerId): Option<bool>
    decreases run
  {
    if run == [] then None else Later(Landed(s, run[0], c), LastLanded(Step(s, run[0]), run[1..], c))
  }

  predicate HasPending(pending: seq<Write>, c: CustomerId) {
    exists i :: 0 <= i < |pending| && pending[i].c == c
  }

  /** How many removals from the admitted set are pending for a customer. */
  function Drops(pending: seq<Write>, c: CustomerId): nat {
    if pending == [] then 0 else (if pending[0] == DropAdmitted(c) then 1 else 0) + Drops(pending[1..], c)
  }

  lemma {:induction false} DropsAppend(x: seq<Write>, y: seq<Write>, c: CustomerId)
    ensures Drops(x + y, c) == Drops(x, c) + Drops(y, c)
  {
    if x == [] {
      assert x + y == y;
    } else {
      assert (x + y)[1..] == x[1..] + y;
      DropsAppend(x[1..], y, c);
    }
  }

  lemma {:induction false} NoDrops(pending: seq<Write>, c: CustomerId)
    ensures Drops(pending, c) > 0 ==> HasPending(pending, c)
  {
    if pending != [] {
      NoDrops(pending[1..], c);
      if HasPending(pending[1..], c) {
        var i :| 0 <= i < |pending| - 1 && pending[1..][i].c == c;
        assert pending[i + 1].c == c;
      }
    }
  }

  /** What links rows, sets, pending writes, and the last issued and landed writes of one customer. */
  ghost predicate Tracks(s: Split, c: CustomerId, issued: Option<bool>, landed: Option<bool>) {
    var waits, admitted := c in s.queue.waiting, c in s.queue.admitted;
    var waitingRow, admittedRow := c in Customers(s.rows, Waiting), c in Customers(s.rows, Admitted);
    && UniqueIndex(s.rows) && !(waits && admitted)
    && (if issued.None? then
          landed.None? && !HasPending(s.pending, c) && (waits <==> waitingRow) && (admitted <==> admittedRow)
        else (waitingRow <==> issued.value) && (landed.Some? || HasPending(s.pending, c)))
    && (landed.Some? ==> (waits <==> landed.value && !admitted))
    && (admittedRow ==> admitted && issued.None?)
    && Drops(s.pending, c) == (if admitted && !admittedRow then 1 else 0)
  }

  /** A row half for customer d that leaves write w behind. */
  lemma RowHalf(s: Split, rows: Rows, w: Write, c: CustomerId, issued: Option<bool>, landed: Option<bool>)
    requires Tracks(s, c, issued, landed) && UniqueIndex(rows)
    requires forall st, x | (st == Waiting || st == Admitted) && x != w.c :: x in Customers(rows, st) <==> x in Customers(s.rows, st)
    requires w.c in Customers(rows, Waiting) <==> w.Add?
    requires w.c !in Customers(rows, Admitted)
    requires if w.DropAdmitted? then w.c in Customers(s.rows, Admitted) else w.c !in Customers(s.rows, Admitted)
    ensures Tracks(s.(rows := rows, pending := s.pending + [w]), c, if w.c == c then Some(w.Add?) else issued, landed)
  {
    DropsAppend(s.pending, [w], c);
    assert Drops([w], c) == if w == DropAdmitted(c) then 1 else 0 by { assert [w][1..] == []; }
    var pending := s.pending + [w];
    assert pending[|s.pending|] == w;
    assert forall i | 0 <= i < |s.pending| :: pending[i] == s.pending[i];
    NoDrops(s.pending, c);
  }

  /** What a landing leaves pending. */
  lemma LandPending(pending: seq<Write>, i: nat, c: CustomerId)
    requires i < |pending|
    ensures var rest, w := pending[..i] + pending[i + 1..], pending[i];
      && Drops(rest, c) == Drops(pending, c) - (if w == DropAdmitted(c) then 1 else 0)
      && (HasPending(rest, c) ==> HasPending(pending, c)) && (w.c == c ==> HasPending(pending, c))
      && (w.c != c && HasPending(pending, c) ==> HasPending(rest, c))
  {
    var rest, w := pending[..i] + pending[i + 1..], pending[i];
    assert pending == pending[..i] + [w] + pending[i + 1..];
    DropsAppend(pending[..i] + [w], pending[i + 1..], c);
    DropsAppend(pending[..i], [w], c);
    DropsAppend(pending[..i], pending[i + 1..], c);
    assert Drops([w], c) == if w == DropAdmitted(c) then 1 else 0 by { assert [w][1..] == []; }
    hide Drops;
    if k :| 0 <= k < |rest| && rest[k].c == c { assert rest[k] == pending[if k < i then k else k + 1]; }
    if w.c != c && HasPending(pending, c) {
      var k :| 0 <= k < |pending| && pending[k].c == c;
      assert rest[if k < i then k else k - 1] == pending[k];
    }
  }

  lemma LandHalf(s: Split, i: nat, c: CustomerId, issued: Option<bool>, landed: Option<bool>)
    requires Tracks(s, c, issued, landed) && i < |s.pending|
    ensures Tracks(Step(s, Land(i)), c, issued, Later(landed, Landed(s, Land(i), c)))
  {
    LandPending(s.pending, i, c);
    hide Drops, HasPending;
  }

  lemma TracksStep(s: Split, a: Half, c: CustomerId, issued: Option<bool>, landed: Option<bool>)
    requires Tracks(s, c, issued, landed)
    ensures Tracks(Step(s, a), c, Later(issued, Issued(s, a, c)), Later(landed, Landed(s, a, c)))
  {
    hide Tracks, Customers;
    var t := Step(s, a);
    TracksIndex(s, c, issued, landed);
    match a
    case JoinRow(id, d, ns) =>
      if !(id in s.rows || HasActive(s.rows, d)) {
        JoinedRows(s.rows, id, d, Entry(d, Waiting, ns / 1000, None));
        RowHalf(s, t.rows, Add(d, ScoreOf(ns)), c, issued, landed);
      }
    case AbandonRow(d) =>
      if id :| id in s.rows && IsActiveRow(s.rows, id, d) && s.rows[id].status == Waiting {
        LeftRows(s.rows, id, Abandoned);
        RowHalf(s, SetStatus(s.rows, id, Abandoned), DropWaiting(d), c, issued, landed);
      }
    case CompleteRow(d) =>
      if id :| id in s.rows && IsActiveRow(s.rows, id, d) && s.rows[id].status == Admitted {
        LeftRows(s.rows, id, Completed);
        RowHalf(s, SetStatus(s.rows, id, Completed), DropAdmitted(d), c, issued, landed);
      }
    case Land(i) =>
      if i < |s.pending| { LandHalf(s, i, c, issued, landed); }
  }

  lemma TracksIndex(s: Split, c: CustomerId, issued: Option<bool>, landed: Option<bool>)
    requires Tracks(s, c, issued, landed)
    ensures UniqueIndex(s.rows)
  {
  }

  lemma {:induction false} TracksRun(s: Split, run: seq<Half>, c: CustomerId, issued: Option<bool>, landed: Option<bool>)
    requires Tracks(s, c, issued, landed)
    ensures Tracks(RunHalves(s, run), c, Later(issued, LastIssued(s, run, c)), Later(landed, LastLanded(s, run, c)))
    decreases run
  {
    if run != [] {
      hide Step, Tracks, Issued, Landed;
      var a := run[0];
      TracksStep(s, a, c, issued, landed);
      TracksRun(Step(s, a), run[1..], c, Later(issued, Issued(s, a, c)), Later(landed, Landed(s, a, c)));
    }
  }

  lemma TracksAtRest(s: Split, c: CustomerId)
    requires Agree(State(s.queue, s.rows)) && s.pending == []
    ensures Tracks(s, c, None, None)
  {
    AgreeMember(State(s.queue, s.rows), c);
  }

  lemma AgreesAtRest(s: Split, c: CustomerId, issued: Option<bool>, landed: Option<bool>)
    requires Tracks(s, c, issued, landed) && s.pending == []
    ensures UniqueIndex(s.rows) && (AgreesOn(State(s.queue, s.rows), c) <==> landed == issued)
  {
  }

  lemma CustomerAtRest(s: Split, run: seq<Half>, c: CustomerId)
    requires Agree(State(s.queue, s.rows)) && s.pending == [] && RunHalves(s, run).pending == []
    ensures UniqueIndex(RunHalves(s, run).rows)
    ensures AgreesOn(State(RunHalves(s, run).queue, RunHalves(s, run).rows), c) <==> LastLanded(s, run, c) == LastIssued(s, run, c)
  {
    hide RunHalves, LastLanded, LastIssued, Tracks, AgreesOn;
    TracksAtRest(s, c);
    TracksRun(s, run, c, None, None);
    AgreesAtRest(RunHalves(s, run), c, LastIssued(s, run, c), LastLanded(s, run, c));
  }

  /** However the statements of any number of calls interleave, from stores in agreement to a state with
      nothing pending: the stores agree again if and only if, for every customer, the last Redis write to
      land belongs to the last row that was written. */
  lemma TornCallsAgreeIff(s: Split, run: seq<Half>)
    requires Agree(State(s.queue, s.rows)) && s.pending == [] && RunHalves(s, run).pending == []
    ensures var t := RunHalves(s, run);
      Agree(State(t.queue, t.rows)) <==> forall c :: LastLanded(s, run, c) == LastIssued(s, run, c)
  {
    hide RunHalves, LastLanded, LastIssued, AgreesOn, Agree;
    var t := RunHalves(s, run);
    CustomerAtRest(s, run, 0);
    AgreePointwise(State(t.queue, t.rows));
    if forall c :: AgreesOn(State(t.queue, t.rows), c) {
      forall c
        ensures LastLanded(s, run, c) == LastIssued(s, run, c)
      {
        CustomerAtRest(s, run, c);
        assert AgreesOn(State(t.queue, t.rows), c);
      }
    } else {
      var c :| !AgreesOn(State(t.queue, t.rows), c);
      CustomerAtRest(s, run, c);
    }
  }

  /** A customer that joins and abandons before the ZADD lands is left waiting in Redis for good. */
  lemma GhostCustomer(id: EntryId, c: CustomerId, ns: nat)
    ensures var s := Split(Fairness.Queue(map[], map[]), map[], []);
      var t := RunHalves(s, [JoinRow(id, c, ns), AbandonRow(c), Land(1), Land(0)]);
      t.pending == [] && c in t.queue.waiting && !HasActive(t.rows, c)
  {
    var s0 := Split(Fairness.Queue(map[], map[]), map[], []);
    var x := Entry(c, Waiting, ns / 1000, None);
    var s1 := s0.(rows := map[id := x], pending := [Add(c, ScoreOf(ns))]);
    var s2 := s1.(rows := map[id := x.(status := Abandoned)], pending := [Add(c, ScoreOf(ns)), DropWaiting(c)]);
    var s3 := s2.(pending := [Add(c, ScoreOf(ns))]);
    var s4 := s2.(queue := Fairness.Queue(map[c := ScoreOf(ns)], map[]), pending := []);
    assert Step(s0, JoinRow(id, c, ns)) == s1;
    assert IsActiveRow(s1.rows, id, c) && s1.rows[id].status == Waiting;
    assert Step(s1, AbandonRow(c)) == s2;
    assert Step(s2, Land(1)) == s3;
    assert Step(s3, Land(0)) == s4;
    RunFour([s0, s1, s2, s3, s4], [JoinRow(id, c, ns), AbandonRow(c), Land(1), Land(0)]);
  }

  lemma RunFour(s: seq<Split>, a: seq<Half>)
    requires |s| == 5 && |a| == 4 && forall i | 0 <= i < 4 :: Step(s[i], a[i]) == s[i + 1]
    ensures RunHalves(s[0], a) == s[4]
  {
    hide Step;
    var a1, a2, a3 := a[1..], a[1..][1..], a[1..][1..][1..];
    assert RunHalves(s[0], a) == RunHalves(s[1], a1);
    assert RunHalves(s[1], a1) == RunHalves(s[2], a2);
    assert RunHalves(s[2], a2) == RunHalves(s[3], a3);
    assert a3[0] == a[3] && a3[1..] == [];
    assert RunHalves(s[3], a3) == RunHalves(s[4], []);
  }
}
