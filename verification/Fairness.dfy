/** The two sorted sets of one event under every interleaving of the three scripts and the two
    removals: exclusion, first come first served, bounded waiting. */
module Fairness {
  import opened Domain
  import opened SortedSet
  import opened Score

  datatype Queue = Queue(waiting: ZSet, admitted: ZSet)

  datatype Step =
    | Join(c: CustomerId, score: int)
    | Tick(available: int, batchSize: int, now: nat)
    | Evict(cutoff: int)
    | DropWaiting(c: CustomerId)
    | DropAdmitted(c: CustomerId)
    | WipeAll

  /** calculateBatchSize: nothing on a cache miss (-1) or when sold out. */
  function AdmitCount(available: int, batchSize: int): int {
    if available <= 0 then 0 else if available <= batchSize then available else batchSize
  }

  /** joinScript: 0 for a waiting customer, 1 for an admitted one, 2 for a new one. */
  function JoinScript(q: Queue, c: CustomerId, score: int): (Queue, int) {
    if c in q.waiting then (q, 0)
    else if c in q.admitted then (q, 1)
    else (q.(waiting := q.waiting[c := score]), 2)
  }

  function AtScore(batch: set<CustomerId>, score: int): ZSet {
    map c | c in batch :: score
  }

  /** admitBatchScript: the batch leaves the waiting set and enters the admitted set, all with the
      admission time, rounded to a double, as score. */
  ghost function AdmitScript(q: Queue, n: int, now: nat): (Queue, seq<CustomerId>) {
    var batch := Batch(q.waiting, n);
    (Queue(q.waiting - Members(batch), q.admitted + AtScore(Members(batch), ScoreOf(now))), batch)
  }

  /** The cutoff as ZRANGEBYSCORE reads it. */
  function CutoffScore(cutoff: int): int {
    if cutoff < 0 then -(ScoreOf(-cutoff) as int) else ScoreOf(cutoff)
  }

  /** evictExpiredScript: scores from 0 up to and including the cutoff. */
  function Overdue(q: Queue, cutoff: int): set<CustomerId> {
    set c | c in q.admitted && 0 <= q.admitted[c] <= CutoffScore(cutoff)
  }

  /** Rounding moves the end of an admission window by at most 256 ns: whoever was admitted at or before
      the cutoff is evicted, and nobody admitted more than 256 ns after it. */
  lemma EvictionWithinRounding(q: Queue, c: CustomerId, admittedAt: nat, cutoff: nat)
    requires c in q.admitted && q.admitted[c] == ScoreOf(admittedAt) && InRange(admittedAt) && InRange(cutoff)
    ensures admittedAt <= cutoff ==> c in Overdue(q, cutoff)
    ensures cutoff + 256 < admittedAt ==> c !in Overdue(q, cutoff)
  {
    hide ScoreOf;
    if admittedAt <= cutoff { ScoreMonotone(admittedAt, cutoff); }
    if cutoff + 256 < admittedAt { ScoreStrict(cutoff, admittedAt); }
  }

  ghost function Apply(q: Queue, a: Step): Queue {
    match a
    case Join(c, score) => JoinScript(q, c, score).0
    case Tick(available, size, now) => AdmitScript(q, AdmitCount(available, size), now).0
    case Evict(cutoff) => q.(admitted := q.admitted - Overdue(q, cutoff))
    case DropWaiting(c) => q.(waiting := q.waiting - {c})
    case DropAdmitted(c) => q.(admitted := q.admitted - {c})
    case WipeAll => Queue(map[], map[])
  }

  ghost function Run(q: Queue, run: seq<Step>): Queue
    decreases run
  {
    if run == [] then q else Run(Apply(q, run[0]), run[1..])
  }

  // ---- exclusion

  predicate Disjoint(q: Queue) {
    forall c | c in q.waiting :: c !in q.admitted
  }

  /** Nobody waits and is admitted at the same time, whatever runs. */
  lemma {:induction false} DisjointRun(q: Queue, run: seq<Step>)
    requires Disjoint(q)
    ensures Disjoint(Run(q, run))
    decreases run
  {
    if run != [] { DisjointRun(Apply(q, run[0]), run[1..]); }
  }

  // ---- each tick takes exactly the smallest keys

  ghost predicate Admits(q: Queue, a: Step, c: CustomerId) {
    a.Tick? && c in Batch(q.waiting, AdmitCount(a.available, a.batchSize))
  }

  /** A tick admits min(available, batch size, number waiting) customers, and everybody it admits has
      a smaller key than everybody it leaves waiting. */
  lemma TickTakesSmallest(q: Queue, a: Step)
    requires a.Tick?
    ensures var n := AdmitCount(a.available, a.batchSize); var b := Batch(q.waiting, n);
      && |b| == (if n <= 0 then 0 else if n <= |q.waiting| then n else |q.waiting|)
      && Apply(q, a).waiting.Keys == q.waiting.Keys - Members(b) && Members(b) <= q.waiting.Keys
      && |Members(b)| == |b|
    ensures forall x, y | Admits(q, a, x) && y in Apply(q, a).waiting :: x in q.waiting && y in q.waiting && Before(q.waiting, x, y)
  {
    var n := AdmitCount(a.available, a.batchSize);
    BatchSize(q.waiting, n);
    forall x | x in Batch(q.waiting, n)
      ensures x in q.waiting
    {
      BatchIsRankBelow(q.waiting, n, x);
    }
    forall x, y | Admits(q, a, x) && y in Apply(q, a).waiting
      ensures x in q.waiting && y in q.waiting && Before(q.waiting, x, y)
    {
      BatchIsRankBelow(q.waiting, n, x);
      BatchIsRankBelow(q.waiting, n, y);
      if Before(q.waiting, y, x) { RankOrder(q.waiting, y, x); }
    }
  }

  // ---- tickets and admitted customers

  function Taken(q: Queue, a: Step): nat
    requires a.Tick?
  {
    var n := AdmitCount(a.available, a.batchSize);
    if n <= 0 then 0 else if n <= |q.waiting| then n else |q.waiting|
  }

  /** A tick adds its batch to those already admitted, whom it does not count; so it leaves no more
      customers admitted than there are tickets exactly if the two together fit into the counter. */
  lemma TickWithinTicketsIff(q: Queue, a: Step)
    requires Disjoint(q) && a.Tick?
    ensures |Apply(q, a).admitted| == |q.admitted| + Taken(q, a)
    ensures |Apply(q, a).admitted| <= a.available <==> |q.admitted| + Taken(q, a) <= a.available
  {
    hide Batch, Members;
    var b := Members(Batch(q.waiting, AdmitCount(a.available, a.batchSize)));
    TickTakesSmallest(q, a);
    AddedSize(q.admitted, b, ScoreOf(a.now));
  }

  lemma AddedSize(z: ZSet, b: set<CustomerId>, score: int)
    requires z.Keys !! b
    ensures |z + AtScore(b, score)| == |z| + |b|
  {
    var t := z + AtScore(b, score);
    assert t.Keys == z.Keys + b;
    assert |t| == |t.Keys| && |z| == |z.Keys|;
  }

  /** With nobody admitted before, a tick stays within the tickets. */
  lemma FirstTickFits(q: Queue, a: Step)
    requires Disjoint(q) && a.Tick? && a.available >= 0 && q.admitted == map[]
    ensures |Apply(q, a).admitted| <= a.available
  {
    TickWithinTicketsIff(q, a);
  }

  /** Two ticks admit two customers to one ticket. */
  lemma TwoTicksOneTicket(c: CustomerId, d: CustomerId, size: nat, now: nat)
    requires c != d && size > 0
    ensures var tick := Tick(1, size, now); var q := Queue(map[c := 0, d := 1], map[]);
      Disjoint(q) && |Run(q, [tick, tick]).admitted| == 2
  {
    var tick, q := Tick(1, size, now), Queue(map[c := 0, d := 1], map[]);
    assert q.waiting.Keys == {c, d} && |q.waiting| == |q.waiting.Keys|;
    TickShrinks(q, tick);
    TickWithinTicketsIff(q, tick);
    hide Apply;
    var t := Apply(q, tick);
    assert [tick][1..] == [] && [tick, tick][1..] == [tick];
    assert Run(q, [tick]) == t && Run(t, [tick]) == Apply(t, tick);
    DisjointRun(q, [tick]);
    TickWithinTicketsIff(t, tick);
  }

  lemma TickShrinks(q: Queue, a: Step)
    requires a.Tick?
    ensures |Apply(q, a).waiting| == |q.waiting| - Taken(q, a)
  {
    hide Batch, Members;
    TickTakesSmallest(q, a);
    var t := Apply(q, a).waiting;
    assert |t| == |t.Keys| && |q.waiting| == |q.waiting.Keys|;
  }

  // ---- no overtaking

  /** Somewhere in the run b is admitted while a, which has waited all along, is left behind. */
  ghost predicate Overtakes(q: Queue, run: seq<Step>, a: CustomerId, b: CustomerId)
    decreases run
  {
    run != [] && a in q.waiting && b in q.waiting
    && ((Admits(q, run[0], b) && !Admits(q, run[0], a)) || Overtakes(Apply(q, run[0]), run[1..], a, b))
  }

  /** Who keeps waiting keeps the key. */
  lemma KeyStays(q: Queue, s: Step, c: CustomerId)
    requires c in q.waiting && c in Apply(q, s).waiting
    ensures Apply(q, s).waiting[c] == q.waiting[c]
  {
  }

  /** No overtaking, over whole runs of all the steps. */
  lemma {:induction false} NoOvertaking(q: Queue, run: seq<Step>, a: CustomerId, b: CustomerId)
    requires a in q.waiting && b in q.waiting && Before(q.waiting, a, b)
    ensures !Overtakes(q, run, a, b)
    decreases run
  {
    if run != [] {
      var s := run[0];
      var t := Apply(q, s);
      if s.Tick? {
        BatchIsRankBelow(q.waiting, AdmitCount(s.available, s.batchSize), a);
        BatchIsRankBelow(q.waiting, AdmitCount(s.available, s.batchSize), b);
        RankOrder(q.waiting, a, b);
      }
      if a in t.waiting && b in t.waiting {
        KeyStays(q, s, a);
        KeyStays(q, s, b);
        NoOvertaking(t, run[1..], a, b);
      }
    }
  }

  // ---- bounded waiting

  /** How many customers the ticks of a run are allowed to admit. */
  function Offered(run: seq<Step>): nat {
    if run == [] then 0
    else
      var n := if run[0].Tick? then AdmitCount(run[0].available, run[0].batchSize) else 0;
      (if n > 0 then n else 0) + Offered(run[1..])
  }

  /** While c waits it does not leave on its own, Redis is not wiped, and whoever joins has a larger key. */
  ghost predicate Patient(q: Queue, run: seq<Step>, c: CustomerId)
    decreases run
  {
    run == [] || c !in q.waiting ||
    ((match run[0]
      case Join(x, score) => score > q.waiting[c] || (score == q.waiting[c] && x >= c) || x in q.waiting || x in q.admitted
      case DropWaiting(x) => x != c
      case WipeAll => false
      case _ => true)
     && Patient(Apply(q, run[0]), run[1..], c))
  }

  ghost predicate AdmittedDuring(q: Queue, run: seq<Step>, c: CustomerId)
    decreases run
  {
    run != [] && (Admits(q, run[0], c) || AdmittedDuring(Apply(q, run[0]), run[1..], c))
  }

  /** A tick that does not reach c brings it forward by the whole batch. */
  lemma TickMovesUp(q: Queue, a: Step, c: CustomerId)
    requires a.Tick? && c in q.waiting && !Admits(q, a, c)
    ensures var n := AdmitCount(a.available, a.batchSize); var t := Apply(q, a);
      c in t.waiting && Rank(t.waiting, c) == Rank(q.waiting, c) - (if n > 0 then n else 0)
  {
    var n := AdmitCount(a.available, a.batchSize);
    var b := Batch(q.waiting, n);
    var t := Apply(q, a);
    BatchIsRankBelow(q.waiting, n, c);
    BatchSize(q.waiting, n);
    RankBelowSize(q.waiting, c);
    forall x | x in Members(b)
      ensures x in Ahead(q.waiting, c)
    {
      BatchIsRankBelow(q.waiting, n, x);
      if Before(q.waiting, c, x) { RankOrder(q.waiting, c, x); }
    }
    assert Ahead(t.waiting, c) == Ahead(q.waiting, c) - Members(b);
  }

  /** No other step moves a patient customer back. */
  lemma OthersDoNotPush(q: Queue, a: Step, c: CustomerId)
    requires !a.Tick? && c in q.waiting && Patient(q, [a], c)
    ensures c in Apply(q, a).waiting && Rank(Apply(q, a).waiting, c) <= Rank(q.waiting, c)
  {
    assert Ahead(Apply(q, a).waiting, c) <= Ahead(q.waiting, c);
    SubsetSize(Ahead(Apply(q, a).waiting, c), Ahead(q.waiting, c));
  }

  /** Bounded waiting: a patient customer at rank p is admitted by the time the ticks have offered
      more than p places. */
  lemma {:induction false} BoundedWaiting(q: Queue, run: seq<Step>, c: CustomerId)
    requires c in q.waiting && Patient(q, run, c)
    requires Offered(run) > Rank(q.waiting, c)
    ensures AdmittedDuring(q, run, c)
    decreases run
  {
    var a := run[0];
    if !Admits(q, a, c) {
      if a.Tick? {
        TickMovesUp(q, a, c);
      } else {
        assert Patient(q, [a], c) by { assert [a][1..] == []; }
        OthersDoNotPush(q, a, c);
      }
      BoundedWaiting(Apply(q, a), run[1..], c);
    }
  }

  /** The bound is tight: when only ticks run, they admit a customer exactly if they offer more places
      than its rank. */
  lemma {:induction false} BoundIsTight(q: Queue, run: seq<Step>, c: CustomerId)
    requires c in q.waiting && forall a | a in run :: a.Tick?
    ensures AdmittedDuring(q, run, c) <==> Offered(run) > Rank(q.waiting, c)
    decreases run
  {
    if run != [] {
      var a := run[0];
      BatchIsRankBelow(q.waiting, AdmitCount(a.available, a.batchSize), c);
      if !Admits(q, a, c) {
        TickMovesUp(q, a, c);
        BoundIsTight(Apply(q, a), run[1..], c);
      }
    }
  }
}
