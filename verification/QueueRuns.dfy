/** The queue services as runs of the Redis scripts: first come first served and bounded waiting, as
    they hold for joins, abandons, admissions, completions, evictions, expiry, recovery and wipes. */
module QueueRuns {
  import opened Domain
  import opened SortedSet
  import opened Score
  import opened QueueProtocol
  import Fairness

  type Steps = seq<Fairness.Step>

  /** The joins that add the members of a set with its scores, in some order. */
  ghost function JoinsFor(scores: ZSet): Steps
    decreases |scores|
  {
    if scores == map[] then []
    else
      var c :| c in scores;
      [Fairness.Join(c, scores[c])] + JoinsFor(scores - {c})
  }

  /** The scripts and removals that one operation executes in Redis. */
  ghost function StepsOf(s: State, a: Op): Steps
    requires UniqueIndex(s.rows)
  {
    match a
    case Join(id, c, ns, d) => if id in s.rows || HasActive(s.rows, c) || d.Unsent? then [] else [Fairness.Join(c, ScoreOf(ns))]
    case Abandon(c, d) =>
      if d.Unsent? || !exists id :: IsActiveRow(s.rows, id, c) && s.rows[id].status == Waiting then [] else [Fairness.DropWaiting(c)]
    case Complete(c, d) =>
      if d.Unsent? || !exists id :: IsActiveRow(s.rows, id, c) && s.rows[id].status == Admitted then [] else [Fairness.DropAdmitted(c)]
    case Admit(available, size, now, d, _) => if d.Unsent? then [] else [Fairness.Tick(available, size, now)]
    case Evict(cutoff, d, _) => if d.Unsent? then [] else [Fairness.Evict(cutoff)]
    case ExpireRows(_) => []
    case Recover(lost) => JoinsFor(RecoveredScores(s.queue, s.rows - lost))
    case Wipe => [Fairness.WipeAll]
  }

  ghost function StepsOfRun(s: State, run: seq<Op>): Steps
    requires UniqueIndex(s.rows)
    decreases run
  {
    if run == [] then [] else IndexKept(s, run[0]); StepsOf(s, run[0]) + StepsOfRun(Apply(s, run[0]), run[1..])
  }

  lemma {:induction false} StepsAppend(q: Fairness.Queue, r1: Steps, r2: Steps)
    ensures Fairness.Run(q, r1 + r2) == Fairness.Run(Fairness.Run(q, r1), r2)
    decreases r1
  {
    if r1 == [] {
      assert r1 + r2 == r2;
    } else {
      assert (r1 + r2)[1..] == r1[1..] + r2;
      StepsAppend(Fairness.Apply(q, r1[0]), r1[1..], r2);
    }
  }

  lemma NoStep(q: Fairness.Queue)
    ensures Fairness.Run(q, []) == q
  {
  }

  lemma OneStep(q: Fairness.Queue, a: Fairness.Step)
    ensures Fairness.Run(q, [a]) == Fairness.Apply(q, a)
  {
    assert [a][1..] == [];
  }

  lemma FirstJoin(scores: ZSet) returns (c: CustomerId)
    requires scores != map[]
    ensures c in scores && JoinsFor(scores) == [Fairness.Join(c, scores[c])] + JoinsFor(scores - {c})
  {
    c :| c in scores && JoinsFor(scores) == [Fairness.Join(c, scores[c])] + JoinsFor(scores - {c});
  }

  lemma JoinOne(q: Fairness.Queue, scores: ZSet, c: CustomerId)
    requires c in scores && forall x | x in scores :: x !in q.waiting && x !in q.admitted
    ensures var t := Fairness.Apply(q, Fairness.Join(c, scores[c]));
      && t == q.(waiting := q.waiting[c := scores[c]])
      && t.waiting + (scores - {c}) == q.waiting + scores
      && forall x | x in scores - {c} :: x !in t.waiting && x !in t.admitted
  {
  }

  /** Joining the members one by one, in whatever order, adds them all. */
  lemma {:induction false} JoinsAdd(q: Fairness.Queue, scores: ZSet)
    requires forall c | c in scores :: c !in q.waiting && c !in q.admitted
    ensures Fairness.Run(q, JoinsFor(scores)) == q.(waiting := q.waiting + scores)
    decreases |scores|
  {
    NoStep(q);
    if scores == map[] {
      assert q.waiting + scores == q.waiting;
    } else {
      var c := FirstJoin(scores);
      hide Fairness.Run, JoinsFor, Fairness.Apply;
      var a := Fairness.Join(c, scores[c]);
      JoinOne(q, scores, c);
      JoinsAdd(Fairness.Apply(q, a), scores - {c});
      StepsAppend(q, [a], JoinsFor(scores - {c}));
      OneStep(q, a);
    }
  }

  /** Every operation does to the two sets what its scripts do. */
  lemma OperationIsSteps(s: State, a: Op)
    requires UniqueIndex(s.rows)
    ensures Apply(s, a).queue == Fairness.Run(s.queue, StepsOf(s, a))
  {
    var steps := StepsOf(s, a);
    if a.Recover? {
      JoinsAdd(s.queue, RecoveredScores(s.queue, s.rows - a.lost));
    } else if |steps| == 1 {
      assert steps == [steps[0]];
      OneStep(s.queue, steps[0]);
    }
  }

  /** So every run of the services is, in Redis, a run of the scripts. */
  lemma {:induction false} ServicesAreSteps(s: State, run: seq<Op>)
    requires UniqueIndex(s.rows)
    ensures Run(s, run).queue == Fairness.Run(s.queue, StepsOfRun(s, run))
    decreases run
  {
    if run != [] {
      hide Apply, StepsOf;
      OperationIsSteps(s, run[0]);
      IndexKept(s, run[0]);
      ServicesAreSteps(Apply(s, run[0]), run[1..]);
      StepsAppend(s.queue, StepsOf(s, run[0]), StepsOfRun(Apply(s, run[0]), run[1..]));
    }
  }

  /** In no run of the services, whatever is lost or wiped, is the later of two waiting customers
      admitted while the earlier one is left waiting. */
  lemma ServicesNeverOvertake(s: State, run: seq<Op>, a: CustomerId, b: CustomerId)
    requires UniqueIndex(s.rows) && a in s.queue.waiting && b in s.queue.waiting && Before(s.queue.waiting, a, b)
    ensures !Fairness.Overtakes(s.queue, StepsOfRun(s, run), a, b)
  {
    Fairness.NoOvertaking(s.queue, StepsOfRun(s, run), a, b);
  }

  /** The places that the ticks of a run offer: min(counter, batch size) for each that reached Redis. */
  ghost function Places(run: seq<Op>): nat {
    if run == [] then 0
    else
      var n := if run[0].Admit? && !run[0].redis.Unsent? then Fairness.AdmitCount(run[0].available, run[0].batchSize) else 0;
      (if n > 0 then n else 0) + Places(run[1..])
  }

  /** Some tick of the run admits c. */
  ghost predicate ServedDuring(s: State, run: seq<Op>, c: CustomerId)
    requires UniqueIndex(s.rows)
    decreases run
  {
    run != [] &&
    ((run[0].Admit? && !run[0].redis.Unsent? && Fairness.Admits(s.queue, Fairness.Tick(run[0].available, run[0].batchSize, run[0].now), c))
     || (IndexKept(s, run[0]); ServedDuring(Apply(s, run[0]), run[1..], c)))
  }

  lemma {:induction false} JoinsOfferNothing(scores: ZSet)
    ensures Fairness.Offered(JoinsFor(scores)) == 0 && forall a | a in JoinsFor(scores) :: a.Join?
    decreases |scores|
  {
    if scores != map[] {
      var c := FirstJoin(scores);
      JoinsOfferNothing(scores - {c});
      hide JoinsFor;
      var rest := JoinsFor(scores - {c});
      assert ([Fairness.Join(c, scores[c])] + rest)[1..] == rest;
    }
  }

  lemma {:induction false} OfferedAppend(x: Steps, y: Steps)
    ensures Fairness.Offered(x + y) == Fairness.Offered(x) + Fairness.Offered(y)
  {
    if x == [] {
      assert x + y == y;
    } else {
      assert (x + y)[1..] == x[1..] + y;
      OfferedAppend(x[1..], y);
    }
  }

  /** The steps of an operation offer the places of its tick. */
  lemma StepsOffer(s: State, a: Op)
    requires UniqueIndex(s.rows)
    ensures Fairness.Offered(StepsOf(s, a)) == Places([a])
    ensures forall x | x in StepsOf(s, a) && x.Tick? :: a.Admit? && !a.redis.Unsent? && StepsOf(s, a) == [Fairness.Tick(a.available, a.batchSize, a.now)]
  {
    if a.Recover? {
      JoinsOfferNothing(RecoveredScores(s.queue, s.rows - a.lost));
    } else {
      var steps := StepsOf(s, a);
      if steps != [] { assert steps == [steps[0]] && steps[1..] == []; }
    }
    assert [a][1..] == [];
  }

  lemma {:induction false} RunOffers(s: State, run: seq<Op>)
    requires UniqueIndex(s.rows)
    ensures Fairness.Offered(StepsOfRun(s, run)) == Places(run)
    decreases run
  {
    if run != [] {
      hide StepsOf, Apply;
      StepsOffer(s, run[0]);
      IndexKept(s, run[0]);
      RunOffers(Apply(s, run[0]), run[1..]);
      OfferedAppend(StepsOf(s, run[0]), StepsOfRun(Apply(s, run[0]), run[1..]));
      assert [run[0]][1..] == [];
    }
  }

  lemma {:induction false} AdmittedLater(q: Fairness.Queue, x: Steps, y: Steps, c: CustomerId)
    requires Fairness.AdmittedDuring(q, x + y, c)
    ensures Fairness.AdmittedDuring(q, x, c) || Fairness.AdmittedDuring(Fairness.Run(q, x), y, c)
    decreases x
  {
    if x == [] {
      assert x + y == y;
    } else if !Fairness.Admits(q, x[0], c) {
      assert (x + y)[1..] == x[1..] + y;
      AdmittedLater(Fairness.Apply(q, x[0]), x[1..], y, c);
    }
  }

  lemma {:induction false} OnlyTicksAdmit(q: Fairness.Queue, x: Steps, c: CustomerId)
    requires Fairness.AdmittedDuring(q, x, c)
    ensures exists a :: a in x && a.Tick?
    decreases x
  {
    if !x[0].Tick? {
      OnlyTicksAdmit(Fairness.Apply(q, x[0]), x[1..], c);
      var a :| a in x[1..] && a.Tick?;
      assert a in x;
    }
  }

  /** An admission by the scripts of a run is an admission by one of its operations. */
  lemma {:induction false} ServedBySteps(s: State, run: seq<Op>, c: CustomerId)
    requires UniqueIndex(s.rows) && Fairness.AdmittedDuring(s.queue, StepsOfRun(s, run), c)
    ensures ServedDuring(s, run, c)
    decreases run
  {
    hide Apply, StepsOf;
    var a, steps := run[0], StepsOf(s, run[0]);
    IndexKept(s, a);
    AdmittedLater(s.queue, steps, StepsOfRun(Apply(s, a), run[1..]), c);
    OperationIsSteps(s, a);
    if Fairness.AdmittedDuring(s.queue, steps, c) {
      OnlyTicksAdmit(s.queue, steps, c);
      StepsOffer(s, a);
      var tick := Fairness.Tick(a.available, a.batchSize, a.now);
      assert steps == [tick] && [tick][1..] == [];
    } else {
      ServedBySteps(Apply(s, a), run[1..], c);
    }
  }

  /** Bounded waiting over runs of the services: a customer at rank p is admitted by the time the ticks
      have offered more than p places, whoever joins with a larger key, is recovered, leaves or expires;
      Patient says of the scripts of the run what it may not contain while c waits. */
  lemma ServicesServe(s: State, run: seq<Op>, c: CustomerId)
    requires UniqueIndex(s.rows) && c in s.queue.waiting && Fairness.Patient(s.queue, StepsOfRun(s, run), c)
    requires Places(run) > Rank(s.queue.waiting, c)
    ensures ServedDuring(s, run, c)
  {
    RunOffers(s, run);
    Fairness.BoundedWaiting(s.queue, StepsOfRun(s, run), c);
    ServedBySteps(s, run, c);
  }
}
