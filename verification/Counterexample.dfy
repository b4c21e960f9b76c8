/** Small runs that oversell: a reconciliation after a sale, a failure webhook delivered twice, and
    cache misses that are ignored. */
module Counterexample {
  import opened Domain
  import opened Protocol
  import opened Integrity
  import opened Ledger
  import opened Oversell

  /** One event on sale, nothing sold, the counter in place. */
  function Opening(e: EventId, total: nat, price: int): State {
    State(map[e := EventRow(total, price, Active)], map[e := total], map[], map[], map[], [])
  }

  /** The same event after one undisturbed purchase; n stands for every new id. */
  function AfterSale(e: EventId, total: nat, price: int, n: nat): State {
    State(map[e := EventRow(total, price, Active)], map[e := total - 1], map[n := ClaimRow(e, n, Confirmed)],
          map[n := PaymentRow(n, price, n, Paid)], map[], [Call(n, n, n, price, true)])
  }

  lemma RunCons(s: State, a: Action, t: State, rest: seq<Action>)
    requires Apply(s, a) == t
    ensures Run(s, [a] + rest) == Run(t, rest)
  {
    assert ([a] + rest)[1..] == rest;
  }

  /** A run of four, from the states in between. */
  lemma RunFour(s: seq<State>, a: seq<Action>)
    requires |s| == 5 && |a| == 4 && forall i | 0 <= i < 4 :: Apply(s[i], a[i]) == s[i + 1]
    ensures Run(s[0], a) == s[4]
  {
    hide Apply;
    RunCons(s[3], a[3], s[4], []);
    RunCons(s[2], a[2], s[3], [a[3]]);
    RunCons(s[1], a[1], s[2], [a[2], a[3]]);
    RunCons(s[0], a[0], s[1], [a[1], a[2], a[3]]);
    assert a == [a[0]] + [a[1], a[2], a[3]] && [a[1]] + [a[2], a[3]] == [a[1], a[2], a[3]];
    assert [a[2]] + [a[3]] == [a[2], a[3]] && [a[3]] + [] == [a[3]];
  }

  lemma ClaimPart(e: EventId, total: nat, price: int, n: nat) returns (run: seq<Action>)
    requires total > 0
    ensures Run(Opening(e, total, price), run)
         == Opening(e, total, price).(counters := map[e := total - 1], claims := map[n := ClaimRow(e, n, Claimed)])
  {
    var s0 := Opening(e, total, price);
    var s1 := s0.(procs := map[n := Decrementing(n, e, false)]);
    var s2 := s0.(counters := map[e := total - 1], procs := map[n := Inserting(n, e)]);
    var s3 := s0.(counters := map[e := total - 1], claims := map[n := ClaimRow(e, n, Claimed)]);
    assert s2.procs - {n} == map[];
    RunCons(s2, InsertClaim(n, n, true), s3, []);
    RunCons(s1, Decrement(n, Answered), s2, [InsertClaim(n, n, true)]);
    run := [BeginClaim(n, n, e)] + ([Decrement(n, Answered)] + [InsertClaim(n, n, true)]);
    assert [InsertClaim(n, n, true)] + [] == [InsertClaim(n, n, true)];
    RunCons(s0, BeginClaim(n, n, e), s1, run[1..]);
  }

  /** The stores between the claim and the confirmation, with the payment in a given status. */
  function Paying(e: EventId, total: nat, price: int, n: nat, st: PaymentStatus, log: seq<Call>): State {
    AfterSale(e, total, price, n).(claims := map[n := ClaimRow(e, n, Claimed)],
                                payments := map[n := PaymentRow(n, price, n, st)], log := log)
  }

  /** A process that runs alone: validate, persist, call, record. */
  lemma PaymentAlone(s: State, n: nat, price: int)
    requires s.procs == map[] && s.payments == map[] && n in s.claims && s.claims[n].status == Claimed
    requires s.claims[n].event in s.events && s.events[s.claims[n].event].price == price
    ensures Apply(s, BeginPayment(n, n)) == s.(procs := map[n := Creating(n, price)])
    ensures Apply(s.(procs := map[n := Creating(n, price)]), InsertPayment(n, n, n))
         == s.(payments := map[n := PaymentRow(n, price, n, Initializing)], procs := map[n := Calling(n, n, n, price, false)])
  {
  }

  lemma CallAlone(s: State, n: nat, price: int)
    requires s.procs == map[n := Calling(n, n, n, price, false)] && s.payments == map[n := PaymentRow(n, price, n, Initializing)]
    ensures Apply(s, CallGateway(n, Success)) == s.(log := s.log + [Call(n, n, n, price, true)], procs := map[n := Accepted(n, n)])
  {
  }

  lemma PendingAlone(s: State, n: nat, price: int)
    requires s.procs == map[n := Accepted(n, n)] && s.payments == map[n := PaymentRow(n, price, n, Initializing)]
    ensures Apply(s, MarkPending(n)) == s.(payments := map[n := PaymentRow(n, price, n, Pending)], procs := map[])
  {
    assert s.procs - {n} == map[];
  }

  lemma PaymentPart(e: EventId, total: nat, price: int, n: nat) returns (run: seq<Action>)
    requires total > 0
    ensures Run(Opening(e, total, price).(counters := map[e := total - 1], claims := map[n := ClaimRow(e, n, Claimed)]), run)
         == Paying(e, total, price, n, Pending, [Call(n, n, n, price, true)])
  {
    hide Apply;
    var s0 := Opening(e, total, price).(counters := map[e := total - 1], claims := map[n := ClaimRow(e, n, Claimed)]);
    var s1 := s0.(procs := map[n := Creating(n, price)]);
    var s2 := Paying(e, total, price, n, Initializing, []).(procs := map[n := Calling(n, n, n, price, false)]);
    var s3 := Paying(e, total, price, n, Initializing, [Call(n, n, n, price, true)]).(procs := map[n := Accepted(n, n)]);
    PaymentAlone(s0, n, price);
    CallAlone(s2, n, price);
    PendingAlone(s3, n, price);
    run := [BeginPayment(n, n), InsertPayment(n, n, n), CallGateway(n, Success), MarkPending(n)];
    RunFour([s0, s1, s2, s3, Paying(e, total, price, n, Pending, [Call(n, n, n, price, true)])], run);
  }

  /** A transaction that runs alone. */
  lemma UpdatesAlone(s: State, n: nat, price: int, confirm: bool)
    requires s.procs == map[] && s.payments == map[n := PaymentRow(n, price, n, Pending)]
    requires n in s.claims && s.claims[n].status == Claimed
    ensures var o := if confirm then Confirm else Fail(Pending);
      && Apply(s, BeginSettle(n, n, confirm)) == s.(procs := map[n := TxOpen(n, n, o)])
      && Apply(s.(procs := map[n := TxOpen(n, n, o)]), UpdatePayment(n)) == s.(procs := map[n := TxPayment(n, n, o)])
  {
  }

  lemma ClaimUpdateAlone(s: State, n: nat, price: int, o: Outcome)
    requires s.procs == map[n := TxPayment(n, n, o)] && s.payments == map[n := PaymentRow(n, price, n, Pending)]
    requires n in s.claims && s.claims[n].status == Claimed
    ensures Apply(s, UpdateClaim(n)) == s.(procs := map[n := TxBoth(n, n, o)])
  {
  }

  lemma CommitAlone(s: State, n: nat, price: int, o: Outcome)
    requires s.procs == map[n := TxBoth(n, n, o)] && s.payments == map[n := PaymentRow(n, price, n, Pending)]
    requires n in s.claims
    ensures Apply(s, Commit(n, true))
         == s.(payments := map[n := PaymentRow(n, price, n, PaymentTarget(o))], claims := SetClaim(s.claims, n, ClaimTarget(o)),
               procs := if o.Confirm? then map[] else map[n := Owing(s.claims[n].event)])
  {
    hide PaymentLocked, ClaimLocked, HasActiveClaim;
    assert s.procs - {n} == map[];
  }

  lemma ConfirmPart(e: EventId, total: nat, price: int, n: nat) returns (run: seq<Action>)
    requires total > 0
    ensures Run(Paying(e, total, price, n, Pending, [Call(n, n, n, price, true)]), run) == AfterSale(e, total, price, n)
  {
    hide Apply;
    var s0 := Paying(e, total, price, n, Pending, [Call(n, n, n, price, true)]);
    var s1 := s0.(procs := map[n := TxOpen(n, n, Confirm)]);
    var s2 := s0.(procs := map[n := TxPayment(n, n, Confirm)]);
    var s3 := s0.(procs := map[n := TxBoth(n, n, Confirm)]);
    UpdatesAlone(s0, n, price, true);
    ClaimUpdateAlone(s2, n, price, Confirm);
    CommitAlone(s3, n, price, Confirm);
    run := [BeginSettle(n, n, true), UpdatePayment(n), UpdateClaim(n), Commit(n, true)];
    RunFour([s0, s1, s2, s3, AfterSale(e, total, price, n)], run);
  }

  /** Whatever the stock: from an event nobody has touched, one ordinary purchase and one undisturbed,
      error-free reconciliation lead to a state from which the event is oversold without another
      irregular statement. */
  lemma OneSaleOneSync(e: EventId, total: nat, price: int, n: nat) returns (sale: seq<Action>)
    requires total > 0
    ensures Initial(Opening(e, total, price)) && Balance(Opening(e, total, price), e) == total
    ensures var t := Run(Opening(e, total, price), sale + SyncPass(n, e));
      t.events == Opening(e, total, price).events && CanOversell(t, e)
  {
    var s0 := Opening(e, total, price);
    var r1 := ClaimPart(e, total, price, n);
    var r2 := PaymentPart(e, total, price, n);
    var r3 := ConfirmPart(e, total, price, n);
    RunAppend(s0, r1, r2);
    RunAppend(s0, r1 + r2, r3);
    sale := r1 + r2 + r3;
    var s := AfterSale(e, total, price, n);
    hide Run, Apply, CanOversell;
    assert Run(s0, sale) == s;
    RunAppend(s0, sale, SyncPass(n, e));
    InitialSound(s0);
    EvolvesRun(s0, sale);
    assert RowsIn(s.claims, e, Confirmed) == {n} && RowsIn(s.claims, e, Claimed) == {};
    SyncPassSafeIff(s, n, e);
    assert Balance(s0, e) == total by {
      assert RowsIn(s0.claims, e, Claimed) == {} && RowsIn(s0.claims, e, Confirmed) == {};
      assert Holders(s0.procs, e) == {} && Owers(s0.procs, e) == {};
    }
  }

  // ---- a failure webhook, delivered twice

  lemma GiveBackAlone(s: State, n: nat, e: EventId)
    requires s.procs == map[n := Owing(e)]
    ensures Apply(s, GiveBack(n, Answered)) == s.(counters := IncrementBy1(s.counters, e), procs := map[])
  {
    assert s.procs - {n} == map[];
  }

  /** The second delivery finds the payment FAILED, and goes on to give a ticket back. */
  lemma RepeatAlone(s: State, n: nat, price: int)
    requires s.procs == map[] && s.payments == map[n := PaymentRow(n, price, n, Failed)] && n in s.claims
    ensures Apply(s, BeginSettle(n, n, false)) == s.(procs := map[n := TxOpen(n, n, Fail(Pending))])
    ensures Apply(s.(procs := map[n := TxOpen(n, n, Fail(Pending))]), UpdatePayment(n))
         == s.(procs := map[n := Owing(s.claims[n].event)])
  {
  }

  /** The stores after a failure webhook, with a given counter. */
  function AfterFailure(e: EventId, total: nat, price: int, n: nat, counter: int): State {
    AfterSale(e, total, price, n).(counters := map[e := counter], claims := map[n := ClaimRow(e, n, Released)],
                                   payments := map[n := PaymentRow(n, price, n, Failed)])
  }

  lemma FailPart(e: EventId, total: nat, price: int, n: nat) returns (run: seq<Action>)
    requires total > 0
    ensures Run(Paying(e, total, price, n, Pending, [Call(n, n, n, price, true)]), run) == AfterFailure(e, total, price, n, total)
  {
    hide Apply;
    var s0 := Paying(e, total, price, n, Pending, [Call(n, n, n, price, true)]);
    var o := Fail(Pending);
    var s1, s2 := s0.(procs := map[n := TxOpen(n, n, o)]), s0.(procs := map[n := TxPayment(n, n, o)]);
    var s3 := s0.(procs := map[n := TxBoth(n, n, o)]);
    var s4 := AfterFailure(e, total, price, n, total - 1).(procs := map[n := Owing(e)]);
    UpdatesAlone(s0, n, price, false);
    ClaimUpdateAlone(s2, n, price, o);
    CommitAlone(s3, n, price, o);
    GiveBackAlone(s4, n, e);
    var four := [BeginSettle(n, n, false), UpdatePayment(n), UpdateClaim(n), Commit(n, true)];
    RunFour([s0, s1, s2, s3, s4], four);
    RunSnoc(s0, four, GiveBack(n, Answered));
    run := four + [GiveBack(n, Answered)];
  }

  lemma RepeatPart(e: EventId, total: nat, price: int, n: nat) returns (run: seq<Action>)
    ensures Run(AfterFailure(e, total, price, n, total), run) == AfterFailure(e, total, price, n, total + 1)
  {
    hide Apply;
    var s0 := AfterFailure(e, total, price, n, total);
    var s1, s2 := s0.(procs := map[n := TxOpen(n, n, Fail(Pending))]), s0.(procs := map[n := Owing(e)]);
    RepeatAlone(s0, n, price);
    GiveBackAlone(s2, n, e);
    var a, b, c := BeginSettle(n, n, false), UpdatePayment(n), GiveBack(n, Answered);
    RunCons(s2, c, AfterFailure(e, total, price, n, total + 1), []);
    RunCons(s1, b, s2, [c] + []);
    RunCons(s0, a, s1, [b] + ([c] + []));
    run := [a] + ([b] + ([c] + []));
  }

  /** Whatever the stock: one claim, one payment, and one failure webhook delivered twice leave one
      ticket too many, from which the event is oversold without another irregular statement. */
  lemma FailureDeliveredTwice(e: EventId, total: nat, price: int, n: nat) returns (run: seq<Action>)
    requires total > 0
    ensures Initial(Opening(e, total, price)) && Balance(Opening(e, total, price), e) == total
    ensures var t := Run(Opening(e, total, price), run);
      t.events == Opening(e, total, price).events && Balance(t, e) == total + 1 && CanOversell(t, e)
  {
    var s0 := Opening(e, total, price);
    var r1 := ClaimPart(e, total, price, n);
    var r2 := PaymentPart(e, total, price, n);
    var r3 := FailPart(e, total, price, n);
    var r4 := RepeatPart(e, total, price, n);
    RunAppend(s0, r1, r2);
    RunAppend(s0, r1 + r2, r3);
    RunAppend(s0, r1 + r2 + r3, r4);
    run := r1 + r2 + r3 + r4;
    var t := AfterFailure(e, total, price, n, total + 1);
    hide Run, Apply, CanOversell;
    assert Run(s0, run) == t;
    InitialSound(s0);
    EvolvesRun(s0, run);
    EmptyLedger(s0, e);
    EmptyLedger(t, e);
    OversellIffOverBudget(t, e);
  }

  lemma EmptyLedger(s: State, e: EventId)
    requires s.procs == map[] && forall id | id in s.claims :: s.claims[id].status == Released
    ensures Balance(s, e) == R(s, e)
  {
    assert RowsIn(s.claims, e, Claimed) == {} && RowsIn(s.claims, e, Confirmed) == {};
    assert Holders(s.procs, e) == {} && Owers(s.procs, e) == {};
  }

  // ---- cache misses that are ignored

  lemma MissBegins(s: State, p: ProcId, e: EventId)
    requires p !in s.procs && e in s.events && e !in s.counters && s.claims == map[] && s.events[e].total > 0
    ensures Apply(s, BeginClaim(p, p, e)) == s.(procs := s.procs[p := Decrementing(p, e, false)])
    ensures Apply(s.(procs := s.procs[p := Decrementing(p, e, false)]), Decrement(p, Answered))
         == s.(procs := s.procs[p := Counting(p, e)])
  {
    assert s.procs[p := Decrementing(p, e, false)][p := Counting(p, e)] == s.procs[p := Counting(p, e)];
  }

  /** A claimant misses, counts, and fails to warm the cache. */
  lemma MissOnce(s: State, p: ProcId, e: EventId)
    requires p !in s.procs && e in s.events && e !in s.counters && s.claims == map[] && s.events[e].total > 0
    ensures Run(s, [BeginClaim(p, p, e), Decrement(p, Answered), CountFromPostgres(p), WarmCache(p, Unsent)])
         == s.(procs := s.procs[p := Decrementing(p, e, true)])
  {
    hide Apply;
    var n := s.events[e].total;
    var s1, s2 := s.(procs := s.procs[p := Decrementing(p, e, false)]), s.(procs := s.procs[p := Counting(p, e)]);
    var s3, s4 := s.(procs := s.procs[p := Warming(p, e, n)]), s.(procs := s.procs[p := Decrementing(p, e, true)]);
    MissBegins(s, p, e);
    MissWarms(s, p, e);
    RunFour([s, s1, s2, s3, s4], [BeginClaim(p, p, e), Decrement(p, Answered), CountFromPostgres(p), WarmCache(p, Unsent)]);
  }

  lemma MissWarms(s: State, p: ProcId, e: EventId)
    requires p !in s.procs && e in s.events && s.claims == map[] && s.events[e].total > 0
    ensures var n := s.events[e].total;
      && Apply(s.(procs := s.procs[p := Counting(p, e)]), CountFromPostgres(p)) == s.(procs := s.procs[p := Warming(p, e, n)])
      && Apply(s.(procs := s.procs[p := Warming(p, e, n)]), WarmCache(p, Unsent)) == s.(procs := s.procs[p := Decrementing(p, e, true)])
  {
    assert RowsIn(s.claims, e, Claimed) == {};
    var n := s.events[e].total;
    assert s.procs[p := Counting(p, e)][p := Warming(p, e, n)] == s.procs[p := Warming(p, e, n)];
    assert s.procs[p := Warming(p, e, n)][p := Decrementing(p, e, true)] == s.procs[p := Decrementing(p, e, true)];
  }

  /** After the second miss the claimant inserts its row all the same. */
  lemma MissTwice(s: State, p: ProcId, e: EventId)
    requires p in s.procs && s.procs[p] == Decrementing(p, e, true) && e in s.events && e !in s.counters
    requires p !in s.claims && forall id | id in s.claims :: s.claims[id].customer != p
    ensures Run(s, [Decrement(p, Answered), InsertClaim(p, p, true)])
         == s.(procs := s.procs - {p}, claims := s.claims[p := ClaimRow(e, p, Claimed)])
  {
    var s1 := s.(procs := s.procs[p := Inserting(p, e)]);
    var s2 := s.(procs := s.procs - {p}, claims := s.claims[p := ClaimRow(e, p, Claimed)]);
    assert Apply(s, Decrement(p, Answered)) == s1;
    assert !HasActiveClaim(s1.claims, p, e);
    assert s1.procs - {p} == s.procs - {p};
    assert Apply(s1, InsertClaim(p, p, true)) == s2;
    RunCons(s1, InsertClaim(p, p, true), s2, []);
    RunCons(s, Decrement(p, Answered), s1, [InsertClaim(p, p, true)]);
    assert [InsertClaim(p, p, true)] + [] == [InsertClaim(p, p, true)];
    assert [Decrement(p, Answered)] + [InsertClaim(p, p, true)] == [Decrement(p, Answered), InsertClaim(p, p, true)];
  }

  /** The processes from j to k, about to decrement again. */
  function Waiters(e: EventId, j: nat, k: nat): map<ProcId, Proc>
    requires j <= k
  {
    if j == k then map[] else Waiters(e, j, k - 1)[k - 1 := Decrementing(k - 1, e, true)]
  }

  function Winners(e: EventId, j: nat): map<ClaimId, ClaimRow> {
    if j == 0 then map[] else Winners(e, j - 1)[j - 1 := ClaimRow(e, j - 1, Claimed)]
  }

  lemma {:induction false} WaitersAre(e: EventId, j: nat, k: nat)
    requires j <= k
    ensures forall i :: i in Waiters(e, j, k) <==> j <= i < k
    ensures forall i | i in Waiters(e, j, k) :: Waiters(e, j, k)[i] == Decrementing(i, e, true)
  {
    if j < k { WaitersAre(e, j, k - 1); }
  }

  lemma {:induction false} WinnersAre(e: EventId, j: nat)
    ensures forall i :: i in Winners(e, j) <==> 0 <= i < j
    ensures forall i | i in Winners(e, j) :: Winners(e, j)[i] == ClaimRow(e, i, Claimed)
    ensures |RowsIn(Winners(e, j), e, Claimed)| == j
  {
    if j == 0 {
      assert RowsIn(Winners(e, j), e, Claimed) == {};
    } else {
      WinnersAre(e, j - 1);
      assert RowsIn(Winners(e, j), e, Claimed) == RowsIn(Winners(e, j - 1), e, Claimed) + {j - 1};
    }
  }

  /** A wiped event with claimants from j to k about to retry, and rows for those before j. */
  function Missing(e: EventId, total: nat, price: int, j: nat, k: nat): State
    requires j <= k
  {
    State(map[e := EventRow(total, price, Active)], map[], Winners(e, j), map[], Waiters(e, j, k), [])
  }

  lemma {:induction false} AllMissOnce(e: EventId, total: nat, price: int, k: nat) returns (run: seq<Action>)
    requires total > 0
    ensures Run(Missing(e, total, price, 0, 0), run) == Missing(e, total, price, 0, k)
  {
    if k == 0 { return []; }
    var before := AllMissOnce(e, total, price, k - 1);
    var s, p := Missing(e, total, price, 0, k - 1), k - 1;
    var last := [BeginClaim(p, p, e), Decrement(p, Answered), CountFromPostgres(p), WarmCache(p, Unsent)];
    WaitersAre(e, 0, k - 1);
    MissOnce(s, p, e);
    RunAppend(Missing(e, total, price, 0, 0), before, last);
    run := before + last;
  }

  lemma {:induction false} AllMissTwice(e: EventId, total: nat, price: int, j: nat, k: nat) returns (run: seq<Action>)
    requires j <= k
    ensures Run(Missing(e, total, price, 0, k), run) == Missing(e, total, price, j, k)
  {
    if j == 0 { return []; }
    var before := AllMissTwice(e, total, price, j - 1, k);
    var s, t, p := Missing(e, total, price, j - 1, k), Missing(e, total, price, j, k), j - 1;
    var last := [Decrement(p, Answered), InsertClaim(p, p, true)];
    FirstWaiter(e, j - 1, k);
    WinnersAre(e, j - 1);
    MissTwice(s, p, e);
    hide Run, Waiters;
    RunAppend(Missing(e, total, price, 0, k), before, last);
    run := before + last;
  }

  lemma FirstWaiter(e: EventId, j: nat, k: nat)
    requires j < k
    ensures j in Waiters(e, j, k) && Waiters(e, j, k)[j] == Decrementing(j, e, true)
    ensures Waiters(e, j, k) - {j} == Waiters(e, j + 1, k)
  {
    WaitersAre(e, j, k);
    WaitersAre(e, j + 1, k);
    hide Waiters;
    assert forall i | i in Waiters(e, j + 1, k) :: i in Waiters(e, j, k) - {j};
  }

  /** Whatever the stock: after one wipe, one claimant more than there are tickets can all win, because
      none of their warm-ups arrives and all their second misses are ignored.  The counter is never
      written. */
  lemma EverybodyMissesTwice(e: EventId, total: nat, price: int) returns (run: seq<Action>)
    requires total > 0
    ensures var t := Run(Opening(e, total, price), [Wipe] + run);
      t.events == Opening(e, total, price).events && t.counters == map[] && C(t, e) == total + 1
  {
    var s0, s1 := Opening(e, total, price), Missing(e, total, price, 0, 0);
    assert s0.(counters := map[]) == s1;
    RunCons(s0, Wipe, s1, []);
    var r1 := AllMissOnce(e, total, price, total + 1);
    var r2 := AllMissTwice(e, total, price, total + 1, total + 1);
    RunAppend(s1, r1, r2);
    run := r1 + r2;
    RunCons(s0, Wipe, s1, run);
    WinnersAre(e, total + 1);
  }

  // ---- too few tickets

  /** Between the decrement of a claim and its INSERT the counter is one below the tickets left. */
  lemma DecrementUndercounts(e: EventId, total: nat, price: int, n: nat)
    requires total > 0
    ensures var t := Run(Opening(e, total, price), [BeginClaim(n, n, e), Decrement(n, Answered)]);
      e in t.events && R(t, e) == t.events[e].total - C(t, e) - F(t, e) - 1
  {
    var s0 := Opening(e, total, price);
    var s1 := s0.(procs := map[n := Decrementing(n, e, false)]);
    var s2 := s0.(counters := map[e := total - 1], procs := map[n := Inserting(n, e)]);
    RunCons(s1, Decrement(n, Answered), s2, []);
    RunCons(s0, BeginClaim(n, n, e), s1, [Decrement(n, Answered)] + []);
    assert [BeginClaim(n, n, e)] + ([Decrement(n, Answered)] + []) == [BeginClaim(n, n, e), Decrement(n, Answered)];
    assert RowsIn(s2.claims, e, Claimed) == {} && RowsIn(s2.claims, e, Confirmed) == {};
  }
}
