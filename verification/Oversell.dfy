/** What the ledger law means for whole runs: when tickets cannot be oversold, when they can, and
    what still holds after Redis has been wiped, rebuilt or resynchronised. */
module Oversell {
  import opened Domain
  import opened Protocol
  import opened Integrity
  import opened Ledger

  /** No statement of the run raises the ledger of event e. */
  ghost predicate Quiet(s: State, run: seq<Action>, e: EventId)
    decreases run
  {
    run == [] || (!Raises(s, run[0], e) && Quiet(Apply(s, run[0]), run[1..], e))
  }

  lemma CounterStaysNonNegative(s: State, a: Action, e: EventId)
    requires R(s, e) >= 0
    ensures Overwrites(s, a, e) || R(Apply(s, a), e) >= 0
  {
  }

  /** No oversell: in every run without a raising statement, whatever gets lost and however many
      claimants race, sold tickets and tickets about to be inserted fit into the total. */
  lemma {:induction false} NoOversell(s: State, run: seq<Action>, e: EventId)
    requires Sound(s) && e in s.events && R(s, e) >= 0 && Balance(s, e) <= s.events[e].total
    requires Quiet(s, run, e)
    ensures var t := Run(s, run); R(t, e) >= 0 && C(t, e) + F(t, e) + H(t, e) <= s.events[e].total
    decreases run
  {
    if run != [] {
      LedgerLaw(s, run[0], e);
      SoundStep(s, run[0]);
      CounterStaysNonNegative(s, run[0], e);
      NoOversell(Apply(s, run[0]), run[1..], e);
    }
  }

  // ---- how far the ledger can rise

  ghost predicate NoOverwrite(s: State, run: seq<Action>, e: EventId)
    decreases run
  {
    run == [] || (!Overwrites(s, run[0], e) && NoOverwrite(Apply(s, run[0]), run[1..], e))
  }

  /** How many statements of the run ignore a second miss or fail without a row. */
  ghost function Raised(s: State, run: seq<Action>, e: EventId): nat
    decreases run
  {
    if run == [] then 0
    else
      (if SecondMiss(s, run[0], e) || FailureWithoutRow(s, run[0], e) then 1 else 0) + Raised(Apply(s, run[0]), run[1..], e)
  }

  /** How many tickets the run loses: one for each lossy statement, the whole counter for a wipe. */
  ghost function Lost(s: State, run: seq<Action>, e: EventId): int
    decreases run
  {
    if run == [] then 0
    else
      (if run[0].Wipe? then R(s, e) else One(Loses(s, run[0], e))) + Lost(Apply(s, run[0]), run[1..], e)
  }

  /** Over every run without overwrites the balance is the old one plus what was raised minus what was
      lost; so at most that many tickets too many are ever sold, and a run that neither raises nor loses
      keeps it. */
  lemma {:induction false} BalanceOfRun(s: State, run: seq<Action>, e: EventId)
    requires Sound(s) && R(s, e) >= 0 && NoOverwrite(s, run, e)
    ensures var t := Run(s, run);
      && Balance(t, e) == Balance(s, e) + Raised(s, run, e) - Lost(s, run, e) && Lost(s, run, e) >= 0 && R(t, e) >= 0
      && C(t, e) + F(t, e) + H(t, e) <= Balance(s, e) + Raised(s, run, e)
    decreases run
  {
    if run != [] {
      var a := run[0];
      LedgerLaw(s, a, e);
      KindsApart(s, a, e);
      SoundStep(s, a);
      CounterStaysNonNegative(s, a, e);
      hide Apply, Loses, SecondMiss, FailureWithoutRow, Overwrites, Sound;
      BalanceOfRun(Apply(s, a), run[1..], e);
    }
  }

  /** Redis shows too few tickets, rather than too many, exactly while held decrements, owed increments
      and losses outweigh what was raised. */
  lemma UndercountIff(s: State, run: seq<Action>, e: EventId)
    requires Sound(s) && e in s.events && R(s, e) >= 0 && NoOverwrite(s, run, e) && Balance(s, e) == s.events[e].total
    ensures var t := Run(s, run);
      && e in t.events && t.events[e] == s.events[e]
      && (R(t, e) < t.events[e].total - C(t, e) - F(t, e) <==> H(t, e) + O(t, e) + Lost(s, run, e) > Raised(s, run, e))
  {
    BalanceOfRun(s, run, e);
    EvolvesRun(s, run);
  }

  /** A statement that raises does not lose. */
  lemma KindsApart(s: State, a: Action, e: EventId)
    ensures !(Loses(s, a, e) && (SecondMiss(s, a, e) || FailureWithoutRow(s, a, e)))
  {
  }

  // ---- the converse: a ledger above the total can always be turned into sold tickets

  lemma {:induction false} QuietAppend(s: State, r1: seq<Action>, r2: seq<Action>, e: EventId)
    requires Quiet(s, r1, e) && Quiet(Run(s, r1), r2, e)
    ensures Quiet(s, r1 + r2, e) && Run(s, r1 + r2) == Run(Run(s, r1), r2)
    decreases r1
  {
    if r1 == [] {
      assert r1 + r2 == r2;
    } else {
      assert (r1 + r2)[1..] == r1[1..] + r2;
      QuietAppend(Apply(s, r1[0]), r1[1..], r2, e);
    }
  }

  /** A single statement that does not raise the ledger, as a run. */
  lemma OneQuiet(s: State, a: Action, e: EventId)
    requires Sound(s) && !Raises(s, a, e)
    ensures Quiet(s, [a], e) && Run(s, [a]) == Apply(s, a)
    ensures Sound(Apply(s, a)) && Apply(s, a).events == s.events
  {
    SoundStep(s, a);
    EvolvesStep(s, a);
    assert [a][1..] == [];
  }

  lemma GiveOneBack(s: State, p: ProcId, e: EventId)
    requires Sound(s) && R(s, e) >= 0 && p in s.procs
    requires (s.procs[p].RollingBack? || s.procs[p].Owing?) && s.procs[p].event == e
    ensures var t := Apply(s, GiveBack(p, Answered));
      && !Raises(s, GiveBack(p, Answered), e)
      && Balance(t, e) == Balance(s, e) && R(t, e) >= 0 && H(t, e) + O(t, e) == H(s, e) + O(s, e) - 1
  {
    LedgerLaw(s, GiveBack(p, Answered), e);
    Entries(s, GiveBack(p, Answered), e);
  }

  /** A claim attempt whose INSERT is refused still holds its decrement. */
  lemma RefuseOne(s: State, p: ProcId, e: EventId)
    requires Sound(s) && p in s.procs && s.procs[p].Inserting? && s.procs[p].event == e
    ensures var t := Apply(s, InsertClaim(p, 0, false));
      && !Raises(s, InsertClaim(p, 0, false), e)
      && p in t.procs && t.procs[p] == RollingBack(e) && R(t, e) == R(s, e)
      && Balance(t, e) == Balance(s, e) && H(t, e) + O(t, e) == H(s, e) + O(s, e)
  {
    LedgerLaw(s, InsertClaim(p, 0, false), e);
    Entries(s, InsertClaim(p, 0, false), e);
  }

  /** One process that holds or owes gives its ticket back. */
  lemma Return(s: State, p: ProcId, e: EventId) returns (run: seq<Action>)
    requires Sound(s) && R(s, e) >= 0 && p in s.procs && (Holds(s.procs[p], e) || Owes(s.procs[p], e))
    ensures var t := Run(s, run);
      && Quiet(s, run, e) && Sound(t) && t.events == s.events
      && Balance(t, e) == Balance(s, e) && R(t, e) >= 0 && H(t, e) + O(t, e) < H(s, e) + O(s, e)
  {
    var refuse, give := InsertClaim(p, 0, false), GiveBack(p, Answered);
    if s.procs[p].Inserting? {
      var m := Apply(s, refuse);
      RefuseOne(s, p, e);
      OneQuiet(s, refuse, e);
      GiveOneBack(m, p, e);
      OneQuiet(m, give, e);
      QuietAppend(s, [refuse], [give], e);
      run := [refuse] + [give];
    } else {
      GiveOneBack(s, p, e);
      OneQuiet(s, give, e);
      run := [give];
    }
  }

  lemma BeginOne(s: State, p: ProcId, c: CustomerId, e: EventId)
    requires Sound(s) && p !in s.procs && !HasActiveClaim(s.claims, c, e)
    ensures var t := Apply(s, BeginClaim(p, c, e));
      && t == s.(procs := s.procs[p := Decrementing(c, e, false)])
      && Balance(t, e) == Balance(s, e) && H(t, e) + O(t, e) == H(s, e) + O(s, e)
  {
    LedgerLaw(s, BeginClaim(p, c, e), e);
    Entries(s, BeginClaim(p, c, e), e);
  }

  lemma TakeOne(s: State, p: ProcId, c: CustomerId, e: EventId)
    requires Sound(s) && p in s.procs && s.procs[p] == Decrementing(c, e, false) && R(s, e) > 0
    ensures var t := Apply(s, Decrement(p, Answered));
      && !Raises(s, Decrement(p, Answered), e)
      && t.claims == s.claims && t.procs == s.procs[p := Inserting(c, e)] && R(t, e) == R(s, e) - 1
      && Balance(t, e) == Balance(s, e) && H(t, e) + O(t, e) == H(s, e) + O(s, e) + 1
  {
    LedgerLaw(s, Decrement(p, Answered), e);
    Entries(s, Decrement(p, Answered), e);
  }

  lemma InsertOne(s: State, p: ProcId, c: CustomerId, e: EventId, id: ClaimId)
    requires Sound(s) && e in s.events && p in s.procs && s.procs[p] == Inserting(c, e) && id !in s.claims && !HasActiveClaim(s.claims, c, e)
    ensures var t := Apply(s, InsertClaim(p, id, true));
      Balance(t, e) == Balance(s, e) && R(t, e) == R(s, e) && H(t, e) + O(t, e) == H(s, e) + O(s, e) - 1
  {
    LedgerLaw(s, InsertClaim(p, id, true), e);
    Entries(s, InsertClaim(p, id, true), e);
  }

  /** One more customer claims a ticket while the counter is positive. */
  lemma ClaimOne(s: State, e: EventId) returns (run: seq<Action>)
    requires Sound(s) && e in s.events && R(s, e) > 0
    ensures var t := Run(s, run);
      && Quiet(s, run, e) && Sound(t) && t.events == s.events
      && Balance(t, e) == Balance(s, e) && R(t, e) == R(s, e) - 1 && H(t, e) + O(t, e) == H(s, e) + O(s, e)
  {
    var p := Fresh(s.procs.Keys);
    var id := Fresh(s.claims.Keys);
    var c := Fresh(set k | k in s.claims :: s.claims[k].customer);
    assert !HasActiveClaim(s.claims, c, e);
    var a0, a1, a2 := BeginClaim(p, c, e), Decrement(p, Answered), InsertClaim(p, id, true);
    BeginOne(s, p, c, e);
    OneQuiet(s, a0, e);
    var s1 := Apply(s, a0);
    TakeOne(s1, p, c, e);
    OneQuiet(s1, a1, e);
    var s2 := Apply(s1, a1);
    InsertOne(s2, p, c, e, id);
    OneQuiet(s2, a2, e);
    QuietAppend(s1, [a1], [a2], e);
    QuietAppend(s, [a0], [a1] + [a2], e);
    run := [a0] + ([a1] + [a2]);
  }

  /** Everything in the ledger can be turned into CLAIMED or CONFIRMED rows. */
  lemma {:induction false} SellOut(s: State, e: EventId) returns (run: seq<Action>)
    requires Sound(s) && e in s.events && R(s, e) >= 0
    ensures Quiet(s, run, e)
    ensures C(Run(s, run), e) + F(Run(s, run), e) == Balance(s, e)
    decreases H(s, e) + O(s, e), R(s, e)
  {
    var first: seq<Action>;
    if H(s, e) + O(s, e) > 0 {
      var p :| p in Holders(s.procs, e) + Owers(s.procs, e);
      first := Return(s, p, e);
    } else if R(s, e) > 0 {
      first := ClaimOne(s, e);
    } else {
      return [];
    }
    var rest := SellOut(Run(s, first), e);
    QuietAppend(s, first, rest, e);
    run := first + rest;
  }

  ghost predicate CanOversell(s: State, e: EventId)
    requires e in s.events
  {
    exists run :: Quiet(s, run, e) && C(Run(s, run), e) + F(Run(s, run), e) > s.events[e].total
  }

  /** The ledger is the exact measure of safety: some run without a raising statement oversells the
      event if and only if the balance is above the total. */
  lemma OversellIffOverBudget(s: State, e: EventId)
    requires Sound(s) && e in s.events && R(s, e) >= 0
    ensures CanOversell(s, e) <==> Balance(s, e) > s.events[e].total
  {
    if Balance(s, e) > s.events[e].total {
      var run := SellOut(s, e);
    } else {
      forall run | Quiet(s, run, e)
        ensures C(Run(s, run), e) + F(Run(s, run), e) <= s.events[e].total
      {
        NoOversell(s, run, e);
      }
    }
  }

  /** An uninterrupted reconcileEvent whose write arrives. */
  function SyncPass(p: ProcId, e: EventId): seq<Action> { [ReadCount(p, e, false), WriteCount(p, Answered)] }

  lemma SyncPassEffect(s: State, p: ProcId, e: EventId)
    requires Sound(s) && e in s.events && p !in s.procs
    ensures var t := Run(s, SyncPass(p, e));
      && t == s.(counters := s.counters[e := s.events[e].total - C(s, e)])
      && Balance(t, e) == s.events[e].total + F(s, e) + H(s, e) + O(s, e)
  {
    hide Run, Sound;
    CountPass(s, p, e, false, Answered);
  }

  /** Reconciliation counts CLAIMED rows only.  It therefore leaves an event that can be oversold
      exactly when a ticket is confirmed, or a decrement held or an increment owed, at that moment. */
  lemma SyncPassSafeIff(s: State, p: ProcId, e: EventId)
    requires Sound(s) && e in s.events && p !in s.procs && C(s, e) <= s.events[e].total
    ensures Run(s, SyncPass(p, e)).events == s.events
    ensures var t := Run(s, SyncPass(p, e));
      CanOversell(t, e) <==> F(s, e) > 0 || H(s, e) > 0 || O(s, e) > 0
  {
    SyncPassEffect(s, p, e);
    var t := Run(s, SyncPass(p, e));
    EvolvesRun(s, SyncPass(p, e));
    OversellIffOverBudget(t, e);
  }

  // ---- the weaker budget, which leaves confirmed tickets out and survives resynchronisation

  function Unsold(s: State, e: EventId): int {
    R(s, e) + C(s, e) + H(s, e) + O(s, e)
  }

  /** Every count read from Postgres and not yet written is a real count. */
  ghost predicate CountsReal(s: State, e: EventId) {
    forall p | p in s.procs && (s.procs[p].Syncing? || s.procs[p].Warming?) && s.procs[p].event == e :: s.procs[p].count >= 0
  }

  ghost predicate WithinBudget(s: State, e: EventId) {
    e in s.events && R(s, e) >= 0 && Unsold(s, e) <= s.events[e].total && CountsReal(s, e)
  }

  /** A statement that may resynchronise: what it writes still fits beside the claimed rows, the
      held decrements and the owed increments. */
  ghost predicate Fits(s: State, a: Action, e: EventId)
    requires e in s.events
  {
    && !SecondMiss(s, a, e) && !FailureWithoutRow(s, a, e)
    && (Overwrites(s, a, e) ==> s.procs[a.p].count + C(s, e) + H(s, e) + O(s, e) <= s.events[e].total)
  }

  ghost predicate Calm(s: State, run: seq<Action>, e: EventId)
    requires e in s.events
    decreases run
  {
    run == [] || (Fits(s, run[0], e) && Calm(Apply(s, run[0]), run[1..], e))
  }

  lemma ConfirmedRowsStay(s: State, a: Action, e: EventId)
    requires Sound(s)
    ensures F(s, e) <= F(Apply(s, a), e)
  {
    EvolvesStep(s, a);
    var x, y := RowsIn(s.claims, e, Confirmed), RowsIn(Apply(s, a).claims, e, Confirmed);
    assert x <= y;
    assert y == x + (y - x);
  }

  /** A pending count is what the tables say at the moment it is read. */
  lemma CountReadNow(s: State, a: Action)
    requires !a.Wipe? && Effects(s, a).1.Some? && (Effects(s, a).1.value.Syncing? || Effects(s, a).1.value.Warming?)
    ensures var q := Effects(s, a).1.value;
      (a.p in s.procs && s.procs[a.p] == q)
      || (q.event in s.events && q.count == s.events[q.event].total - C(s, q.event))
  {
  }

  lemma CountsStayReal(s: State, a: Action, e: EventId)
    requires WithinBudget(s, e)
    ensures CountsReal(Apply(s, a), e)
  {
    var t := Apply(s, a);
    forall p | p in t.procs && (t.procs[p].Syncing? || t.procs[p].Warming?) && t.procs[p].event == e
      ensures t.procs[p].count >= 0
    {
      if p !in s.procs || t.procs[p] != s.procs[p] { CountReadNow(s, a); }
    }
  }

  lemma BudgetStep(s: State, a: Action, e: EventId)
    requires Sound(s) && WithinBudget(s, e) && Fits(s, a, e)
    ensures WithinBudget(Apply(s, a), e)
  {
    LedgerLaw(s, a, e);
    ConfirmedRowsStay(s, a, e);
    CountsStayReal(s, a, e);
    if Overwrites(s, a, e) {
      assert CountsReal(s, e);
    } else {
      CounterStaysNonNegative(s, a, e);
    }
  }

  /** Across any number of wipes, recoveries and resynchronisations that fit, CLAIMED rows stay
      within the total, so the derived count T - CLAIMED is never negative, and a present counter is
      never the -1 that stands for a missing one. */
  lemma {:induction false} BudgetAcrossWipes(s: State, run: seq<Action>, e: EventId)
    requires Sound(s) && WithinBudget(s, e) && Calm(s, run, e)
    ensures var t := Run(s, run);
      && WithinBudget(t, e) && C(t, e) <= t.events[e].total
      && (e in t.counters ==> t.counters[e] != -1)
    decreases run
  {
    if run != [] {
      BudgetStep(s, run[0], e);
      SoundStep(s, run[0]);
      BudgetAcrossWipes(Apply(s, run[0]), run[1..], e);
    }
  }

  /** An uninterrupted pass of reconciliation or recovery fits exactly when no decrement is held and
      no increment owed, unless recovery finds the key in place and writes nothing. */
  lemma PassFitsIff(s: State, p: ProcId, e: EventId, onlyIfMissing: bool)
    requires Sound(s) && e in s.events && p !in s.procs
    ensures Calm(s, [ReadCount(p, e, onlyIfMissing), WriteCount(p, Answered)], e)
       <==> (onlyIfMissing && e in s.counters) || (H(s, e) == 0 && O(s, e) == 0)
  {
    var read, write := ReadCount(p, e, onlyIfMissing), WriteCount(p, Answered);
    var s1 := Apply(s, read);
    Entries(s, read, e);
    ProcPut(s.procs, p, s1.procs[p], e);
    assert [read, write][1..] == [write];
    assert Calm(Apply(s1, write), [write][1..], e);
    assert Calm(s1, [write], e) <==> Fits(s1, write, e);
  }

  /** The refill of a claim attempt: a miss, the count, and the warm-up, which nobody interrupts. */
  function RefillPass(p: ProcId, d: Delivery): seq<Action> {
    [Decrement(p, Answered), CountFromPostgres(p), WarmCache(p, d)]
  }

  lemma RefillMiss(s: State, p: ProcId, c: CustomerId, e: EventId)
    requires Sound(s) && e in s.events && p in s.procs && s.procs[p] == Decrementing(c, e, false) && e !in s.counters
    ensures Apply(s, Decrement(p, Answered)) == s.(procs := s.procs[p := Counting(c, e)])
    ensures Fits(s, Decrement(p, Answered), e)
    ensures var t := Apply(s, Decrement(p, Answered)); H(t, e) + O(t, e) == H(s, e) + O(s, e)
  {
    Entries(s, Decrement(p, Answered), e);
  }

  lemma RefillCount(s: State, p: ProcId, c: CustomerId, e: EventId)
    requires p in s.procs && s.procs[p] == Counting(c, e) && e in s.events
    ensures var n := s.events[e].total - C(s, e);
      Apply(s, CountFromPostgres(p)) == s.(procs := if n <= 0 then s.procs - {p} else s.procs[p := Warming(c, e, n)])
    ensures Fits(s, CountFromPostgres(p), e)
    ensures var t := Apply(s, CountFromPostgres(p)); H(t, e) + O(t, e) == H(s, e) + O(s, e)
  {
    Entries(s, CountFromPostgres(p), e);
  }

  lemma RefillWrite(s: State, p: ProcId, c: CustomerId, e: EventId, d: Delivery)
    requires e in s.events && (p in s.procs ==> s.procs[p] == Warming(c, e, s.events[e].total - C(s, e)))
    ensures Fits(s, WarmCache(p, d), e) <==> p !in s.procs || d.Unsent? || (H(s, e) == 0 && O(s, e) == 0)
  {
  }

  /** The refill fits exactly if nothing is held or owed, or it writes nothing. */
  lemma RefillFitsIff(s: State, p: ProcId, c: CustomerId, e: EventId, d: Delivery)
    requires Sound(s) && e in s.events && p in s.procs && s.procs[p] == Decrementing(c, e, false) && e !in s.counters
    ensures Calm(s, RefillPass(p, d), e)
       <==> d.Unsent? || s.events[e].total <= C(s, e) || (H(s, e) == 0 && O(s, e) == 0)
  {
    hide Apply, Sound, Fits, CountActive, H, O, Calm;
    var r := RefillPass(p, d);
    var s1, s2 := Apply(s, r[0]), Apply(Apply(s, r[0]), r[1]);
    RefillMiss(s, p, c, e);
    RefillCount(s1, p, c, e);
    RefillWrite(s2, p, c, e, d);
    CalmThree(s, r[0], r[1], r[2], e);
  }

  lemma CalmThree(s: State, a: Action, b: Action, c: Action, e: EventId)
    requires e in s.events && e in Apply(s, a).events && e in Apply(Apply(s, a), b).events
    ensures Calm(s, [a, b, c], e) <==> Fits(s, a, e) && Fits(Apply(s, a), b, e) && Fits(Apply(Apply(s, a), b), c, e)
  {
    hide Apply, Fits;
    assert [a, b, c][1..] == [b, c] && [b, c][1..] == [c] && [c][1..] == [];
    EventsStay(s, a);
    EventsStay(Apply(s, a), b);
    EventsStay(Apply(Apply(s, a), b), c);
    var s1, s2 := Apply(s, a), Apply(Apply(s, a), b);
    assert Calm(Apply(s2, c), [], e);
    assert Calm(s2, [c], e) <==> Fits(s2, c, e);
    assert Calm(s1, [b, c], e) <==> Fits(s1, b, e) && Calm(s2, [c], e);
    assert Calm(s, [a, b, c], e) <==> Fits(s, a, e) && Calm(s1, [b, c], e);
  }

  lemma EventsStay(s: State, a: Action)
    ensures Apply(s, a).events == s.events
  {
  }

  /** What happens to one event, one thing after another: a statement of any process, a pass of
      reconciliation or recovery, or the refill of a claim attempt, which nobody interrupts. */
  datatype Turn = Statement(a: Action) | Pass(p: ProcId, onlyIfMissing: bool) | Refill(p: ProcId, d: Delivery)

  function Statements(t: Turn, e: EventId): seq<Action> {
    match t
    case Statement(a) => [a]
    case Pass(p, onlyIfMissing) => [ReadCount(p, e, onlyIfMissing), WriteCount(p, Answered)]
    case Refill(p, d) => RefillPass(p, d)
  }

  function AllStatements(turns: seq<Turn>, e: EventId): seq<Action> {
    if turns == [] then [] else Statements(turns[0], e) + AllStatements(turns[1..], e)
  }

  /** Passes and refills happen while no decrement is held and no increment owed; nothing else raises
      the ledger. */
  ghost predicate Orderly(s: State, turns: seq<Turn>, e: EventId)
    decreases turns
  {
    turns == [] ||
    ((match turns[0]
      case Statement(a) => !Raises(s, a, e)
      case Pass(p, _) => p !in s.procs && H(s, e) == 0 && O(s, e) == 0
      case Refill(p, _) =>
        p in s.procs && s.procs[p].Decrementing? && s.procs[p].event == e && !s.procs[p].retry && e !in s.counters
        && H(s, e) == 0 && O(s, e) == 0)
     && Orderly(Run(s, Statements(turns[0], e)), turns[1..], e))
  }

  lemma TurnFits(s: State, turns: seq<Turn>, e: EventId)
    requires Sound(s) && e in s.events && turns != [] && Orderly(s, turns, e)
    ensures Calm(s, Statements(turns[0], e), e)
  {
    match turns[0]
    case Statement(a) => assert [a][1..] == [];
    case Pass(p, onlyIfMissing) => PassFitsIff(s, p, e, onlyIfMissing);
    case Refill(p, d) => RefillFitsIff(s, p, s.procs[p].customer, e, d);
  }

  /** Claims, releases, payments, losses and wipes in any order, with any number of such passes and
      refills in between: CLAIMED rows never exceed the total, and a present counter is never the sentinel. */
  lemma {:induction false} BudgetAcrossPasses(s: State, turns: seq<Turn>, e: EventId)
    requires Sound(s) && WithinBudget(s, e) && Orderly(s, turns, e)
    ensures var t := Run(s, AllStatements(turns, e));
      && WithinBudget(t, e) && C(t, e) <= t.events[e].total
      && (e in t.counters ==> t.counters[e] >= 0)
    decreases turns
  {
    if turns != [] {
      var first := Statements(turns[0], e);
      TurnFits(s, turns, e);
      BudgetAcrossWipes(s, first, e);
      EvolvesRun(s, first);
      BudgetAcrossPasses(Run(s, first), turns[1..], e);
      RunAppend(s, first, AllStatements(turns[1..], e));
    }
  }
}
