/** Payments and claims under every interleaving of Initialize, webhooks, reconciliation, expiry and
    explicit release. */
module Settlement {
  import opened Domain
  import opened Protocol
  import opened Integrity

  /** The two rows of one purchase. */
  datatype Pair = Pair(payment: PaymentStatus, claim: ClaimStatus)

  function PairOf(s: State, pay: PaymentId): Pair
    requires pay in s.payments && s.payments[pay].claim in s.claims
  {
    Pair(s.payments[pay].status, s.claims[s.payments[pay].claim].status)
  }

  predicate Agree(pair: Pair) {
    (pair.payment == Paid <==> pair.claim == Confirmed) && (pair.payment == Failed ==> pair.claim == Released)
  }

  /** A payment is CONFIRMED exactly when its claim is, a FAILED payment's claim is RELEASED, and
      nobody holds a CONFIRMED claim without a payment. */
  ghost predicate Consistent(s: State)
    requires PaymentKeys(s)
  {
    && (forall k | k in s.payments :: Agree(PairOf(s, k)))
    && (forall c | c in s.claims && s.claims[c].status == Confirmed :: HasPayment(s, c))
  }

  lemma CommitPair(s: State, a: Action, pay: PaymentId)
    requires Sound(s) && pay in s.payments && a.Commit? && a.p in s.procs && s.procs[a.p].TxBoth?
    requires pay in Apply(s, a).payments && Apply(s, a).payments[pay].claim in Apply(s, a).claims
    ensures PairOf(Apply(s, a), pay)
         == (if a.ok && s.procs[a.p].payment == pay
             then Pair(PaymentTarget(s.procs[a.p].outcome), ClaimTarget(s.procs[a.p].outcome)) else PairOf(s, pay))
    ensures a.ok && s.procs[a.p].payment == pay ==> PairOf(s, pay) == Pair(Expected(s.procs[a.p].outcome), Claimed)
  {
    var q := s.procs[a.p];
    assert Remembers(s, q);
    if q.payment != pay { assert q.claim != s.payments[pay].claim; }
  }

  lemma InsertsKeepRows(s: State, a: Action)
    requires a.InsertPayment? || a.InsertClaim?
    ensures forall k | k in s.payments :: k in Apply(s, a).payments && Apply(s, a).payments[k] == s.payments[k]
    ensures forall c | c in s.claims :: c in Apply(s, a).claims && Apply(s, a).claims[c] == s.claims[c]
  {
  }

  /** Only three statements write an existing payment or claim row. */
  lemma OtherStatementsKeepPairs(s: State, a: Action, pay: PaymentId)
    requires Sound(s) && pay in s.payments && !a.Commit? && !a.ReleaseRow? && !a.MarkPending?
    requires pay in Apply(s, a).payments && Apply(s, a).payments[pay].claim in Apply(s, a).claims
    ensures PairOf(Apply(s, a), pay) == PairOf(s, pay)
  {
    hide Continue, Open;
    if a.InsertPayment? || a.InsertClaim? {
      InsertsKeepRows(s, a);
    } else if !a.Wipe? {
      assert Effects(s, a).0.payments == s.payments && Effects(s, a).0.claims == s.claims;
    }
  }

  lemma MarkPendingPair(s: State, a: Action, pay: PaymentId)
    requires Sound(s) && pay in s.payments && a.MarkPending?
    requires pay in Apply(s, a).payments && Apply(s, a).payments[pay].claim in Apply(s, a).claims
    ensures var before, after := PairOf(s, pay), PairOf(Apply(s, a), pay);
      after == before || (before.payment == Initializing && after == before.(payment := Pending))
  {
  }

  lemma ReleasePair(s: State, a: Action, pay: PaymentId)
    requires Sound(s) && pay in s.payments && a.ReleaseRow?
    requires pay in Apply(s, a).payments && Apply(s, a).payments[pay].claim in Apply(s, a).claims
    ensures var before, after := PairOf(s, pay), PairOf(Apply(s, a), pay);
      after == (if before.claim == Claimed && a.p !in s.procs && a.id == s.payments[pay].claim && !ClaimLocked(s.procs, a.id)
                then before.(claim := Released) else before)
  {
  }

  /** How one statement moves the pair of one payment, seen from the pair alone. */
  lemma PairMoves(s: State, a: Action, pay: PaymentId)
    requires Sound(s) && pay in s.payments
    ensures Sound(Apply(s, a)) && pay in Apply(s, a).payments
    ensures var before, after := PairOf(s, pay), PairOf(Apply(s, a), pay);
      || after == before
      || (before.payment == Initializing && after == before.(payment := Pending))
      || (before == Pair(Pending, Claimed) && after == Pair(Paid, Confirmed))
      || (before.payment in {Initializing, Pending} && before.claim == Claimed && after == Pair(Failed, Released))
      || (before.claim == Claimed && after == before.(claim := Released))
  {
    SoundStep(s, a);
    EvolvesStep(s, a);
    if a.Commit? && a.p in s.procs && s.procs[a.p].TxBoth? {
      assert SaneOutcome(s.procs[a.p]);
      CommitPair(s, a, pay);
    } else if a.ReleaseRow? {
      ReleasePair(s, a, pay);
    } else if a.MarkPending? {
      MarkPendingPair(s, a, pay);
    } else if !a.Commit? {
      OtherStatementsKeepPairs(s, a, pay);
    }
  }

  /** Only the COMMIT of a confirmation makes a claim CONFIRMED. */
  lemma ConfirmedByCommit(s: State, a: Action, c: ClaimId)
    requires !a.Wipe? && c in Effects(s, a).0.claims && Effects(s, a).0.claims[c].status == Confirmed
    requires c in s.claims ==> s.claims[c].status != Confirmed
    ensures a.p in s.procs && s.procs[a.p].TxBoth? && s.procs[a.p].claim == c
  {
    hide PaymentLocked, ClaimLocked, HasActiveClaim, CountActive;
  }

  /** A claim becomes CONFIRMED only together with its payment. */
  lemma ConfirmedHasPayment(s: State, a: Action, c: ClaimId)
    requires Sound(s) && Consistent(s) && c in Apply(s, a).claims && Apply(s, a).claims[c].status == Confirmed
    ensures HasPayment(Apply(s, a), c)
  {
    hide Continue, Open;
    var t := Apply(s, a);
    EvolvesStep(s, a);
    if c in s.claims && s.claims[c].status == Confirmed {
      var k :| k in s.payments && s.payments[k].claim == c;
      assert t.payments[k].claim == c;
    } else {
      ConfirmedByCommit(s, a, c);
      var q := s.procs[a.p];
      assert Remembers(s, q);
      assert t.payments[q.payment].claim == c;
    }
  }

  /** A payment row is new only for a claim that had none, which is therefore not CONFIRMED. */
  lemma NewPaymentAgrees(s: State, a: Action, k: PaymentId)
    requires Sound(s) && Consistent(s) && k in Apply(s, a).payments && k !in s.payments
    ensures Apply(s, a).payments[k].claim in s.claims && Agree(Pair(Apply(s, a).payments[k].status, s.claims[Apply(s, a).payments[k].claim].status))
    ensures Apply(s, a).claims == s.claims
  {
    hide PaymentLocked, ClaimLocked, HasActiveClaim, CountActive;
    if !a.InsertPayment? { SameKeys(s, a); }
    var q := s.procs[a.p];
    assert Remembers(s, q);
    assert !HasPayment(s, q.claim);
  }

  lemma ConsistentStep(s: State, a: Action)
    requires Sound(s) && Consistent(s)
    ensures Sound(Apply(s, a)) && Consistent(Apply(s, a))
  {
    SoundStep(s, a);
    var t := Apply(s, a);
    forall k | k in t.payments
      ensures Agree(PairOf(t, k))
    {
      if k in s.payments {
        assert Agree(PairOf(s, k));
        PairMoves(s, a, k);
      } else {
        NewPaymentAgrees(s, a, k);
      }
    }
    forall c | c in t.claims && t.claims[c].status == Confirmed
      ensures HasPayment(t, c)
    {
      ConfirmedHasPayment(s, a, c);
    }
  }

  /** Payments and claims agree in every reachable state. */
  lemma {:induction false} ConsistentRun(s: State, run: seq<Action>)
    requires Sound(s) && Consistent(s)
    ensures Sound(Run(s, run)) && Consistent(Run(s, run))
    decreases run
  {
    if run != [] {
      ConsistentStep(s, run[0]);
      ConsistentRun(Apply(s, run[0]), run[1..]);
    }
  }

  lemma AlwaysConsistent(s: State, run: seq<Action>)
    requires Initial(s)
    ensures Sound(Run(s, run)) && Consistent(Run(s, run))
  {
    ConsistentRun(s, run);
  }

  // ---- first writer wins

  /** The statement that decides a pending purchase, and what it decides: the COMMIT of one of the
      two transactions, or a release of the claim. */
  function Verdict(s: State, a: Action, pay: PaymentId): Option<Pair>
    requires pay in s.payments
  {
    if a.Commit? && a.ok && a.p in s.procs && s.procs[a.p].TxBoth? && s.procs[a.p].payment == pay then
      Some(if s.procs[a.p].outcome.Confirm? then Pair(Paid, Confirmed) else Pair(Failed, Released))
    else if a.ReleaseRow? && a.p !in s.procs && a.id == s.payments[pay].claim && !ClaimLocked(s.procs, a.id) then
      Some(Pair(Pending, Released))
    else
      None
  }

  function FirstVerdict(s: State, run: seq<Action>, pay: PaymentId): Pair
    requires pay in s.payments
    decreases run
  {
    if run == [] then Pair(Pending, Claimed)
    else if Verdict(s, run[0], pay).Some? then Verdict(s, run[0], pay).value
    else
      var t := Apply(s, run[0]);
      if pay in t.payments then FirstVerdict(t, run[1..], pay) else Pair(Pending, Claimed)
  }

  predicate Settled(pair: Pair) {
    pair == Pair(Paid, Confirmed) || pair == Pair(Failed, Released) || pair == Pair(Pending, Released)
  }

  lemma VerdictStep(s: State, a: Action, pay: PaymentId)
    requires Sound(s) && pay in s.payments && PairOf(s, pay) == Pair(Pending, Claimed)
    ensures Sound(Apply(s, a)) && pay in Apply(s, a).payments
    ensures PairOf(Apply(s, a), pay)
         == (if Verdict(s, a, pay).Some? then Verdict(s, a, pay).value else Pair(Pending, Claimed))
  {
    SoundStep(s, a);
    EvolvesStep(s, a);
    if a.Commit? && a.p in s.procs && s.procs[a.p].TxBoth? {
      assert SaneOutcome(s.procs[a.p]);
      CommitPair(s, a, pay);
    } else if a.ReleaseRow? {
      ReleasePair(s, a, pay);
    } else if a.MarkPending? {
      MarkPendingPair(s, a, pay);
    } else if !a.Commit? {
      OtherStatementsKeepPairs(s, a, pay);
    }
  }

  /** Once decided, both rows are frozen: whatever runs afterwards finds no matching row or is
      rolled back. */
  lemma {:induction false} SettledForGood(s: State, run: seq<Action>, pay: PaymentId)
    requires Sound(s) && pay in s.payments && Settled(PairOf(s, pay))
    ensures Sound(Run(s, run)) && pay in Run(s, run).payments
    ensures PairOf(Run(s, run), pay) == PairOf(s, pay)
    decreases run
  {
    if run != [] {
      PairMoves(s, run[0], pay);
      SettledForGood(Apply(s, run[0]), run[1..], pay);
    }
  }

  /** First writer wins: a pending purchase ends every run in the pair fixed by the first deciding
      statement of that run, or is still undecided if there was none. */
  lemma {:induction false} FirstWriterWins(s: State, run: seq<Action>, pay: PaymentId)
    requires Sound(s) && pay in s.payments && PairOf(s, pay) == Pair(Pending, Claimed)
    ensures Sound(Run(s, run)) && pay in Run(s, run).payments
    ensures PairOf(Run(s, run), pay) == FirstVerdict(s, run, pay)
    decreases run
  {
    if run != [] {
      VerdictStep(s, run[0], pay);
      if Verdict(s, run[0], pay).Some? {
        SettledForGood(Apply(s, run[0]), run[1..], pay);
      } else {
        FirstWriterWins(Apply(s, run[0]), run[1..], pay);
      }
    }
  }
}
