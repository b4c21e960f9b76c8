/** What the database constraints and the row locks keep in every reachable state. */
module Integrity {
  import opened Domain
  import opened Protocol

  /** Foreign key, one payment per claim, unique reference. */
  ghost predicate PaymentKeys(s: State) {
    && (forall k :: k in s.payments ==> s.payments[k].claim in s.claims)
    && (forall k, l :: k in s.payments && l in s.payments && k != l ==>
          s.payments[k].claim != s.payments[l].claim && s.payments[k].reference != s.payments[l].reference)
  }

  predicate HasPayment(s: State, c: ClaimId) {
    exists k :: k in s.payments && s.payments[k].claim == c
  }

  /** What a process remembers about the rows it works on is what the rows say. */
  ghost predicate Remembers(s: State, q: Proc) {
    match q
    case Creating(c, _) => c in s.claims
    case Calling(pay, c, r, amount, _) =>
      pay in s.payments && s.payments[pay].claim == c && s.payments[pay].reference == r && s.payments[pay].amount == amount
    case Accepted(pay, c) => pay in s.payments && s.payments[pay].claim == c
    case TxOpen(pay, c, _) => pay in s.payments && s.payments[pay].claim == c
    case TxPayment(pay, c, o) =>
      pay in s.payments && s.payments[pay].claim == c && s.payments[pay].status == Expected(o)
    case TxBoth(pay, c, o) =>
      pay in s.payments && s.payments[pay].claim == c && s.payments[pay].status == Expected(o)
      && c in s.claims && s.claims[c].status == Claimed
    case _ => true
  }

  /** A failure transaction expects an unfinished payment. */
  ghost predicate SaneOutcome(q: Proc) {
    (q.TxOpen? || q.TxPayment? || q.TxBoth?) && q.outcome.Fail? ==>
      q.outcome.expected == Initializing || q.outcome.expected == Pending
  }

  /** A payment row has at most one open transaction. */
  ghost predicate LocksExclusive(s: State) {
    forall p, q, pay :: p in s.procs && q in s.procs && HoldsPayment(s.procs[p], pay) && HoldsPayment(s.procs[q], pay) ==> p == q
  }

  ghost predicate Sound(s: State) {
    && PaymentKeys(s)
    && (forall p :: p in s.procs ==> Remembers(s, s.procs[p]) && SaneOutcome(s.procs[p]))
    && LocksExclusive(s)
  }

  /** How the tables may change over time: rows stay, their identifying columns never change, a
      claim leaves CLAIMED at most once and for good, and the log of gateway calls only grows. */
  ghost predicate Evolves(s: State, t: State) {
    && s.events == t.events
    && (forall k | k in s.payments ::
          k in t.payments && t.payments[k].(status := s.payments[k].status) == s.payments[k])
    && (forall c | c in s.claims ::
          && c in t.claims && t.claims[c].(status := s.claims[c].status) == s.claims[c]
          && (s.claims[c].status != Claimed ==> t.claims[c] == s.claims[c]))
    && s.log <= t.log
  }

  lemma CommitEvolves(s: State, a: Action)
    requires Sound(s) && a.Commit? && a.p in s.procs && s.procs[a.p].TxBoth?
    ensures Evolves(s, Effects(s, a).0)
  {
    hide PaymentLocked, ClaimLocked, LocksExclusive, PaymentKeys;
    assert Remembers(s, s.procs[a.p]);
  }

  lemma UpdateEvolves(s: State, a: Action)
    requires Sound(s) && (a.ReleaseRow? || a.MarkPending?)
    ensures Evolves(s, Effects(s, a).0)
  {
    hide PaymentLocked, ClaimLocked, Sound;
  }

  lemma InsertEvolves(s: State, a: Action)
    requires Sound(s) && (a.InsertPayment? || a.InsertClaim?)
    ensures Evolves(s, Effects(s, a).0)
  {
  }

  lemma CallEvolves(s: State, a: Action)
    requires a.CallGateway?
    ensures Evolves(s, Effects(s, a).0)
  {
    hide PaymentLocked, ClaimLocked, HasActiveClaim;
  }

  lemma EvolvesStep(s: State, a: Action)
    requires Sound(s)
    ensures Evolves(s, Apply(s, a))
  {
    hide Continue, Open, Sound;
    if a.Commit? && a.p in s.procs && s.procs[a.p].TxBoth? {
      CommitEvolves(s, a);
    } else if a.ReleaseRow? || a.MarkPending? {
      UpdateEvolves(s, a);
    } else if a.InsertPayment? || a.InsertClaim? {
      InsertEvolves(s, a);
    } else if a.CallGateway? {
      CallEvolves(s, a);
    } else if !a.Wipe? {
      var t := Effects(s, a).0;
      assert t.claims == s.claims && t.payments == s.payments && t.log == s.log;
    }
  }

  lemma {:induction false} EvolvesRun(s: State, run: seq<Action>)
    requires Sound(s)
    ensures Sound(Run(s, run)) && Evolves(s, Run(s, run))
    decreases run
  {
    if run != [] {
      SoundStep(s, run[0]);
      EvolvesStep(s, run[0]);
      EvolvesRun(Apply(s, run[0]), run[1..]);
    }
  }

  /** Only an INSERT adds a payment row. */
  lemma SameKeys(s: State, a: Action)
    requires !a.InsertPayment? && !a.Wipe?
    ensures Effects(s, a).0.payments.Keys == s.payments.Keys
  {
  }

  lemma InsertKeepsKeys(s: State, a: Action)
    requires Sound(s) && a.InsertPayment?
    ensures PaymentKeys(Apply(s, a))
  {
    if a.p in s.procs { assert Remembers(s, s.procs[a.p]); }
  }

  lemma KeysStep(s: State, a: Action)
    requires Sound(s)
    ensures PaymentKeys(Apply(s, a))
  {
    if a.InsertPayment? {
      InsertKeepsKeys(s, a);
    } else if !a.Wipe? {
      hide Continue, Open, Remembers;
      EvolvesStep(s, a);
      SameKeys(s, a);
    }
  }

  /** A locked payment row is written only by the holder of the lock. */
  lemma LockedPaymentStays(s: State, a: Action, pay: PaymentId)
    requires !a.Wipe? && pay in s.payments && PaymentLocked(s.procs, pay)
    requires a.p in s.procs ==> !HoldsPayment(s.procs[a.p], pay)
    ensures pay in Effects(s, a).0.payments && Effects(s, a).0.payments[pay] == s.payments[pay]
  {
    hide PaymentLocked, ClaimLocked, HasActiveClaim, CountActive;
  }

  lemma LockedClaimStays(s: State, a: Action, c: ClaimId)
    requires !a.Wipe? && c in s.claims && ClaimLocked(s.procs, c)
    requires a.p in s.procs ==> !HoldsClaim(s.procs[a.p], c)
    ensures c in Effects(s, a).0.claims && Effects(s, a).0.claims[c] == s.claims[c]
  {
    hide PaymentLocked, ClaimLocked, HasActiveClaim, CountActive;
  }

  /** A row that an open transaction has written is not written by anyone else. */
  lemma LocksProtect(s: State, a: Action, p: ProcId)
    requires Sound(s) && !a.Wipe? && p in s.procs && p != a.p
    ensures var q := s.procs[p]; var t := Effects(s, a).0;
      && (q.TxPayment? || q.TxBoth? ==> q.payment in s.payments && q.payment in t.payments && t.payments[q.payment] == s.payments[q.payment])
      && (q.TxBoth? ==> q.claim in s.claims && q.claim in t.claims && t.claims[q.claim] == s.claims[q.claim])
  {
    hide Continue, Open;
    var q := s.procs[p];
    assert Remembers(s, q);
    if q.TxPayment? || q.TxBoth? {
      assert HoldsPayment(q, q.payment);
      LockedPaymentStays(s, a, q.payment);
      if q.TxBoth? {
        assert HoldsClaim(q, q.claim);
        assert a.p in s.procs ==> Remembers(s, s.procs[a.p]);
        LockedClaimStays(s, a, q.claim);
      }
    }
  }

  lemma OthersRemember(s: State, a: Action, p: ProcId)
    requires Sound(s) && !a.Wipe? && p in s.procs && p != a.p
    ensures Remembers(Effects(s, a).0, s.procs[p])
  {
    EvolvesStep(s, a);
    LocksProtect(s, a, p);
  }

  lemma StarterRemembers(s: State, a: Action)
    requires Sound(s) && !a.Wipe? && Open(s, a).1.Some?
    ensures Remembers(Open(s, a).0, Open(s, a).1.value) && SaneOutcome(Open(s, a).1.value)
  {
    hide PaymentLocked, ClaimLocked, HasActiveClaim, CountActive, LocksExclusive;
  }

  lemma OneselfRemembers(s: State, a: Action)
    requires Sound(s) && !a.Wipe? && Effects(s, a).1.Some?
    ensures Remembers(Effects(s, a).0, Effects(s, a).1.value) && SaneOutcome(Effects(s, a).1.value)
  {
    hide PaymentLocked, ClaimLocked, HasActiveClaim, CountActive, LocksExclusive, Open, PaymentKeys;
    if a.p in s.procs {
      assert Remembers(s, s.procs[a.p]);
    } else {
      StarterRemembers(s, a);
    }
  }

  /** A payment row lock is taken only when nobody has it. */
  lemma LockTaken(s: State, a: Action, pay: PaymentId)
    requires !a.Wipe? && Effects(s, a).1.Some? && HoldsPayment(Effects(s, a).1.value, pay)
    ensures !PaymentLocked(s.procs, pay) || (a.p in s.procs && HoldsPayment(s.procs[a.p], pay))
  {
  }

  lemma LocksStep(s: State, a: Action)
    requires Sound(s)
    ensures LocksExclusive(Apply(s, a))
  {
    var t := Apply(s, a);
    if !a.Wipe? {
      forall p, q, pay | p in t.procs && q in t.procs && HoldsPayment(t.procs[p], pay) && HoldsPayment(t.procs[q], pay)
        ensures p == q
      {
        if p == a.p || q == a.p { LockTaken(s, a, pay); }
      }
    }
  }

  lemma SoundStep(s: State, a: Action)
    requires Sound(s)
    ensures Sound(Apply(s, a))
  {
    KeysStep(s, a);
    LocksStep(s, a);
    var t := Apply(s, a);
    if !a.Wipe? {
      forall p | p in t.procs
        ensures Remembers(t, t.procs[p]) && SaneOutcome(t.procs[p])
      {
        if p == a.p { OneselfRemembers(s, a); } else { OthersRemember(s, a, p); }
      }
    }
  }

  /** A claim that is no longer CLAIMED stays as it is, whatever runs. */
  lemma StaysReleased(s: State, run: seq<Action>, id: ClaimId)
    requires Sound(s) && id in s.claims && s.claims[id].status != Claimed
    ensures Sound(Run(s, run)) && id in Run(s, run).claims && Run(s, run).claims[id] == s.claims[id]
  {
    EvolvesRun(s, run);
  }

  predicate Releasable(claims: map<ClaimId, ClaimRow>, id: ClaimId) {
    id in claims && claims[id].status == Claimed
  }

  /** The conditional UPDATE of a release finds its row. */
  predicate Frees(s: State, id: ClaimId) {
    Releasable(s.claims, id) && !ClaimLocked(s.procs, id)
  }

  lemma ReleaseStep(s: State, p: ProcId, id: ClaimId)
    requires p !in s.procs && id in s.claims && s.claims[id].status == Claimed && !ClaimLocked(s.procs, id)
    ensures Apply(s, ReleaseRow(p, id))
         == s.(claims := SetClaim(s.claims, id, Released), procs := s.procs[p := Owing(s.claims[id].event)])
  {
  }

  lemma InitialSound(s: State)
    requires Initial(s)
    ensures Sound(s)
  {
  }
}
