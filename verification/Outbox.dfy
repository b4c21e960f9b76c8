/** The outbox: a payment row is persisted before the gateway hears of it, and the gateway hears of
    one reference and one amount per claim.  Also the partial unique index on claims. */
module Outbox {
  import opened Domain
  import opened Protocol
  import opened Integrity

  /** Every request sent so far repeats a payment row. */
  ghost predicate SentFromRows(s: State) {
    forall c | c in s.log ::
      && c.payment in s.payments && s.payments[c.payment].claim == c.claim
      && s.payments[c.payment].reference == c.reference && s.payments[c.payment].amount == c.amount
  }

  predicate WillInitialize(q: Proc, pay: PaymentId) {
    q.Calling? && !q.fromRow && q.payment == pay
  }

  /** Initialize's own request for one payment: sent at most once, or still to be sent by one
      process only. */
  ghost predicate InitializeOnce(s: State) {
    && (forall i, j | 0 <= i < j < |s.log| && s.log[i].byInitialize && s.log[j].byInitialize :: s.log[i].payment != s.log[j].payment)
    && (forall p, c | p in s.procs && c in s.log && c.byInitialize :: !WillInitialize(s.procs[p], c.payment))
    && (forall p, q, pay | p in s.procs && q in s.procs && WillInitialize(s.procs[p], pay) && WillInitialize(s.procs[q], pay) :: p == q)
  }

  ghost predicate Outboxed(s: State) {
    Sound(s) && SentFromRows(s) && InitializeOnce(s)
  }

  lemma CallRecorded(s: State, a: Action)
    requires !a.Wipe? && Effects(s, a).0.log != s.log
    ensures a.p in s.procs && s.procs[a.p].Calling? && var q := s.procs[a.p];
      && Effects(s, a).0.log == s.log + [Call(q.payment, q.claim, q.reference, q.amount, !q.fromRow)]
      && (Effects(s, a).1.Some? ==> !Effects(s, a).1.value.Calling?)
  {
  }

  /** A call leaves only for a row that was persisted before. */
  lemma SentStep(s: State, a: Action)
    requires Sound(s) && SentFromRows(s)
    ensures SentFromRows(Apply(s, a))
    ensures |Apply(s, a).log| > |s.log| ==>
      Apply(s, a).log == s.log + [Apply(s, a).log[|s.log|]] && Apply(s, a).log[|s.log|].payment in s.payments
  {
    hide Continue, Open;
    EvolvesStep(s, a);
    if !a.Wipe? && Effects(s, a).0.log != s.log {
      CallRecorded(s, a);
      assert Remembers(s, s.procs[a.p]);
    }
  }

  /** A process is about to make Initialize's call only right after it inserted the row itself. */
  lemma WillInitializeNew(s: State, a: Action, pay: PaymentId)
    requires Sound(s) && !a.Wipe? && Effects(s, a).1.Some? && WillInitialize(Effects(s, a).1.value, pay)
    ensures (a.p in s.procs && WillInitialize(s.procs[a.p], pay) && Effects(s, a).0.log == s.log)
         || (pay !in s.payments && Effects(s, a).0.log == s.log)
  {
    hide PaymentLocked, ClaimLocked, HasActiveClaim, CountActive, Sound;
  }

  /** Who is about to make Initialize's call remembers a row. */
  lemma WillInitializeRow(s: State, p: ProcId, pay: PaymentId)
    requires Sound(s) && p in s.procs && WillInitialize(s.procs[p], pay)
    ensures pay in s.payments
  {
    assert Remembers(s, s.procs[p]);
  }

  /** A new call repeats none that Initialize made, and nobody else will make it. */
  lemma CallIsNew(s: State, a: Action)
    requires Outboxed(s) && !a.Wipe? && Effects(s, a).0.log != s.log
    ensures InitializeOnce(Apply(s, a))
  {
    hide Continue, Open, Sound, SentFromRows;
    CallRecorded(s, a);
    var t, q := Apply(s, a), s.procs[a.p];
    assert !q.fromRow ==> WillInitialize(q, q.payment);
    assert t.log == s.log + [t.log[|s.log|]];
    assert forall p, pay | p in t.procs && WillInitialize(t.procs[p], pay) ::
      p != a.p && p in s.procs && t.procs[p] == s.procs[p];
  }

  lemma InitializeStep(s: State, a: Action)
    requires Outboxed(s)
    ensures InitializeOnce(Apply(s, a))
  {
    hide Continue, Open, Sound;
    var t := Apply(s, a);
    if a.Wipe? {
    } else if Effects(s, a).0.log != s.log {
      CallIsNew(s, a);
    } else {
      forall p, c | p in t.procs && c in t.log && c.byInitialize
        ensures !WillInitialize(t.procs[p], c.payment)
      {
        if p == a.p && WillInitialize(t.procs[p], c.payment) { WillInitializeNew(s, a, c.payment); }
      }
      forall p, q, pay | p in t.procs && q in t.procs && WillInitialize(t.procs[p], pay) && WillInitialize(t.procs[q], pay)
        ensures p == q
      {
        if p != q && (p == a.p || q == a.p) {
          WillInitializeNew(s, a, pay);
          WillInitializeRow(s, if p == a.p then q else p, pay);
        }
      }
    }
  }

  lemma {:induction false} OutboxRun(s: State, run: seq<Action>)
    requires Outboxed(s)
    ensures Outboxed(Run(s, run))
    decreases run
  {
    if run != [] {
      SoundStep(s, run[0]);
      SentStep(s, run[0]);
      InitializeStep(s, run[0]);
      OutboxRun(Apply(s, run[0]), run[1..]);
    }
  }

  /** In every run from an empty system: each request ever sent repeats a persisted row; two requests
      for one claim carry the same reference and the same amount; and at most one of them was made by
      Initialize. */
  lemma OutboxHolds(s: State, run: seq<Action>)
    requires Initial(s)
    ensures SentFromRows(Run(s, run))
    ensures forall i, j | 0 <= i < j < |Run(s, run).log| && Run(s, run).log[i].claim == Run(s, run).log[j].claim ::
      var x, y := Run(s, run).log[i], Run(s, run).log[j];
      x.reference == y.reference && x.amount == y.amount && !(x.byInitialize && y.byInitialize)
  {
    OutboxRun(s, run);
    var t := Run(s, run);
    forall i, j | 0 <= i < j < |t.log| && t.log[i].claim == t.log[j].claim
      ensures t.log[i].reference == t.log[j].reference && t.log[i].amount == t.log[j].amount
      ensures !(t.log[i].byInitialize && t.log[j].byInitialize)
    {
      assert t.log[i] in t.log && t.log[j] in t.log;
      assert t.log[i].payment == t.log[j].payment;
    }
  }

  // ---- one active claim

  /** What the partial unique index promises. */
  ghost predicate OneActiveClaim(s: State) {
    forall x, y | x in s.claims && y in s.claims && s.claims[x].status == Claimed && s.claims[y].status == Claimed
      && s.claims[x].customer == s.claims[y].customer && s.claims[x].event == s.claims[y].event :: x == y
  }

  lemma OnlyInsertAdds(s: State, a: Action)
    requires !a.Wipe? && Effects(s, a).0.claims.Keys != s.claims.Keys
    ensures a.InsertClaim? && a.p in s.procs && s.procs[a.p].Inserting? && var q := s.procs[a.p];
      && a.id !in s.claims && !HasActiveClaim(s.claims, q.customer, q.event)
      && Effects(s, a).0.claims == s.claims[a.id := ClaimRow(q.event, q.customer, Claimed)]
  {
    hide PaymentLocked, ClaimLocked, HasActiveClaim, CountActive;
  }

  lemma OneActiveClaimStep(s: State, a: Action)
    requires Sound(s) && OneActiveClaim(s)
    ensures OneActiveClaim(Apply(s, a))
  {
    hide Continue, Open;
    EvolvesStep(s, a);
    if !a.Wipe? && Effects(s, a).0.claims.Keys != s.claims.Keys {
      OnlyInsertAdds(s, a);
    } else {
      var t := Apply(s, a);
      assert t.claims.Keys == s.claims.Keys;
      assert forall x | x in t.claims && t.claims[x].status == Claimed :: x in s.claims && t.claims[x] == s.claims[x];
    }
  }

  /** No lock is needed for it: a customer never holds two CLAIMED rows of one event, in any run. */
  lemma {:induction false} OneActiveClaimRun(s: State, run: seq<Action>)
    requires Sound(s) && OneActiveClaim(s)
    ensures OneActiveClaim(Run(s, run))
    decreases run
  {
    if run != [] {
      SoundStep(s, run[0]);
      OneActiveClaimStep(s, run[0]);
      OneActiveClaimRun(Apply(s, run[0]), run[1..]);
    }
  }
}
