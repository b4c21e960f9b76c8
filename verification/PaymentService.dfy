/** payments.go: Initialize, the two transaction bodies and Reconcile, while any number of other
    processes run between the statements. */
module PaymentService {
  import opened Domain
  import opened Protocol
  import opened Integrity
  import opened Stores
  import opened PaymentPolicy

  /** The rows a transaction has written stay as they are while others run. */
  lemma {:induction false} LockedRowsStay(s: State, acts: seq<Action>, p: ProcId)
    requires Sound(s) && Foreign(acts, p) && p in s.procs
    ensures Remembers(s, s.procs[p])
    ensures Sound(Run(s, acts)) && Remembers(Run(s, acts), s.procs[p])
    ensures var q := s.procs[p]; var t := Run(s, acts);
      && p in t.procs && t.procs[p] == q
      && (q.TxPayment? || q.TxBoth? ==> t.payments[q.payment] == s.payments[q.payment])
      && (q.TxBoth? ==> t.claims[q.claim] == s.claims[q.claim])
      && (q.TxOpen? || q.TxPayment? || q.TxBoth? ==> q.claim in t.claims && q.claim in s.claims && q.payment in s.payments)
    decreases acts
  {
    assert Remembers(s, s.procs[p]);
    if acts != [] {
      var a := acts[0];
      SoundStep(s, a);
      ForeignStep(s, a, p);
      if !a.Wipe? { LocksProtect(s, a, p); }
      LockedRowsStay(Apply(s, a), acts[1..], p);
    }
  }

  /** No open transaction has written the payment or its claim. */
  predicate Unlocked(s: State, pay: PaymentId, claim: ClaimId) {
    !PaymentLocked(s.procs, pay) && !ClaimLocked(s.procs, claim)
  }

  /** What a transaction does when nobody gets in between: nothing when the payment is not in the
      expected status, an error when the claim is no longer CLAIMED, otherwise both rows. */
  function TxResult(s: State, p: ProcId, pay: PaymentId, claim: ClaimId, o: Outcome): (TxReply, State)
    requires pay in s.payments && claim in s.claims
  {
    var after := s.(procs := if o.Confirm? then s.procs - {p} else s.procs[p := Owing(s.claims[claim].event)]);
    if s.payments[pay].status != Expected(o) then (NoMatchingRow, after)
    else if s.claims[claim].status != Claimed then (RolledBack, s.(procs := s.procs - {p}))
    else (Committed, after.(payments := s.payments[pay := s.payments[pay].(status := PaymentTarget(o))],
                            claims := SetClaim(s.claims, claim, ClaimTarget(o))))
  }

  /** confirmFlow or failureFlow as a whole, under the same condition. */
  function SettleResult(s: State, p: ProcId, pay: PaymentId, claim: ClaimId, o: Outcome, d: Delivery): (bool, State)
    requires pay in s.payments && claim in s.claims
  {
    var r := TxResult(s, p, pay, claim, o);
    (r.0.RolledBack?,
     r.1.(procs := s.procs - {p},
          counters := if r.0.RolledBack? || o.Confirm? || d.Unsent? then s.counters
                      else IncrementBy1(s.counters, s.claims[claim].event)))
  }

  /** The statement of the payment path that a stands for, at program counter q. */
  lemma OnPaymentPath(s: State, a: Action, q: Proc)
    ensures a.InsertPayment? && q.Creating? ==> Continue(s, a, q) == DoInsertPayment(s, q, a.pay, a.reference)
    ensures a.CallGateway? && q.Calling? ==> Continue(s, a, q) == DoCallGateway(s, q, a.reply)
    ensures a.MarkPending? && q.Accepted? ==> Continue(s, a, q) == DoMarkPending(s, q)
    ensures a.UpdatePayment? && q.TxOpen? ==> Continue(s, a, q) == DoUpdatePayment(s, q)
    ensures a.UpdateClaim? && q.TxPayment? ==> Continue(s, a, q) == DoUpdateClaim(s, q)
    ensures a.Commit? && q.TxBoth? ==> Continue(s, a, q) == DoCommit(s, q, a.ok)
    ensures a.GiveBack? && q.Owing? ==> Continue(s, a, q) == DoGiveBack(s, q.event, a.delivery)
    ensures a.Stop? ==> Continue(s, a, q) == (s, None)
  {
  }

  /** Only a COMMIT that succeeds, MarkPending and the INSERT write rows on the payment path. */
  lemma OnlyCommitWrites(s: State, a: Action)
    requires !a.Wipe? && a.p in s.procs
    ensures a.UpdatePayment? || a.UpdateClaim? || a.Stop? || a.GiveBack? || (a.Commit? && !a.ok) ==> !Wrote(s, a)
    ensures Sound(s) && a.Commit? && a.ok && s.procs[a.p].TxBoth? ==> Wrote(s, a)
  {
    hide PaymentLocked, ClaimLocked;
    if Sound(s) && a.Commit? && a.ok && s.procs[a.p].TxBoth? { assert Remembers(s, s.procs[a.p]); assert SaneOutcome(s.procs[a.p]); }
  }

  lemma Advance(start: State, run: seq<Action>, s: State, a: Action)
    requires s == Run(start, run) && Sound(s)
    ensures Apply(s, a) == Run(start, run + [a]) && Sound(Apply(s, a))
  {
    Extend(start, run, s, a);
    SoundStep(s, a);
  }

  lemma KnownClaim(s: State, pay: PaymentId)
    requires Sound(s) && pay in s.payments
    ensures s.payments[pay].claim in s.claims
  {
  }

  lemma Overwritten<K, V>(m: map<K, V>, k: K, v: V, v': V)
    ensures m[k := v][k := v'] == m[k := v'] && m[k := v] - {k} == m - {k}
  {
  }

  /** The result does not depend on how far the process has come. */
  lemma TxResultAnywhere(s: State, p: ProcId, pay: PaymentId, claim: ClaimId, o: Outcome, q: Proc)
    requires pay in s.payments && claim in s.claims
    ensures TxResult(s.(procs := s.procs[p := q]), p, pay, claim, o) == TxResult(s, p, pay, claim, o)
  {
    Overwritten(s.procs, p, q, Owing(s.claims[claim].event));
  }

  lemma TxRollsBack(s: State, p: ProcId, pay: PaymentId, claim: ClaimId, o: Outcome)
    requires pay in s.payments && claim in s.claims && s.payments[pay].status == Expected(o) && s.claims[claim].status != Claimed
    ensures TxResult(s, p, pay, claim, o) == (RolledBack, s.(procs := s.procs - {p}))
  {
  }

  lemma TxResultFrom(s: State, p: ProcId, pay: PaymentId, claim: ClaimId, o: Outcome, q: Proc)
    requires pay in s.payments && claim in s.claims && !HoldsClaim(q, claim)
    ensures TxResult(s.(procs := s.procs[p := q]), p, pay, claim, o) == TxResult(s, p, pay, claim, o)
    ensures ClaimLocked(s.procs[p := q], claim) ==> ClaimLocked(s.procs, claim)
  {
    TxResultAnywhere(s, p, pay, claim, o, q);
    if ClaimLocked(s.procs[p := q], claim) {
      var r :| r in s.procs[p := q] && HoldsClaim(s.procs[p := q][r], claim);
      assert r in s.procs && HoldsClaim(s.procs[r], claim);
    }
  }

  lemma SettleResultFrom(s: State, p: ProcId, pay: PaymentId, claim: ClaimId, o: Outcome, q: Proc, d: Delivery)
    requires pay in s.payments && claim in s.claims && !HoldsClaim(q, claim) && !HoldsPayment(q, pay)
    ensures SettleResult(s.(procs := s.procs[p := q]), p, pay, claim, o, d) == SettleResult(s, p, pay, claim, o, d)
    ensures Unlocked(s, pay, claim) ==> Unlocked(s.(procs := s.procs[p := q]), pay, claim)
  {
    TxResultFrom(s, p, pay, claim, o, q);
    Overwritten(s.procs, p, q, q);
    if PaymentLocked(s.procs[p := q], pay) {
      var r :| r in s.procs[p := q] && HoldsPayment(s.procs[p := q][r], pay);
      assert r in s.procs && HoldsPayment(s.procs[r], pay);
    }
  }

  /** One InitializeTransaction call and what follows, when nobody gets in between: the request is
      on record, and the payment is PENDING, still INITIALIZING, or failed with the claim released. */
  function CallResult(s: State, p: ProcId, q: Proc, reply: GatewayReply, d: Delivery): State
    requires q.Calling? && q.payment in s.payments && q.claim in s.claims
  {
    var s1 := s.(log := s.log + [Call(q.payment, q.claim, q.reference, q.amount, !q.fromRow)], procs := s.procs - {p});
    match reply
    case Transient => s1
    case Permanent => SettleResult(s1, p, q.payment, q.claim, Fail(Initializing), d).1
    case Success =>
      if s.payments[q.payment].status != Initializing then s1
      else s1.(payments := s.payments[q.payment := s.payments[q.payment].(status := Pending)])
  }

  lemma CallResultFrom(s: State, p: ProcId, q: Proc, reply: GatewayReply, d: Delivery)
    requires q.Calling? && q.payment in s.payments && q.claim in s.claims
    ensures CallResult(s.(procs := s.procs[p := q]), p, q, reply, d) == CallResult(s, p, q, reply, d)
    ensures Unlocked(s, q.payment, q.claim) ==> Unlocked(s.(procs := s.procs[p := q]), q.payment, q.claim)
  {
    Overwritten(s.procs, p, q, q);
    SettleResultFrom(s, p, q.payment, q.claim, Confirm, q, d);
  }

  lemma PermanentResult(s: State, p: ProcId, q: Proc, d: Delivery)
    requires p in s.procs && s.procs[p] == q && q.Calling? && q.payment in s.payments && q.claim in s.claims
    ensures var x := TxOpen(q.payment, q.claim, Fail(Initializing));
      var t := s.(log := s.log + [Call(q.payment, q.claim, q.reference, q.amount, !q.fromRow)], procs := s.procs[p := x]);
      && CallResult(s, p, q, Permanent, d) == SettleResult(t, p, q.payment, q.claim, Fail(Initializing), d).1
      && (Unlocked(s, q.payment, q.claim) ==> Unlocked(t, q.payment, q.claim))
  {
    var x := TxOpen(q.payment, q.claim, Fail(Initializing));
    var s1 := s.(log := s.log + [Call(q.payment, q.claim, q.reference, q.amount, !q.fromRow)]);
    SettleResultFrom(s1, p, q.payment, q.claim, Fail(Initializing), x, d);
    SettleResultFrom(s1.(procs := s.procs - {p}), p, q.payment, q.claim, Fail(Initializing), x, d);
    assert (s.procs - {p})[p := x] == s.procs[p := x];
  }

  /** The part of the schedule that a transaction has not used. */
  function Unused(env: seq<seq<Action>>, r: TxReply): seq<seq<Action>>
    requires |env| >= 3
  {
    match r case NoMatchingRow => env[1..] case Committed => env[3..] case RolledBack => []
  }

  /** WithTransaction around one of the two bodies.  Both UPDATEs go to a staged copy, which COMMIT
      publishes: the process writes rows exactly if it answers that it committed, and then both. */
  method Transact(w: Platform, p: ProcId, pay: PaymentId, claim: ClaimId, o: Outcome, env: seq<seq<Action>>, io: PayIo)
    returns (r: TxReply, ghost run: seq<Action>)
    requires Sound(w.View()) && p in w.procs && w.procs[p] == TxOpen(pay, claim, o) && Schedule(env, 3, p)
    modifies w
    ensures w.View() == Run(old(w.View()), run) && Sound(w.View())
    ensures Driven(old(w.View()), env, p, PaySteps(p, io)) == run + Driven(w.View(), Unused(env, r), p, PaySteps(p, io))
    ensures run != [] && r == TxReplyOf(run)
    ensures Writes(old(w.View()), run, p) <==> r.Committed?
    ensures r.Committed? ==> pay in w.payments && w.payments[pay].status == PaymentTarget(o)
    ensures r.Committed? ==> claim in w.claims && w.claims[claim].status == ClaimTarget(o)
    ensures r.RolledBack? || o.Confirm? ==> p !in w.procs
    ensures !r.RolledBack? && o.Fail? ==> claim in w.claims && p in w.procs && w.procs[p] == Owing(w.claims[claim].event)
    ensures !r.RolledBack? ==> Stop(p) !in run
    ensures forall d :: GiveBack(p, d) !in run
    ensures pay in old(w.payments) && claim in old(w.claims)
    ensures Undisturbed(env) && io.beginOk && io.commitOk && Unlocked(old(w.View()), pay, claim) ==>
      (r, w.View()) == TxResult(old(w.View()), p, pay, claim, o)
  {
    hide Run, Apply, Sound, Driven, Writes, PaymentLocked, ClaimLocked, TxReplyOf;
    ghost var start := w.View();
    Split(env);
    LockedRowsStay(start, env[0], p);
    r, run := StagePayment(w, p, pay, claim, o, env[0], io);
    PayStep(start, env, p, io, w.View());
    if p in w.procs && w.procs[p].TxPayment? {
      ghost var mid := w.View();
      ghost var rest;
      TxResultFrom(start, p, pay, claim, o, TxPayment(pay, claim, o));
      r, rest := FinishTransaction(w, p, pay, claim, o, w.payments[pay].(status := PaymentTarget(o)), env[1..], io);
      assert env[1..][2..] == env[3..];
      RunAppend(start, run, rest);
      WritesAppend(start, run, rest, p);
      Join(Driven(start, env, p, PaySteps(p, io)), run, Driven(mid, env[1..], p, PaySteps(p, io)), rest,
           Driven(w.View(), Unused(env, r), p, PaySteps(p, io)));
      TxReplyOfAppend(run, rest);
      run := run + rest;
    }
    NothingDriven(w.View(), [], p, io);
  }

  lemma NothingDriven(s: State, env: seq<seq<Action>>, p: ProcId, io: PayIo)
    ensures p !in s.procs || env == [] ==> Driven(s, env, p, PaySteps(p, io)) == []
  {
  }

  /** Begin, and the payment UPDATE on the staged copy. */
  method StagePayment(w: Platform, p: ProcId, pay: PaymentId, claim: ClaimId, o: Outcome, acts: seq<Action>, io: PayIo)
    returns (r: TxReply, ghost run: seq<Action>)
    requires Sound(w.View()) && p in w.procs && w.procs[p] == TxOpen(pay, claim, o) && Foreign(acts, p)
    modifies w
    ensures var t := Run(old(w.View()), acts);
      && run == acts + [PayStatement(p, io, t, TxOpen(pay, claim, o))] && w.View() == Run(old(w.View()), run) && Sound(w.View())
      && !Wrote(t, run[|run| - 1])
    ensures pay in w.payments && claim in w.claims && r == TxReplyOf(run) && forall d :: GiveBack(p, d) !in run
    ensures (r.NoMatchingRow? <==> run == acts + [UpdatePayment(p)]) && !r.Committed?
    ensures p in w.procs && w.procs[p].TxPayment? ==>
      w.procs[p] == TxPayment(pay, claim, o) && Stop(p) !in run && w.payments[pay].status == Expected(o)
    ensures !(p in w.procs && w.procs[p].TxPayment?) ==>
      if r.RolledBack? || o.Confirm? then p !in w.procs else p in w.procs && w.procs[p] == Owing(w.claims[claim].event)
    ensures acts == [] && io.beginOk && !PaymentLocked(old(w.procs), pay) ==>
      var s := old(w.View());
      if s.payments[pay].status == Expected(o) then w.View() == s.(procs := s.procs[p := TxPayment(pay, claim, o)])
      else r.NoMatchingRow? && (r, w.View()) == TxResult(s, p, pay, claim, o)
  {
    hide Run, Continue, Open, Sound, PaymentLocked, ClaimLocked;
    ghost var start := w.View();
    LockedRowsStay(start, acts, p);
    w.Interfere(acts, p);
    ghost var a := PayStatement(p, io, w.View(), w.procs[p]);
    Advance(start, acts, w.View(), a);
    OnPaymentPath(w.View(), a, w.procs[p]);
    OnlyCommitWrites(w.View(), a);
    run := acts + [a];
    if !io.beginOk || PaymentLocked(w.procs, pay) {
      r := RolledBack;
      w.procs := w.procs - {p};
    } else if w.payments[pay].status != Expected(o) {
      r := NoMatchingRow;
      w.procs := if o.Confirm? then w.procs - {p} else w.procs[p := Owing(w.claims[claim].event)];
    } else {
      r := NoMatchingRow;
      w.procs := w.procs[p := TxPayment(pay, claim, o)];
    }
  }

  /** From the claim UPDATE to COMMIT, with the payment row already staged. */
  method FinishTransaction(w: Platform, p: ProcId, pay: PaymentId, claim: ClaimId, o: Outcome, payment: PaymentRow,
                           env: seq<seq<Action>>, io: PayIo)
    returns (r: TxReply, ghost run: seq<Action>)
    requires Sound(w.View()) && p in w.procs && w.procs[p] == TxPayment(pay, claim, o) && Schedule(env, 2, p)
    requires pay in w.payments && payment == w.payments[pay].(status := PaymentTarget(o))
    modifies w
    ensures w.View() == Run(old(w.View()), run) && Sound(w.View())
    ensures Driven(old(w.View()), env, p, PaySteps(p, io))
         == run + Driven(w.View(), if r.Committed? then env[2..] else [], p, PaySteps(p, io))
    ensures run != [] && r == TxReplyOf(run) && !r.NoMatchingRow?
    ensures Writes(old(w.View()), run, p) <==> r.Committed?
    ensures r.Committed? ==> pay in w.payments && w.payments[pay].status == PaymentTarget(o)
    ensures r.Committed? ==> claim in w.claims && w.claims[claim].status == ClaimTarget(o)
    ensures r.RolledBack? || o.Confirm? ==> p !in w.procs
    ensures r.Committed? && o.Fail? ==> claim in w.claims && p in w.procs && w.procs[p] == Owing(w.claims[claim].event)
    ensures r.Committed? ==> Stop(p) !in run
    ensures forall d :: GiveBack(p, d) !in run
    ensures claim in old(w.claims)
    ensures var t := Run(old(w.View()), env[0]);
      r.Committed? <==> io.commitOk && !ClaimLocked(t.procs, claim) && Releasable(t.claims, claim)
    ensures Undisturbed(env) && io.commitOk && !ClaimLocked(old(w.procs), claim) ==>
      (r, w.View()) == TxResult(old(w.View()), p, pay, claim, o)
  {
    hide Run, Apply, Sound, Driven, Writes, PaymentLocked, ClaimLocked, TxResult, PayStatement, Wrote, TxReplyOf;
    ghost var start := w.View();
    Split(env);
    Split(env[1..]);
    LockedRowsStay(start, env[0], p);
    run := StageClaim(w, p, pay, claim, o, env[0], io);
    r := RolledBack;
    PayStep(start, env, p, io, w.View());
    if p in w.procs {
      var row := w.claims[claim].(status := ClaimTarget(o));
      ghost var mid := w.View();
      ghost var rest;
      LockedRowsStay(mid, env[1], p);
      r, rest := PublishStaged(w, p, pay, claim, o, payment, row, env[1], io);
      CommitIsNext(p, io, Run(mid, env[1]), TxBoth(pay, claim, o));
      PayStep(mid, env[1..], p, io, w.View());
      TxReplyOfAppend(run, rest);
      assert env[1..][1..] == env[2..];
      RunAppend(start, run, rest);
      WritesAppend(start, run, rest, p);
      TxResultAnywhere(start, p, pay, claim, o, TxBoth(pay, claim, o));
      NothingDriven(w.View(), [], p, io);
      NothingDriven(w.View(), env[2..], p, io);
      Join(Driven(start, env, p, PaySteps(p, io)), run, Driven(mid, env[1..], p, PaySteps(p, io)), rest,
           Driven(w.View(), if r.Committed? then env[2..] else [], p, PaySteps(p, io)));
      run := run + rest;
    } else if !Releasable(start.claims, claim) {
      TxRollsBack(start, p, pay, claim, o);
    }
    NothingDriven(w.View(), [], p, io);
  }

  /** The claim UPDATE on the staged copy: no matching row rolls everything back. */
  method StageClaim(w: Platform, p: ProcId, pay: PaymentId, claim: ClaimId, o: Outcome, acts: seq<Action>, io: PayIo)
    returns (ghost run: seq<Action>)
    requires Sound(w.View()) && p in w.procs && w.procs[p] == TxPayment(pay, claim, o) && Foreign(acts, p)
    modifies w
    ensures var t := Run(old(w.View()), acts);
      && run == acts + [PayStatement(p, io, t, TxPayment(pay, claim, o))] && w.View() == Run(old(w.View()), run) && Sound(w.View())
      && !Wrote(t, run[|run| - 1])
      && (p in w.procs <==> !ClaimLocked(t.procs, claim) && Releasable(t.claims, claim))
    ensures pay in w.payments && pay in old(w.payments) && w.payments[pay] == old(w.payments)[pay] && claim in w.claims
    ensures TxReplyOf(run).RolledBack? && forall d :: GiveBack(p, d) !in run
    ensures p in w.procs ==> w.procs[p] == TxBoth(pay, claim, o) && w.claims[claim].status == Claimed && Stop(p) !in run
    ensures acts == [] && !ClaimLocked(old(w.procs), claim) ==>
      var s := old(w.View());
      w.View() == s.(procs := if Releasable(s.claims, claim) then s.procs[p := TxBoth(pay, claim, o)] else s.procs - {p})
  {
    hide Run, Continue, Open, Sound, PaymentLocked, ClaimLocked;
    ghost var start := w.View();
    LockedRowsStay(start, acts, p);
    w.Interfere(acts, p);
    ghost var a := PayStatement(p, io, w.View(), w.procs[p]);
    Advance(start, acts, w.View(), a);
    OnPaymentPath(w.View(), a, w.procs[p]);
    OnlyCommitWrites(w.View(), a);
    run := acts + [a];
    if ClaimLocked(w.procs, claim) || w.claims[claim].status != Claimed {
      w.procs := w.procs - {p};
    } else {
      w.procs := w.procs[p := TxBoth(pay, claim, o)];
    }
  }

  /** COMMIT: both staged rows or none. */
  method PublishStaged(w: Platform, p: ProcId, pay: PaymentId, claim: ClaimId, o: Outcome, payment: PaymentRow, row: ClaimRow,
                       acts: seq<Action>, io: PayIo)
    returns (r: TxReply, ghost run: seq<Action>)
    requires Sound(w.View()) && p in w.procs && w.procs[p] == TxBoth(pay, claim, o) && Foreign(acts, p)
    requires pay in w.payments && payment == w.payments[pay].(status := PaymentTarget(o))
    requires claim in w.claims && row == w.claims[claim].(status := ClaimTarget(o))
    modifies w
    ensures run == acts + [Commit(p, io.commitOk)] && w.View() == Run(old(w.View()), run) && Sound(w.View())
    ensures r == TxReplyOf(run) == if io.commitOk then Committed else RolledBack
    ensures var t := Run(old(w.View()), acts);
      && (Wrote(t, Commit(p, io.commitOk)) <==> r.Committed?)
      && w.payments == (if r.Committed? then t.payments[pay := payment] else t.payments)
      && w.claims == (if r.Committed? then t.claims[claim := row] else t.claims)
      && w.counters == t.counters && w.log == t.log
    ensures r.Committed? ==> pay in w.payments && w.payments[pay].status == PaymentTarget(o)
    ensures r.Committed? ==> claim in w.claims && w.claims[claim].status == ClaimTarget(o)
    ensures r.RolledBack? || o.Confirm? ==> p !in w.procs
    ensures r.Committed? && o.Fail? ==> claim in w.claims && p in w.procs && w.procs[p] == Owing(w.claims[claim].event)
    ensures acts == [] && io.commitOk ==> (r, w.View()) == TxResult(old(w.View()), p, pay, claim, o)
  {
    hide Run, Continue, Open, Sound;
    ghost var start := w.View();
    LockedRowsStay(start, acts, p);
    w.Interfere(acts, p);
    ghost var a := Commit(p, io.commitOk);
    Advance(start, acts, w.View(), a);
    OnPaymentPath(w.View(), a, w.procs[p]);
    OnlyCommitWrites(w.View(), a);
    run := acts + [a];
    if !io.commitOk {
      w.procs := w.procs - {p};
      return RolledBack, run;
    }
    w.payments := w.payments[pay := payment];
    w.claims := w.claims[claim := row];
    w.procs := if o.Confirm? then w.procs - {p} else w.procs[p := Owing(row.event)];
    r := Committed;
  }

  /** confirmFlow and failureFlow.  failureFlow gives the ticket back whenever the transaction
      returned no error, which includes the case that no payment row matched, and in no other case. */
  method Settle(w: Platform, p: ProcId, pay: PaymentId, claim: ClaimId, o: Outcome, env: seq<seq<Action>>, io: PayIo)
    returns (failed: bool, ghost run: seq<Action>)
    requires Sound(w.View()) && p in w.procs && w.procs[p] == TxOpen(pay, claim, o) && Schedule(env, 4, p)
    modifies w
    ensures w.View() == Run(old(w.View()), run) && Sound(w.View()) && p !in w.procs
    ensures run == Driven(old(w.View()), env, p, PaySteps(p, io))
    ensures !failed ==> Stop(p) !in run
    ensures o.Fail? ==> (failed <==> GiveBack(p, io.restore) !in run)
    ensures o.Confirm? ==> run != [] && (failed <==> TxReplyOf(run).RolledBack?) && GiveBack(p, io.restore) !in run
    ensures failed ==> !Writes(old(w.View()), run, p)
    ensures pay in old(w.payments) && claim in old(w.claims)
    ensures Undisturbed(env) && io.beginOk && io.commitOk && Unlocked(old(w.View()), pay, claim) ==>
      (failed, w.View()) == SettleResult(old(w.View()), p, pay, claim, o, io.restore)
  {
    hide Run, Sound, Driven, Writes, Unlocked;
    ghost var start := w.View();
    var r;
    r, run := Transact(w, p, pay, claim, o, env, io);
    failed := r.RolledBack?;
    if !failed && o.Fail? {
      var left := Unused(env, r);
      Rest(env, r, p);
      var e := w.claims[claim].event;
      ghost var mid := w.View();
      ForeignRun(mid, left[0], p);
      ghost var rest := GiveTicketBack(w, p, e, left[0], io.restore);   // best effort
      EvolvesRun(mid, rest);
      RunAppend(start, run, rest);
      PayStep(mid, left, p, io, w.View());
      run := run + rest;
      Overwritten(start.procs, p, Owing(e), Owing(e));
    } else {
      NothingDriven(w.View(), Unused(env, r), p, io);
    }
  }

  lemma Rest(env: seq<seq<Action>>, r: TxReply, p: ProcId)
    requires Schedule(env, 4, p) && !r.RolledBack?
    ensures var left := Unused(env, r); left != [] && Foreign(left[0], p) && (Undisturbed(env) ==> left[0] == [])
  {
    var left := Unused(env, r);
    assert left[0] in env;
  }

  /** The run of a webhook or of a poll answer: nothing for an unknown payment. */
  ghost function OutcomeRun(s: State, env: seq<seq<Action>>, p: ProcId, pay: PaymentId, confirm: bool, io: PayIo): seq<Action> {
    if pay !in s.payments then []
    else [BeginSettle(p, pay, confirm)] + Driven(Apply(s, BeginSettle(p, pay, confirm)), env, p, PaySteps(p, io))
  }

  lemma BeginWritesNothing(s: State, a: Action, rest: seq<Action>, p: ProcId)
    requires a.BeginSettle? || a.BeginRetry? || a.BeginPayment?
    ensures Run(s, [a] + rest) == Run(Apply(s, a), rest)
    ensures Writes(s, [a] + rest, p) <==> Writes(Apply(s, a), rest, p)
  {
    assert ([a] + rest)[1..] == rest;
  }

  /** A webhook for a known reference, or a poll answer for a stale payment. */
  method HandleOutcome(w: Platform, p: ProcId, pay: PaymentId, confirm: bool, env: seq<seq<Action>>, io: PayIo)
    returns (failed: bool, ghost run: seq<Action>)
    requires Sound(w.View()) && p !in w.procs && Schedule(env, 4, p)
    modifies w
    ensures w.View() == Run(old(w.View()), run) && Sound(w.View()) && p !in w.procs
    ensures run == OutcomeRun(old(w.View()), env, p, pay, confirm, io)
    ensures !failed ==> Stop(p) !in run
    ensures pay in old(w.payments) && !confirm ==> (failed <==> GiveBack(p, io.restore) !in run)
    ensures failed ==> !Writes(old(w.View()), run, p)
    ensures pay in old(w.payments) ==> BeginSettle(p, pay, confirm) in run
    ensures pay !in old(w.payments) ==> failed && w.View() == old(w.View())
    ensures pay in old(w.payments) ==> old(w.payments)[pay].claim in old(w.claims)
    ensures pay in old(w.payments) && Undisturbed(env) && io.beginOk && io.commitOk
            && Unlocked(old(w.View()), pay, old(w.payments)[pay].claim) ==>
      (failed, w.View()) == SettleResult(old(w.View()), p, pay, old(w.payments)[pay].claim,
                                         if confirm then Confirm else Fail(Pending), io.restore)
  {
    hide Run, Continue, Sound, Driven, Writes, SettleResult, Unlocked;
    ghost var start := w.View();
    run := [];
    Nothing(start);
    if pay !in w.payments {
      WritesForeign(start, [], p);
      return true, run;
    }
    ghost var a := BeginSettle(p, pay, confirm);
    Advance(start, run, w.View(), a);
    var o := if confirm then Confirm else Fail(Pending);
    ghost var claim := start.payments[pay].claim;
    KnownClaim(start, pay);
    SettleResultFrom(start, p, pay, claim, o, TxOpen(pay, claim, o), io.restore);
    w.procs := w.procs[p := TxOpen(pay, w.payments[pay].claim, o)];
    ghost var rest;
    failed, rest := Settle(w, p, pay, w.payments[pay].claim, o, env, io);
    BeginWritesNothing(start, a, rest, p);
    run := [a] + rest;
  }

  // ---- talking to the gateway

  /** The request itself, which is on the gateway's record whatever the answer. */
  method SendRequest(w: Platform, p: ProcId, pay: PaymentId, acts: seq<Action>, reply: GatewayReply)
    returns (claim: ClaimId, ghost run: seq<Action>)
    requires Sound(w.View()) && p in w.procs && w.procs[p].Calling? && w.procs[p].payment == pay && Foreign(acts, p)
    modifies w
    ensures w.View() == Run(old(w.View()), run) && Sound(w.View())
    ensures claim == old(w.procs)[p].claim && claim in old(w.claims) && pay in old(w.payments) && pay in w.payments
    ensures run == acts + [CallGateway(p, reply)]
    ensures w.log == Run(old(w.View()), acts).log + [Call(pay, claim, old(w.procs)[p].reference, old(w.procs)[p].amount, !old(w.procs)[p].fromRow)]
    ensures reply.Transient? ==> p !in w.procs
    ensures reply.Success? ==> p in w.procs && w.procs[p] == Accepted(pay, claim)
    ensures reply.Permanent? ==> p in w.procs && w.procs[p] == TxOpen(pay, claim, Fail(Initializing))
    ensures acts == [] ==>
      var s := old(w.View()); var q := s.procs[p];
      && w.View().(procs := s.procs) == s.(log := s.log + [Call(q.payment, q.claim, q.reference, q.amount, !q.fromRow)])
      && w.procs - {p} == s.procs - {p}
      && (p in w.procs ==> w.procs == s.procs[p := w.procs[p]])
  {
    hide Run, Continue, Open, Sound;
    ghost var start := w.View();
    LockedRowsStay(start, acts, p);
    w.Interfere(acts, p);
    run := acts;
    var q := w.procs[p];
    claim := q.claim;
    KnownClaim(start, pay);
    ghost var a := CallGateway(p, reply);
    Advance(start, run, w.View(), a);
    OnPaymentPath(w.View(), a, w.procs[p]);
    run := run + [a];
    w.log := w.log + [Call(q.payment, q.claim, q.reference, q.amount, !q.fromRow)];
    match reply {
      case Success => w.procs := w.procs[p := Accepted(pay, q.claim)];
      case Transient => w.procs := w.procs - {p};
      case Permanent => w.procs := w.procs[p := TxOpen(pay, q.claim, Fail(Initializing))];
    }
  }

  /** InitializeTransaction and what follows from its answer, for Initialize and for a retry alike. */
  method CallAndFollow(w: Platform, p: ProcId, pay: PaymentId, env: seq<seq<Action>>, io: PayIo)
    returns (ok: bool, ghost run: seq<Action>)
    requires Sound(w.View()) && p in w.procs && w.procs[p].Calling? && w.procs[p].payment == pay && Schedule(env, 5, p)
    modifies w
    ensures w.View() == Run(old(w.View()), run) && Sound(w.View()) && p !in w.procs
    ensures run == Driven(old(w.View()), env, p, PaySteps(p, io))
    ensures pay in w.payments && ok == io.reply.Success?
    ensures CallGateway(p, io.reply) in run
    ensures Asked(w.log, |old(w.log)|, pay, !old(w.procs)[p].fromRow)
    ensures pay in old(w.payments) && old(w.procs)[p].claim in old(w.claims)
    ensures Undisturbed(env) && io.beginOk && io.commitOk && Unlocked(old(w.View()), pay, old(w.procs)[p].claim) ==>
      w.View() == CallResult(old(w.View()), p, old(w.procs)[p], io.reply, io.restore)
  {
    hide Run, Apply, Sound, SettleResult, CallResult, Driven, PaymentLocked, ClaimLocked, PayStatement, Asked;
    ghost var start := w.View();
    ghost var q := start.procs[p];
    NextPayStatement(p, io, Run(start, env[0]), q);
    Split(env);
    ForeignRun(start, env[0], p);
    EvolvesRun(start, env[0]);
    var claim;
    claim, run := SendRequest(w, p, pay, env[0], io.reply);
    PayStep(start, env, p, io, w.View());
    ok := io.reply.Success?;
    ghost var mid := w.View();
    if env[0] == [] { AnswerResult(start, mid, p, q, io.reply, io.restore); }
    ghost var rest := [];
    if io.reply.Transient? {
      Nothing(mid);
      NothingDriven(mid, env[1..], p, io);
    } else {
      rest := FollowAnswer(w, p, pay, claim, env[1..], io);
    }
    EvolvesRun(mid, rest);
    RunAppend(start, run, rest);
    run := run + rest;
    LastAsked(Run(start, env[0]).log, mid.log, w.log, |start.log|, pay, !q.fromRow);
  }

  /** What follows an answer, from the state in which the request is on record. */
  function FollowResult(s: State, p: ProcId, pay: PaymentId, claim: ClaimId, reply: GatewayReply, d: Delivery): State
    requires pay in s.payments && claim in s.claims
  {
    match reply
    case Transient => s
    case Permanent => SettleResult(s, p, pay, claim, Fail(Initializing), d).1
    case Success =>
      s.(procs := s.procs - {p},
         payments := if s.payments[pay].status != Initializing then s.payments
                     else s.payments[pay := s.payments[pay].(status := Pending)])
  }

  lemma AnswerResult(s: State, t: State, p: ProcId, q: Proc, reply: GatewayReply, d: Delivery)
    requires p in s.procs && s.procs[p] == q && q.Calling? && q.payment in s.payments && q.claim in s.claims
    requires t.procs - {p} == s.procs - {p} && (p in t.procs ==> t.procs == s.procs[p := t.procs[p]])
    requires reply.Transient? <==> p !in t.procs
    requires reply.Success? ==> t.procs[p] == Accepted(q.payment, q.claim)
    requires reply.Permanent? ==> t.procs[p] == TxOpen(q.payment, q.claim, Fail(Initializing))
    ensures t.(procs := s.procs) == s.(log := s.log + [Call(q.payment, q.claim, q.reference, q.amount, !q.fromRow)]) ==>
      CallResult(s, p, q, reply, d) == FollowResult(t, p, q.payment, q.claim, reply, d)
    ensures Unlocked(s, q.payment, q.claim) && p in t.procs ==> Unlocked(t, q.payment, q.claim)
  {
    if p in t.procs {
      SettleResultFrom(s, p, q.payment, q.claim, Confirm, t.procs[p], d);
    } else {
      assert t.procs == t.procs - {p};
    }
    if reply.Permanent? { PermanentResult(s, p, q, d); }
  }

  /** MarkPending after success, the failure flow after a permanent error. */
  method FollowAnswer(w: Platform, p: ProcId, pay: PaymentId, claim: ClaimId, env: seq<seq<Action>>, io: PayIo)
    returns (ghost run: seq<Action>)
    requires Sound(w.View()) && p in w.procs && Schedule(env, 4, p) && !io.reply.Transient?
    requires w.procs[p] == if io.reply.Success? then Accepted(pay, claim) else TxOpen(pay, claim, Fail(Initializing))
    modifies w
    ensures w.View() == Run(old(w.View()), run) && Sound(w.View()) && p !in w.procs
    ensures run == Driven(old(w.View()), env, p, PaySteps(p, io))
    ensures pay in w.payments && pay in old(w.payments)
    ensures claim in old(w.claims) && Undisturbed(env) && io.beginOk && io.commitOk && Unlocked(old(w.View()), pay, claim) ==>
      w.View() == FollowResult(old(w.View()), p, pay, claim, io.reply, io.restore)
  {
    hide Run, Apply, Sound, SettleResult, Driven, PaymentLocked, ClaimLocked, PayStatement;
    ghost var start := w.View();
    Split(env);
    ForeignRun(start, env[0], p);
    if io.reply.Success? {
      run := RecordPending(w, p, pay, claim, env[0], io);
      PayStep(start, env, p, io, w.View());
    } else {
      var failed;
      failed, run := Settle(w, p, pay, claim, Fail(Initializing), env, io);
      EvolvesRun(start, run);
    }
  }

  lemma NextPayStatement(p: ProcId, io: PayIo, s: State, q: Proc)
    ensures q.Calling? ==> PayStatement(p, io, s, q) == CallGateway(p, io.reply)
  {
  }

  lemma LastAsked(log: seq<Call>, asked: seq<Call>, after: seq<Call>, since: nat, pay: PaymentId, byInitialize: bool)
    requires |asked| == |log| + 1 && asked <= after && since <= |log|
    requires asked[|log|].payment == pay && asked[|log|].byInitialize == byInitialize
    ensures Asked(after, since, pay, byInitialize)
  {
    assert after[|log|] == asked[|log|];
  }

  /** A request for the payment is on record since the log had a given length. */
  predicate Asked(log: seq<Call>, since: nat, pay: PaymentId, byInitialize: bool) {
    exists k :: since <= k < |log| && log[k].payment == pay && log[k].byInitialize == byInitialize
  }

  /** MarkPending: conditional on INITIALIZING; its failure is only logged. */
  method RecordPending(w: Platform, p: ProcId, pay: PaymentId, claim: ClaimId, acts: seq<Action>, ghost io: PayIo)
    returns (ghost run: seq<Action>)
    requires Sound(w.View()) && p in w.procs && w.procs[p] == Accepted(pay, claim) && Foreign(acts, p)
    modifies w
    ensures w.View() == Run(old(w.View()), run) && Sound(w.View()) && p !in w.procs && pay in w.payments
    ensures run == acts + [PayStatement(p, io, Run(old(w.View()), acts), Accepted(pay, claim))]
    ensures pay in old(w.payments)
    ensures acts == [] && !PaymentLocked(old(w.procs), pay) ==>
      var s := old(w.View());
      w.View() == s.(procs := s.procs - {p},
                     payments := if s.payments[pay].status != Initializing then s.payments
                                 else s.payments[pay := s.payments[pay].(status := Pending)])
  {
    hide Run, Continue, Open, Sound;
    ghost var start := w.View();
    LockedRowsStay(start, acts, p);
    w.Interfere(acts, p);
    run := acts;
    ghost var a := PayStatement(p, io, w.View(), w.procs[p]);
    Advance(start, run, w.View(), a);
    OnPaymentPath(w.View(), a, w.procs[p]);
    run := run + [a];
    if !PaymentLocked(w.procs, pay) && w.payments[pay].status == Initializing {
      w.payments := w.payments[pay := w.payments[pay].(status := Pending)];
    }
    w.procs := w.procs - {p};
  }

  datatype InitReply = Existing | Invalid | Started(ok: bool)

  datatype InitIo = InitIo(lookupOk: bool, expired: bool, call: PayIo)

  /** A claim without a payment is not part of any transaction. */
  lemma NoPaymentNoLock(s: State, pay: PaymentId, claim: ClaimId)
    requires Sound(s) && pay !in s.payments && !HasPayment(s, claim)
    ensures Unlocked(s, pay, claim)
  {
    assert forall p | p in s.procs :: Remembers(s, s.procs[p]);
  }

  /** The new id and reference are unused. */
  predicate IdsFree(s: State, io: PayIo) {
    io.payment !in s.payments && !exists k :: k in s.payments && s.payments[k].reference == io.reference
  }

  /** The state after the row was inserted and the gateway called, when nobody gets in between. */
  function StartResult(s: State, p: ProcId, claim: ClaimId, amount: int, io: PayIo): State
    requires claim in s.claims
  {
    CallResult(s.(payments := s.payments[io.payment := PaymentRow(claim, amount, io.reference, Initializing)]),
               p, Calling(io.payment, claim, io.reference, amount, false), io.reply, io.restore)
  }

  lemma StartResultFrom(s: State, p: ProcId, claim: ClaimId, amount: int, io: PayIo, q: Proc)
    requires claim in s.claims
    ensures StartResult(s.(procs := s.procs[p := q]), p, claim, amount, io) == StartResult(s, p, claim, amount, io)
    ensures IdsFree(s.(procs := s.procs[p := q]), io) == IdsFree(s, io)
    ensures HasPayment(s.(procs := s.procs[p := q]), claim) == HasPayment(s, claim)
  {
    assert s.procs[p := q] - {p} == s.procs - {p};
  }

  lemma ValidatedStep(s: State, p: ProcId, claim: ClaimId)
    requires p !in s.procs && claim in s.claims && s.claims[claim].status == Claimed && s.claims[claim].event in s.events
    ensures Apply(s, BeginPayment(p, claim))
         == s.(procs := s.procs[p := Creating(claim, s.events[s.claims[claim].event].price)])
  {
  }

  /** The checks of validateClaimForPayment, with the rows they need. */
  predicate Payable(s: State, claim: ClaimId, customer: CustomerId, expired: bool) {
    claim in s.claims && s.claims[claim].event in s.events && s.claims[claim].customer == customer && !expired
    && s.claims[claim].status == Claimed
  }

  /** The run of one Initialize call: two looks at the tables, and then the policy. */
  ghost function InitRun(s: State, env: seq<seq<Action>>, p: ProcId, claim: ClaimId, customer: CustomerId, io: InitIo): seq<Action>
    requires |env| >= 2
  {
    var t := Run(s, env[0]);
    var u := Run(t, env[1]);
    if !io.lookupOk || HasPayment(t, claim) then env[0]
    else if !Payable(u, claim, customer, io.expired) then env[0] + env[1]
    else
      var a := BeginPayment(p, claim);
      env[0] + env[1] + [a] + Driven(Apply(u, a), env[2..], p, PaySteps(p, io.call))
  }

  lemma OthersInParts(e0: seq<Action>, e1: seq<Action>, a: Action, rest: seq<Action>, tail: seq<Action>, p: ProcId)
    requires Foreign(e0, p) && Foreign(e1, p) && Owns(p, a) && Others(rest, p) <= tail
    ensures Others(e0, p) <= e0 + (e1 + tail) && Others(e0 + e1, p) <= e0 + (e1 + tail)
    ensures Others(e0 + e1 + [a] + rest, p) <= e0 + (e1 + tail)
  {
    OthersForeign(e0, p);
    OthersForeign(e1, p);
    OthersAppend(e0, e1, p);
    OthersAppend(e0 + e1, [a], p);
    assert Others([a], p) == [];
    OthersAppend(e0 + e1 + [a], rest, p);
  }

  /** Of the others, the run of a call holds what was scheduled, in order, and nothing else. */
  lemma OthersInInitRun(s: State, env: seq<seq<Action>>, p: ProcId, claim: ClaimId, customer: CustomerId, io: InitIo)
    requires Schedule(env, 2, p)
    ensures Others(InitRun(s, env, p, claim, customer, io), p) <= Flat(env)
  {
    hide Run, Driven, Payable, HasPayment, Others;
    var next := PaySteps(p, io.call);
    var u, a := Run(Run(s, env[0]), env[1]), BeginPayment(p, claim);
    assert env[0] in env && env[1] in env;
    forall t, q
      ensures Owns(p, next(t, q))
    {
      PolicyIs(p, io.call, t, q);
    }
    OthersAreScheduled(Apply(u, a), env[2..], p, next);
    OthersInParts(env[0], env[1], a, Driven(Apply(u, a), env[2..], p, next), Flat(env[2..]), p);
    assert env[1..][1..] == env[2..];
  }

  /** Initialize: look for a payment, validate the claim, persist the row, and only then call.  Without
      a row of its own it calls nobody. */
  method Initialize(w: Platform, p: ProcId, claim: ClaimId, customer: CustomerId, env: seq<seq<Action>>, io: InitIo)
    returns (r: InitReply, ghost run: seq<Action>)
    requires Sound(w.View()) && p !in w.procs && Schedule(env, 8, p)
    modifies w
    ensures w.View() == Run(old(w.View()), run) && Sound(w.View()) && p !in w.procs
    ensures run == InitRun(old(w.View()), env, p, claim, customer, io)
    ensures r.Started? ==> r.ok == io.call.reply.Success? && io.call.payment in w.payments && CallGateway(p, io.call.reply) in run
    ensures !r.Started? ==> forall x :: CallGateway(p, x) !in run
    ensures var t := Run(old(w.View()), env[0]);
      var u := Run(t, env[1]);
      var atInsert := Run(Apply(u, BeginPayment(p, claim)), env[2]);
      var tried := io.lookupOk && !HasPayment(t, claim) && Payable(u, claim, customer, io.expired) && io.call.createOk;
      && (r.Existing? <==> (io.lookupOk && HasPayment(t, claim)) || (tried && io.call.rereadOk && HasPayment(atInsert, claim)))
      && (r.Started? <==> tried && IdsFree(atInsert, io.call) && !HasPayment(atInsert, claim))
    ensures Undisturbed(env) && io.lookupOk && io.call.createOk && io.call.beginOk && io.call.commitOk ==>
      var s := old(w.View());
      if HasPayment(s, claim) then r == Existing && w.View() == s
      else if !Payable(s, claim, customer, io.expired) then r == Invalid && w.View() == s
      else IdsFree(s, io.call) ==>
        && r == Started(io.call.reply.Success?)
        && w.View() == StartResult(s, p, claim, s.events[s.claims[claim].event].price, io.call)
  {
    hide Run, Apply, Sound, StartResult, Driven, HasPayment, IdsFree;
    ghost var start := w.View();
    Split(env);
    Split(env[1..]);
    assert env[1] in env && env[1..][1..] == env[2..];
    EvolvesRun(start, env[0]);
    w.Interfere(env[0], p);
    run := env[0];
    if !io.lookupOk { return Invalid, run; }
    if HasPayment(w.View(), claim) { return Existing, run; }
    EvolvesRun(w.View(), env[1]);
    w.Interfere(env[1], p);
    RunAppend(start, run, env[1]);
    run := run + env[1];
    if !Payable(w.View(), claim, customer, io.expired) { return Invalid, run; }
    ghost var rest;
    r, rest := StartPayment(w, p, claim, env[2..], io.call);
    RunAppend(start, run, rest);
    run := run + rest;
  }

  /** From a claim found payable to the end. */
  method StartPayment(w: Platform, p: ProcId, claim: ClaimId, env: seq<seq<Action>>, io: PayIo)
    returns (r: InitReply, ghost run: seq<Action>)
    requires Sound(w.View()) && p !in w.procs && Schedule(env, 6, p)
    requires claim in w.claims && w.claims[claim].event in w.events && w.claims[claim].status == Claimed
    modifies w
    ensures w.View() == Run(old(w.View()), run) && Sound(w.View()) && p !in w.procs
    ensures run == [BeginPayment(p, claim)] + Driven(Apply(old(w.View()), BeginPayment(p, claim)), env, p, PaySteps(p, io))
    ensures r.Started? ==> r.ok == io.reply.Success? && io.payment in w.payments && CallGateway(p, io.reply) in run
    ensures !r.Started? ==> forall x :: CallGateway(p, x) !in run
    ensures var t := Run(Apply(old(w.View()), BeginPayment(p, claim)), env[0]);
      && (r.Existing? <==> io.createOk && io.rereadOk && HasPayment(t, claim))
      && (r.Started? <==> io.createOk && IdsFree(t, io) && !HasPayment(t, claim))
    ensures Undisturbed(env) && io.createOk && io.beginOk && io.commitOk
            && IdsFree(old(w.View()), io) && !HasPayment(old(w.View()), claim) ==>
      var s := old(w.View());
      r == Started(io.reply.Success?) && w.View() == StartResult(s, p, claim, s.events[s.claims[claim].event].price, io)
  {
    hide Run, Apply, Sound, StartResult, Driven, HasPayment, IdsFree;
    ghost var start := w.View();
    var amount := w.events[w.claims[claim].event].price;
    ValidatedStep(start, p, claim);
    ghost var a := BeginPayment(p, claim);
    SoundStep(start, a);
    StartResultFrom(start, p, claim, amount, io, Creating(claim, amount));
    w.procs := w.procs[p := Creating(claim, amount)];
    ghost var rest;
    r, rest := PersistAndCall(w, p, claim, amount, env, io);
    BeginWritesNothing(start, a, rest, p);
    run := [a] + rest;
  }

  /** Persist the payment row; losing the race for it means that nobody is called.  A refusal is followed
      by a look for the claim's payment, and without one it is an error. */
  method PersistAndCall(w: Platform, p: ProcId, claim: ClaimId, amount: int, env: seq<seq<Action>>, io: PayIo)
    returns (r: InitReply, ghost run: seq<Action>)
    requires Sound(w.View()) && p in w.procs && w.procs[p] == Creating(claim, amount) && Schedule(env, 6, p)
    modifies w
    ensures w.View() == Run(old(w.View()), run) && Sound(w.View()) && p !in w.procs
    ensures run == Driven(old(w.View()), env, p, PaySteps(p, io))
    ensures r.Started? ==> r.ok == io.reply.Success? && io.payment in w.payments && CallGateway(p, io.reply) in run
    ensures !r.Started? ==> forall x :: CallGateway(p, x) !in run
    ensures var t := Run(old(w.View()), env[0]);
      && (r.Existing? <==> io.createOk && io.rereadOk && HasPayment(t, claim))
      && (r.Started? <==> io.createOk && IdsFree(t, io) && !HasPayment(t, claim))
    ensures InsertPayment(p, io.payment, io.reference) in run <==> io.createOk
    ensures claim in old(w.claims)
    ensures Undisturbed(env) && io.createOk && io.beginOk && io.commitOk
            && IdsFree(old(w.View()), io) && !HasPayment(old(w.View()), claim) ==>
      && r == Started(io.reply.Success?)
      && w.View() == StartResult(old(w.View()), p, claim, amount, io)
  {
    hide Run, Sound, Driven, CallResult;
    ghost var start := w.View();
    Split(env);
    LockedRowsStay(start, env[0], p);
    var inserted;
    inserted, run := PersistRow(w, p, claim, amount, env[0], io);
    PayStep(start, env, p, io, w.View());
    if !inserted {
      r := if io.createOk && io.rereadOk && HasPayment(w.View(), claim) then Existing else Invalid;
      return;
    }
    ghost var mid := w.View();
    CallResultFrom(start.(payments := w.payments), p, w.procs[p], io.reply, io.restore);
    var ok;
    ghost var rest;
    ok, rest := CallAndFollow(w, p, io.payment, env[1..], io);
    NoOtherInsert(mid, env[1..], p, io);
    RunAppend(start, run, rest);
    run := run + rest;
    r := Started(ok);
  }

  /** Once past the INSERT a payment process does not come back to it. */
  lemma {:induction false} NoOtherInsert(s: State, env: seq<seq<Action>>, p: ProcId, io: PayIo)
    requires Schedule(env, 0, p) && (p in s.procs ==> !s.procs[p].Creating?)
    ensures InsertPayment(p, io.payment, io.reference) !in Driven(s, env, p, PaySteps(p, io))
    decreases |env|
  {
    if env != [] && p in s.procs {
      var t := Run(s, env[0]);
      ForeignRun(s, env[0], p);
      var a := PayStatement(p, io, t, s.procs[p]);
      PolicyIs(p, io, t, s.procs[p]);
      NeverCreating(t, a);
      hide Run, Apply, PayStatement;
      NoOtherInsert(Apply(t, a), env[1..], p, io);
    }
  }

  lemma NeverCreating(s: State, a: Action)
    requires !a.Wipe? && a.p in s.procs && !s.procs[a.p].Creating?
    ensures a.p in Apply(s, a).procs ==> !Apply(s, a).procs[a.p].Creating?
  {
    hide PaymentLocked, ClaimLocked, HasActiveClaim, CountActive;
  }

  /** The INSERT of the payment row. */
  method PersistRow(w: Platform, p: ProcId, claim: ClaimId, amount: int, acts: seq<Action>, io: PayIo)
    returns (inserted: bool, ghost run: seq<Action>)
    requires Sound(w.View()) && p in w.procs && w.procs[p] == Creating(claim, amount) && Foreign(acts, p)
    modifies w
    ensures w.View() == Run(old(w.View()), run) && Sound(w.View())
    ensures var t := Run(old(w.View()), acts);
      && run == acts + [PayStatement(p, io, t, Creating(claim, amount))]
      && (inserted <==> io.createOk && IdsFree(t, io) && !HasPayment(t, claim))
    ensures forall x :: CallGateway(p, x) !in run
    ensures InsertPayment(p, io.payment, io.reference) in run <==> io.createOk
    ensures !inserted ==> p !in w.procs && w.payments == Run(old(w.View()), acts).payments
    ensures inserted ==> p in w.procs && w.procs[p] == Calling(io.payment, claim, io.reference, amount, false)
    ensures inserted ==> claim in w.claims && io.payment in w.payments && Unlocked(w.View(), io.payment, claim)
    ensures acts == [] && inserted ==>
      var s := old(w.View());
      w.View() == s.(payments := s.payments[io.payment := PaymentRow(claim, amount, io.reference, Initializing)], procs := w.procs)
      && w.procs == s.procs[p := w.procs[p]] && Unlocked(s, io.payment, claim)
  {
    hide Run, Continue, Open, Sound;
    ghost var start := w.View();
    LockedRowsStay(start, acts, p);
    w.Interfere(acts, p);
    ghost var a := PayStatement(p, io, w.View(), w.procs[p]);
    Advance(start, acts, w.View(), a);
    OnPaymentPath(w.View(), a, w.procs[p]);
    run := acts + [a];
    inserted := io.createOk && io.payment !in w.payments
      && !exists k :: k in w.payments && (w.payments[k].claim == claim || w.payments[k].reference == io.reference);
    if inserted {
      ghost var q := Calling(io.payment, claim, io.reference, amount, false);
      NoPaymentNoLock(w.View(), io.payment, claim);
      CallResultFrom(w.View().(payments := w.payments[io.payment := PaymentRow(claim, amount, io.reference, Initializing)]),
                     p, q, io.reply, io.restore);
      w.payments := w.payments[io.payment := PaymentRow(claim, amount, io.reference, Initializing)];
      w.procs := w.procs[p := Calling(io.payment, claim, io.reference, amount, false)];
    } else {
      w.procs := w.procs - {p};
    }
  }

  // ---- Reconcile

  datatype PollAnswer = PollSuccess | PollFailed | PollOther | PollError

  datatype StaleIo = StaleIo(dataOk: bool, call: PayIo, poll: PollAnswer)

  /** The run for one stale row: a repeated request for an INITIALIZING one, the outcome the gateway
      reports for a PENDING one, and nothing for a settled one. */
  ghost function SingleRun(s: State, env: seq<seq<Action>>, p: ProcId, pay: PaymentId, snapshot: PaymentStatus, io: StaleIo): seq<Action> {
    if pay !in s.payments then []
    else
      match snapshot
      case Initializing =>
        if !io.dataOk then []
        else [BeginRetry(p, pay)] + Driven(Apply(s, BeginRetry(p, pay)), env, p, PaySteps(p, io.call))
      case Pending =>
        if io.poll.PollSuccess? || io.poll.PollFailed? then OutcomeRun(s, env, p, pay, io.poll.PollSuccess?, io.call) else []
      case _ => []
  }

  /** The run for the rows of a snapshot from number i on. */
  ghost function ReconcileRun(s: State, env: seq<seq<seq<Action>>>, p: ProcId, stale: seq<(PaymentId, PaymentStatus)>,
                              io: seq<StaleIo>, i: nat): seq<Action>
    requires |env| == |io| == |stale| && i <= |stale|
    decreases |stale| - i
  {
    if i == |stale| then []
    else
      var part := SingleRun(s, env[i], p, stale[i].0, stale[i].1, io[i]);
      part + ReconcileRun(Run(s, part), env, p, stale, io, i + 1)
  }

  /** What reconciling one row comes to when nobody gets in between. */
  function ReconcileResult(s: State, p: ProcId, pay: PaymentId, snapshot: PaymentStatus, io: StaleIo): State
    requires pay in s.payments && s.payments[pay].claim in s.claims
  {
    var row := s.payments[pay];
    match snapshot
    case Initializing =>
      if !io.dataOk then s
      else CallResult(s, p, Calling(pay, row.claim, row.reference, row.amount, true), io.call.reply, io.call.restore)
    case Pending =>
      if !io.poll.PollSuccess? && !io.poll.PollFailed? then s
      else SettleResult(s, p, pay, row.claim, if io.poll.PollSuccess? then Confirm else Fail(Pending), io.call.restore).1
    case _ => s
  }

  /** reconcileSingle, on a row as Reconcile's snapshot has it. */
  method ReconcileSingle(w: Platform, p: ProcId, pay: PaymentId, snapshot: PaymentStatus, env: seq<seq<Action>>, io: StaleIo)
    returns (ghost run: seq<Action>)
    requires Sound(w.View()) && p !in w.procs && Schedule(env, 5, p)
    modifies w
    ensures w.View() == Run(old(w.View()), run) && Sound(w.View()) && p !in w.procs
    ensures run == SingleRun(old(w.View()), env, p, pay, snapshot, io)
    ensures pay in old(w.payments) && snapshot.Initializing? && io.dataOk ==> Asked(w.log, |old(w.log)|, pay, false)
    ensures pay in old(w.payments) ==> old(w.payments)[pay].claim in old(w.claims)
    ensures pay in old(w.payments) && Undisturbed(env) && io.call.beginOk && io.call.commitOk
            && Unlocked(old(w.View()), pay, old(w.payments)[pay].claim) ==>
      w.View() == ReconcileResult(old(w.View()), p, pay, snapshot, io)
  {
    hide Run, Continue, Sound, Driven, CallResult, SettleResult, Unlocked;
    ghost var start := w.View();
    run := [];
    Nothing(start);
    if pay !in w.payments { return; }
    KnownClaim(start, pay);
    match snapshot {
      case Initializing =>
        if io.dataOk {
          var row := w.payments[pay];
          ghost var a := BeginRetry(p, pay);
          Advance(start, run, w.View(), a);
          var q := Calling(pay, row.claim, row.reference, row.amount, true);
          CallResultFrom(start, p, q, io.call.reply, io.call.restore);
          w.procs := w.procs[p := q];
          var ok;
          ghost var rest;
          ok, rest := CallAndFollow(w, p, pay, env, io.call);
          BeginWritesNothing(start, a, rest, p);
          run := [a] + rest;
        }
      case Pending =>
        if io.poll.PollSuccess? || io.poll.PollFailed? {
          var failed;
          failed, run := HandleOutcome(w, p, pay, io.poll.PollSuccess?, env, io.call);
        }
      case _ =>
    }
  }

  /** Reconcile: every stale row of the snapshot in turn; a row that fails does not stop the pass, and
      every INITIALIZING row whose data can be read gets a request of its own. */
  method Reconcile(w: Platform, p: ProcId, stale: seq<(PaymentId, PaymentStatus)>, env: seq<seq<seq<Action>>>, io: seq<StaleIo>)
    returns (ghost run: seq<Action>)
    requires Sound(w.View()) && p !in w.procs && |env| == |io| == |stale|
    requires forall i | 0 <= i < |env| :: Schedule(env[i], 5, p)
    modifies w
    ensures w.View() == Run(old(w.View()), run) && Sound(w.View()) && p !in w.procs
    ensures run == ReconcileRun(old(w.View()), env, p, stale, io, 0)
    ensures forall i | 0 <= i < |stale| && stale[i].0 in old(w.payments) && stale[i].1.Initializing? && io[i].dataOk ::
      Asked(w.log, |old(w.log)|, stale[i].0, false)
  {
    hide Run, Sound, SingleRun, Asked;
    ghost var start := w.View();
    run := [];
    Nothing(start);
    for i := 0 to |stale|
      invariant w.View() == Run(start, run) && Sound(w.View()) && p !in w.procs
      invariant run + ReconcileRun(w.View(), env, p, stale, io, i) == ReconcileRun(start, env, p, stale, io, 0)
      invariant forall k | k in start.payments :: k in w.payments
      invariant |start.log| <= |w.log|
      invariant forall j | 0 <= j < i && stale[j].0 in start.payments && stale[j].1.Initializing? && io[j].dataOk ::
        Asked(w.log, |start.log|, stale[j].0, false)
    {
      ghost var before := w.View();
      ghost var more := ReconcileSingle(w, p, stale[i].0, stale[i].1, env[i], io[i]);
      EvolvesRun(before, more);
      RunAppend(start, run, more);
      ghost var after := w.log;
      forall pay
        ensures Asked(before.log, |start.log|, pay, false) ==> Asked(after, |start.log|, pay, false)
        ensures Asked(after, |before.log|, pay, false) ==> Asked(after, |start.log|, pay, false)
      {
        AskedStays(before.log, after, |start.log|, pay);
      }
      run := run + more;
    }
  }

  lemma AskedStays(before: seq<Call>, after: seq<Call>, since: nat, pay: PaymentId)
    requires before <= after && since <= |before|
    ensures Asked(before, since, pay, false) ==> Asked(after, since, pay, false)
    ensures Asked(after, |before|, pay, false) ==> Asked(after, since, pay, false)
  {
    if k :| since <= k < |before| && before[k].payment == pay && !before[k].byInitialize { assert after[k] == before[k]; }
  }
}
