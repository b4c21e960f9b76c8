/** payments.go as a policy: which statement a payment process issues next. */
module PaymentPolicy {
  import opened Domain
  import opened Protocol
  import opened Stores

  datatype TxReply = Committed | NoMatchingRow | RolledBack

  /** What the stores, the gateway and the id generator do to the statements of one payment process. */
  datatype PayIo = PayIo(
    payment: PaymentId, reference: Reference, createOk: bool, rereadOk: bool, reply: GatewayReply, beginOk: bool,
    commitOk: bool, restore: Delivery)

  // ---- the policy

  /** The statement that follows from a program counter.  A row lock that is not released in time makes
      a statement fail, and the process gives up. */
  function PayStatement(p: ProcId, io: PayIo, s: State, q: Proc): Action {
    match q
    case Creating(_, _) => if io.createOk then InsertPayment(p, io.payment, io.reference) else Stop(p)
    case Calling(_, _, _, _, _) => CallGateway(p, io.reply)
    case Accepted(pay, _) => if PaymentLocked(s.procs, pay) then Stop(p) else MarkPending(p)
    case TxOpen(pay, _, _) => if !io.beginOk || PaymentLocked(s.procs, pay) then Stop(p) else UpdatePayment(p)
    case TxPayment(_, claim, _) => if ClaimLocked(s.procs, claim) then Stop(p) else UpdateClaim(p)
    case TxBoth(_, _, _) => Commit(p, io.commitOk)
    case Owing(_) => GiveBack(p, io.restore)
    case _ => Stop(p)
  }

  function PaySteps(p: ProcId, io: PayIo): Policy {
    (s: State, q: Proc) => PayStatement(p, io, s, q)
  }

  lemma PolicyIs(p: ProcId, io: PayIo, s: State, q: Proc)
    ensures PaySteps(p, io)(s, q) == PayStatement(p, io, s, q) && Owns(p, PayStatement(p, io, s, q))
  {
  }

  /** The others act, then the policy's statement: the first part of a driven run. */
  lemma PayStep(s: State, env: seq<seq<Action>>, p: ProcId, io: PayIo, t: State)
    requires p in s.procs && env != [] && Foreign(env[0], p)
    requires t == Run(s, env[0] + [PayStatement(p, io, Run(s, env[0]), s.procs[p])])
    ensures var run := env[0] + [PayStatement(p, io, Run(s, env[0]), s.procs[p])];
      && Driven(s, env, p, PaySteps(p, io)) == run + Driven(t, env[1..], p, PaySteps(p, io))
      && (p !in t.procs ==> Driven(s, env, p, PaySteps(p, io)) == run)
      && (Writes(s, run, p) <==> Wrote(Run(s, env[0]), run[|run| - 1]))
  {
    hide Run, Apply, Driven, PayStatement;
    var u := Run(s, env[0]);
    PolicyIs(p, io, u, s.procs[p]);
    var a := PayStatement(p, io, u, s.procs[p]);
    DrivenStep(s, env, p, PaySteps(p, io), env[0] + [a], t);
    WritesAppend(s, env[0], [a], p);
    WritesForeign(s, env[0], p);
    assert [a][1..] == [];
  }

  /** The statement changes a payment or claim row. */
  predicate Wrote(s: State, a: Action) {
    Apply(s, a).payments != s.payments || Apply(s, a).claims != s.claims
  }

  /** Some statement of p in the run changes a payment or claim row. */
  ghost predicate Writes(s: State, run: seq<Action>, p: ProcId)
    decreases run
  {
    run != [] && ((Owns(p, run[0]) && Wrote(s, run[0])) || Writes(Apply(s, run[0]), run[1..], p))
  }

  lemma {:induction false} WritesAppend(s: State, r1: seq<Action>, r2: seq<Action>, p: ProcId)
    ensures Writes(s, r1 + r2, p) <==> Writes(s, r1, p) || Writes(Run(s, r1), r2, p)
    decreases r1
  {
    hide Apply, Wrote;
    if r1 == [] {
      assert r1 + r2 == r2;
    } else {
      assert (r1 + r2)[1..] == r1[1..] + r2;
      WritesAppend(Apply(s, r1[0]), r1[1..], r2, p);
    }
  }

  lemma {:induction false} WritesForeign(s: State, acts: seq<Action>, p: ProcId)
    requires Foreign(acts, p)
    ensures !Writes(s, acts, p)
    decreases acts
  {
    if acts != [] { WritesForeign(Apply(s, acts[0]), acts[1..], p); }
  }

  /** What the last statement of a transaction body says: no match on the payment row, a COMMIT, or
      anything that rolls back. */
  function TxReplyOf(run: seq<Action>): TxReply
    requires run != []
  {
    match run[|run| - 1]
    case UpdatePayment(_) => NoMatchingRow
    case Commit(_, ok) => if ok then Committed else RolledBack
    case _ => RolledBack
  }

  lemma TxReplyOfAppend(r1: seq<Action>, r2: seq<Action>)
    requires r2 != []
    ensures TxReplyOf(r1 + r2) == TxReplyOf(r2)
  {
  }

  lemma CommitIsNext(p: ProcId, io: PayIo, s: State, q: Proc)
    requires q.TxBoth?
    ensures PayStatement(p, io, s, q) == Commit(p, io.commitOk)
  {
  }

  lemma Join(whole: seq<Action>, r1: seq<Action>, tail: seq<Action>, r2: seq<Action>, end: seq<Action>)
    requires whole == r1 + tail && tail == r2 + end
    ensures whole == r1 + r2 + end
  {
  }
}
