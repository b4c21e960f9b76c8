/** claims.go as a policy: which statement a claim attempt issues next, what it hears, and what it
    costs, over every interleaving with other processes. */
module ClaimPolicy {
  import opened Domain
  import opened Protocol
  import opened Integrity
  import opened Ledger
  import opened Stores
  import opened Books

  datatype LockReply = Acquired | HeldElsewhere | RedisDown

  /** What the stores do to the statements of one Claim call. */
  datatype ClaimIo = ClaimIo(
    lookupOk: bool, lock: LockReply, first: Delivery, countOk: bool, warm: Delivery, second: Delivery,
    insertOk: bool, rollback: Delivery)

  /** Errors as the caller can tell them apart. */
  datatype ClaimReply = Won(id: ClaimId, count: int) | AlreadyClaimed | NoTickets | Refused

  /** Every statement succeeds and the lock is not held elsewhere; Redis may refuse the lock. */
  predicate Healthy(io: ClaimIo) {
    io.lookupOk && !io.lock.HeldElsewhere? && io.first.Answered? && io.countOk && io.warm.Answered? && io.second.Answered?
    && io.insertOk
  }

  /** The statement that follows from a program counter. */
  function NextStatement(p: ProcId, id: ClaimId, io: ClaimIo, q: Proc): Action {
    match q
    case Decrementing(_, _, retry) =>
      if retry then Decrement(p, io.second) else if io.lock.HeldElsewhere? then Stop(p) else Decrement(p, io.first)
    case Counting(_, _) => if io.countOk then CountFromPostgres(p) else Stop(p)
    case Warming(_, _, _) => WarmCache(p, io.warm)
    case Inserting(_, _) => InsertClaim(p, id, io.insertOk)
    case RollingBack(_) => GiveBack(p, io.rollback)
    case _ => Stop(p)
  }

  function ClaimSteps(p: ProcId, id: ClaimId, io: ClaimIo): Policy {
    (s: State, q: Proc) => NextStatement(p, id, io, q)
  }

  /** The run of one Claim call: a look-up, and then the policy. */
  ghost function ClaimRun(s: State, env: seq<seq<Action>>, p: ProcId, c: CustomerId, e: EventId, id: ClaimId, io: ClaimIo): seq<Action>
    requires env != []
  {
    if !io.lookupOk then env[0]
    else
      var begin := env[0] + [BeginClaim(p, c, e)];
      begin + Driven(Run(s, begin), env[1..], p, ClaimSteps(p, id, io))
  }

  /** Of the others, the run of a call holds what was scheduled, in order, and nothing else. */
  lemma OthersInClaimRun(s: State, env: seq<seq<Action>>, p: ProcId, c: CustomerId, e: EventId, id: ClaimId, io: ClaimIo)
    requires Schedule(env, 1, p)
    ensures Others(ClaimRun(s, env, p, c, e, id, io), p) <= Flat(env)
  {
    hide Run, Driven;
    var begin := env[0] + [BeginClaim(p, c, e)];
    var next := ClaimSteps(p, id, io);
    assert env[0] in env;
    OthersForeign(env[0], p);
    OthersAppend(env[0], [BeginClaim(p, c, e)], p);
    assert Others([BeginClaim(p, c, e)], p) == [];
    OthersAppend(begin, Driven(Run(s, begin), env[1..], p, next), p);
    forall t, q
      ensures Owns(p, next(t, q))
    {
      PolicyIs(p, id, io, t, q);
    }
    OthersAreScheduled(Run(s, begin), env[1..], p, next);
  }

  // ---- what the caller hears

  /** The reply so far, after one more statement of the attempt. */
  function Hear(s: State, a: Action, h: ClaimReply): ClaimReply
    requires !a.Wipe?
  {
    if a.BeginClaim? then if HasActiveClaim(s.claims, a.customer, a.event) then AlreadyClaimed else h
    else if a.p !in s.procs then h
    else
      match (a, s.procs[a.p])
      case (Stop(_), Decrementing(_, _, _)) => AlreadyClaimed
      case (Stop(_), _) => Refused
      case (Decrement(_, d), Decrementing(_, e, retry)) => HearDecrement(s, e, d, retry, h)
      case (CountFromPostgres(_), Counting(_, e)) =>
        if e !in s.events then Refused
        else if s.events[e].total - CountActive(s.claims, e) <= 0 then NoTickets else h
      case (InsertClaim(_, id, ok), Inserting(c, e)) =>
        if !ok then Refused
        else if id in s.claims || HasActiveClaim(s.claims, c, e) then AlreadyClaimed
        else if e !in s.events then Refused
        else Won(id, if h.Won? then h.count else 0)
      case _ => h
  }

  /** A missing key sends the first attempt to Postgres and passes for zero on the second. */
  function HearDecrement(s: State, e: EventId, d: Delivery, retry: bool, h: ClaimReply): ClaimReply {
    match AttemptAt(s, e, d)
    case Unavailable => Refused
    case Taken(n) => Won(0, n)
    case NoneLeft => NoTickets
    case CacheMiss => if retry then Won(0, 0) else h
  }

  /** The reply after the statements of p in a run, whoever else takes part in it. */
  ghost function Heard(s: State, run: seq<Action>, p: ProcId, h: ClaimReply): ClaimReply
    decreases run
  {
    if run == [] then h
    else Heard(Apply(s, run[0]), run[1..], p, if Owns(p, run[0]) then Hear(s, run[0], h) else h)
  }

  lemma {:induction false} HeardAppend(s: State, r1: seq<Action>, r2: seq<Action>, p: ProcId, h: ClaimReply)
    ensures Heard(s, r1 + r2, p, h) == Heard(Run(s, r1), r2, p, Heard(s, r1, p, h))
    decreases r1
  {
    hide Apply, Hear;
    if r1 == [] {
      assert r1 + r2 == r2;
    } else {
      assert (r1 + r2)[1..] == r1[1..] + r2;
      HeardAppend(Apply(s, r1[0]), r1[1..], r2, p, if Owns(p, r1[0]) then Hear(s, r1[0], h) else h);
    }
  }

  lemma {:induction false} HeardForeign(s: State, acts: seq<Action>, p: ProcId, h: ClaimReply)
    requires Foreign(acts, p)
    ensures Heard(s, acts, p, h) == h
    decreases acts
  {
    if acts != [] { HeardForeign(Apply(s, acts[0]), acts[1..], p, h); }
  }

  lemma HeardStep(s: State, acts: seq<Action>, a: Action, p: ProcId, h: ClaimReply)
    requires Foreign(acts, p) && Owns(p, a)
    ensures Heard(s, acts + [a], p, h) == Hear(Run(s, acts), a, h)
  {
    hide Apply, Hear, Run;
    HeardAppend(s, acts, [a], p, h);
    HeardForeign(s, acts, p, h);
    assert [a][1..] == [];
  }

  // ---- what an attempt costs

  /** No answered decrement and no rollback gets lost. */
  predicate NothingLost(io: ClaimIo) {
    io.first.Answered? && io.second.Answered? && io.rollback.Answered?
  }

  predicate OnClaim(q: Proc, e: EventId) {
    (q.Decrementing? || q.Counting? || q.Warming? || q.Inserting? || q.RollingBack?) && q.event == e
  }

  predicate MayMiss(q: Proc) { q.Decrementing? || q.Counting? || q.Warming? }

  /** One statement of the attempt. */
  lemma CostOfOne(s: State, p: ProcId, e: EventId, id: ClaimId, io: ClaimIo, h: ClaimReply)
    requires Sound(s) && p in s.procs && OnClaim(s.procs[p], e) && NothingLost(io) && (h.Won? <==> s.procs[p].Inserting?)
    ensures var q := s.procs[p]; var a := NextStatement(p, id, io, q); var t := Apply(s, a); var b := EntryOf(s, a, e);
      && Owns(p, a) && b.lost == 0 && (Hear(s, a, h).Won? <==> (p !in t.procs && b.sold == 1) || (p in t.procs && t.procs[p].Inserting?))
      && (p in t.procs ==> b.sold == 0 && OnClaim(t.procs[p], e)) && 0 <= b.sold <= 1
      && b.raised == One(q.Decrementing? && q.retry && e !in s.counters)
      && (MayMiss(q) || (p in t.procs ==> !MayMiss(t.procs[p])))
      && (b.raised == 1 ==> p in t.procs && !MayMiss(t.procs[p]))
      && (b.written != 0 ==> a == WarmCache(p, io.warm) && !io.warm.Unsent?)
      && (p in t.procs && t.procs[p].Decrementing? ==> t.procs[p].retry && q.Warming?)
  {
    hide PaymentLocked, ClaimLocked, HasActiveClaim, CountActive, Sound;
    SoldMoves(s, NextStatement(p, id, io, s.procs[p]), e);
  }

  /** What a whole attempt costs, from any of its program counters to its end. */
  ghost predicate Costs(s: State, run: seq<Action>, p: ProcId, e: EventId, io: ClaimIo, h: ClaimReply) {
    var b := OwnBook(s, run, p, e);
    && b.lost == 0 && 0 <= b.raised <= 1
    && (p !in Run(s, run).procs ==> b.sold == One(Heard(s, run, p, h).Won?))
    && (p in s.procs && !MayMiss(s.procs[p]) ==> b.raised == 0)
    && (WarmCache(p, io.warm) !in run ==> b.raised == 0 || (p in s.procs && s.procs[p].Decrementing? && s.procs[p].retry))
    && (WarmCache(p, io.warm) !in run || io.warm.Unsent? ==> b.written == 0)
  }

  lemma CostsCompose(s: State, acts: seq<Action>, rest: seq<Action>, p: ProcId, e: EventId, id: ClaimId, io: ClaimIo, h: ClaimReply)
    requires Sound(s) && Foreign(acts, p) && NothingLost(io)
    requires p in s.procs && OnClaim(s.procs[p], e) && (h.Won? <==> s.procs[p].Inserting?)
    requires var t := Run(s, acts); var a := NextStatement(p, id, io, s.procs[p]); var u := Apply(t, a);
      (p in u.procs ==> Costs(u, rest, p, e, io, Hear(t, a, h))) && (p !in u.procs ==> rest == [])
    ensures Costs(s, acts + [NextStatement(p, id, io, s.procs[p])] + rest, p, e, io, h)
  {
    hide Run, Apply, EntryOf, Sound, Hear, OwnBook, Heard;
    var t, a := Run(s, acts), NextStatement(p, id, io, s.procs[p]);
    var u := Apply(t, a);
    EvolvesRun(s, acts);
    ForeignRun(s, acts, p);
    CostOfOne(t, p, e, id, io, h);
    BookStep(s, acts, a, rest, p, e);
    HeardStep(s, acts, a, p, h);
    HeardAppend(s, acts + [a], rest, p, h);
    RunSnoc(s, acts, a);
    RunAppend(s, acts + [a], rest);
    NotScheduled(acts, p, io);
    Gone(u, p, e, Hear(t, a, h));
  }

  lemma {:induction false} DrivenCost(s: State, env: seq<seq<Action>>, p: ProcId, e: EventId, id: ClaimId, io: ClaimIo, h: ClaimReply)
    requires Sound(s) && Schedule(env, 0, p) && NothingLost(io)
    requires p in s.procs && OnClaim(s.procs[p], e) && (h.Won? <==> s.procs[p].Inserting?)
    ensures Costs(s, Driven(s, env, p, ClaimSteps(p, id, io)), p, e, io, h)
    decreases |env|
  {
    hide Run, Apply, Sound, Hear, Costs, OnClaim, NothingLost;
    if env == [] {
      CostsNothing(s, p, e, io, h);
    } else {
      var t, a := Run(s, env[0]), NextStatement(p, id, io, s.procs[p]);
      var u := Apply(t, a);
      PolicyIs(p, id, io, t, s.procs[p]);
      EvolvesRun(s, env[0]);
      ForeignRun(s, env[0], p);
      CostOfOne(t, p, e, id, io, h);
      SoundStep(t, a);
      if p in u.procs { DrivenCost(u, env[1..], p, e, id, io, Hear(t, a, h)); }
      CostsCompose(s, env[0], Driven(u, env[1..], p, ClaimSteps(p, id, io)), p, e, id, io, h);
    }
  }

  lemma CostsNothing(s: State, p: ProcId, e: EventId, io: ClaimIo, h: ClaimReply)
    requires p in s.procs
    ensures Costs(s, [], p, e, io, h)
  {
  }

  lemma PolicyIs(p: ProcId, id: ClaimId, io: ClaimIo, s: State, q: Proc)
    ensures ClaimSteps(p, id, io)(s, q) == NextStatement(p, id, io, q) && Owns(p, NextStatement(p, id, io, q))
  {
  }

  lemma NotScheduled(acts: seq<Action>, p: ProcId, io: ClaimIo)
    requires Foreign(acts, p)
    ensures WarmCache(p, io.warm) !in acts
  {
  }

  lemma Gone(s: State, p: ProcId, e: EventId, h: ClaimReply)
    ensures OwnBook(s, [], p, e) == EMPTY && Heard(s, [], p, h) == h && Run(s, []) == s
  {
  }

  lemma StaysOnClaim(s: State, p: ProcId, e: EventId, id: ClaimId, io: ClaimIo)
    requires p in s.procs && OnClaim(s.procs[p], e)
    ensures var a := NextStatement(p, id, io, s.procs[p]); var t := Apply(s, a);
      && (p in t.procs ==> OnClaim(t.procs[p], e))
      && (a == Stop(p) ==> !io.countOk || io.lock.HeldElsewhere?)
  {
    hide HasActiveClaim, CountActive;
  }

  lemma {:induction false} DrivenStopsOnlyWhen(s: State, env: seq<seq<Action>>, p: ProcId, e: EventId, id: ClaimId, io: ClaimIo)
    requires Schedule(env, 0, p) && (p in s.procs ==> OnClaim(s.procs[p], e)) && io.countOk && !io.lock.HeldElsewhere?
    ensures Stop(p) !in Driven(s, env, p, ClaimSteps(p, id, io))
    decreases |env|
  {
    hide Run, Apply, OnClaim;
    if env != [] && p in s.procs {
      var t := Run(s, env[0]);
      ForeignRun(s, env[0], p);
      PolicyIs(p, id, io, t, s.procs[p]);
      StaysOnClaim(t, p, e, id, io);
      DrivenStopsOnlyWhen(Apply(t, NextStatement(p, id, io, s.procs[p])), env[1..], p, e, id, io);
    }
  }

  /** An attempt gives up on its own account only for a failed look-up or a lock held elsewhere. */
  lemma StopsOnlyWhen(s: State, env: seq<seq<Action>>, p: ProcId, c: CustomerId, e: EventId, id: ClaimId, io: ClaimIo)
    requires p !in s.procs && Schedule(env, 1, p)
    ensures io.countOk && !io.lock.HeldElsewhere? ==> Stop(p) !in ClaimRun(s, env, p, c, e, id, io)
  {
    hide Run, Driven;
    assert env[0] in env;
    if io.countOk && !io.lock.HeldElsewhere? && io.lookupOk {
      var t := Run(s, env[0]);
      ForeignRun(s, env[0], p);
      RunSnoc(s, env[0], BeginClaim(p, c, e));
      BeginIsFree(t, p, c, e);
      DrivenStopsOnlyWhen(Apply(t, BeginClaim(p, c, e)), env[1..], p, e, id, io);
    }
  }

  lemma BeginIsFree(s: State, p: ProcId, c: CustomerId, e: EventId)
    requires p !in s.procs
    ensures EntryOf(s, BeginClaim(p, c, e), e) == EMPTY
    ensures var u := Apply(s, BeginClaim(p, c, e));
      p in u.procs ==> u.procs[p] == Decrementing(c, e, false) && !HasActiveClaim(s.claims, c, e)
  {
  }

  /** What a claim attempt costs the counter, over every interleaving in which none of its own answers
      is lost: a win takes one ticket, a loss takes none.  The exceptions are the attempt's own
      overwrite of the counter, and one ticket too many if the second cache miss is ignored; without a
      cache warm-up there is neither. */
  lemma AttemptCost(s: State, env: seq<seq<Action>>, p: ProcId, c: CustomerId, e: EventId, id: ClaimId, io: ClaimIo)
    requires Sound(s) && p !in s.procs && Schedule(env, 1, p) && NothingLost(io)
    requires p !in Run(s, ClaimRun(s, env, p, c, e, id, io)).procs
    ensures var run := ClaimRun(s, env, p, c, e, id, io); var b := OwnBook(s, run, p, e);
      && b.counter == b.raised + b.written - One(Heard(s, run, p, Refused).Won?) && 0 <= b.raised <= 1
      && (WarmCache(p, io.warm) !in run ==> b.raised == 0)
      && (WarmCache(p, io.warm) !in run || io.warm.Unsent? ==> b.written == 0)
  {
    hide Run, Apply, EntryOf, Sound, Hear, OwnBook, Heard, OnClaim, NothingLost;
    var run := ClaimRun(s, env, p, c, e, id, io);
    OwnBookBalances(s, run, p, e);
    NotScheduled(env[0], p, io);
    if !io.lookupOk {
      ForeignBook(s, env[0], p, e);
      HeardForeign(s, env[0], p, Refused);
    } else {
      AttemptParts(s, env, p, c, e, id, io);
    }
  }

  lemma AttemptParts(s: State, env: seq<seq<Action>>, p: ProcId, c: CustomerId, e: EventId, id: ClaimId, io: ClaimIo)
    requires Sound(s) && p !in s.procs && Schedule(env, 1, p) && NothingLost(io) && io.lookupOk
    ensures Costs(s, ClaimRun(s, env, p, c, e, id, io), p, e, io, Refused)
  {
    hide Run, Apply, Sound, Costs, NothingLost, Hear;
    var t, a := Run(s, env[0]), BeginClaim(p, c, e);
    var u := Apply(t, a);
    EvolvesRun(s, env[0]);
    ForeignRun(s, env[0], p);
    SoundStep(t, a);
    RunSnoc(s, env[0], a);
    BeginIsFree(t, p, c, e);
    HearBegin(t, p, c, e);
    if p in u.procs {
      DrivenCost(u, env[1..], p, e, id, io, Hear(t, a, Refused));
    } else {
      CostsOver(u, p, e, io, Hear(t, a, Refused));
    }
    FreeFirst(s, env[0], a, Driven(u, env[1..], p, ClaimSteps(p, id, io)), p, e, io);
  }

  lemma HearBegin(s: State, p: ProcId, c: CustomerId, e: EventId)
    ensures !Hear(s, BeginClaim(p, c, e), Refused).Won?
  {
  }

  lemma CostsOver(s: State, p: ProcId, e: EventId, io: ClaimIo, h: ClaimReply)
    requires p !in s.procs && !h.Won?
    ensures Costs(s, [], p, e, io, h)
  {
  }

  lemma FreeFirst(s: State, acts: seq<Action>, a: Action, rest: seq<Action>, p: ProcId, e: EventId, io: ClaimIo)
    requires Foreign(acts, p) && Owns(p, a) && a.BeginClaim? && p !in s.procs && EntryOf(Run(s, acts), a, e) == EMPTY
    requires var u := Apply(Run(s, acts), a);
      Costs(u, rest, p, e, io, Hear(Run(s, acts), a, Refused)) && (p in u.procs ==> u.procs[p].Decrementing? && !u.procs[p].retry)
    ensures Costs(s, acts + [a] + rest, p, e, io, Refused)
  {
    hide Run, Apply, EntryOf, Hear, OwnBook, Heard;
    BookStep(s, acts, a, rest, p, e);
    HeardStep(s, acts, a, p, Refused);
    HeardAppend(s, acts + [a], rest, p, Refused);
    RunSnoc(s, acts, a);
    RunAppend(s, acts + [a], rest);
    NotScheduled(acts, p, io);
  }
}
