/** The two stores as the services use them: one field per table or key space, one method per
    statement.  Every method takes what the network does to its statement as an argument. */
module Stores {
  import opened Domain
  import opened Protocol

  datatype Attempt = Taken(count: int) | CacheMiss | NoneLeft | Unavailable

  /** How AttemptDecrement reads the script's answer: a non-negative one is the new count, -1 a cache
      miss, -2 sold out, and no answer an error. */
  function AttemptAt(s: State, e: EventId, d: Delivery): Attempt {
    if !d.Answered? then Unavailable
    else if e !in s.counters then CacheMiss
    else if s.counters[e] > 0 then Taken(s.counters[e] - 1)
    else NoneLeft
  }

  /** Result of a conditional UPDATE. */
  datatype Updated = Matched | NoRow | Blocked

  /** The actions of other processes that run between two statements of process p. */
  predicate Foreign(acts: seq<Action>, p: ProcId) {
    forall a | a in acts :: a.Wipe? || a.p != p
  }

  /** What the other processes do before each of up to n statements of process p. */
  predicate Schedule(env: seq<seq<Action>>, n: nat, p: ProcId) {
    |env| >= n && forall acts | acts in env :: Foreign(acts, p)
  }

  predicate Undisturbed(env: seq<seq<Action>>) {
    forall acts | acts in env :: acts == []
  }

  lemma Split(env: seq<seq<Action>>)
    requires env != []
    ensures env == [env[0]] + env[1..]
    ensures Undisturbed(env) ==> env[0] == [] && Undisturbed(env[1..])
  {
    assert env[0] in env;
    assert forall acts | acts in env[1..] :: acts in env;
  }

  predicate Owns(p: ProcId, a: Action) {
    !a.Wipe? && a.p == p
  }

  /** The statement a process issues at a program counter, in view of what the stores hold. */
  type Policy = (State, Proc) -> Action

  /** The run of a process in flight that follows its policy, the others acting before each of its
      statements as scheduled, until it is over or the schedule ends. */
  ghost function Driven(s: State, env: seq<seq<Action>>, p: ProcId, next: Policy): seq<Action>
    decreases |env|
  {
    if env == [] || p !in s.procs then []
    else
      var t := Run(s, env[0]);
      var a := next(t, s.procs[p]);
      env[0] + [a] + Driven(Apply(t, a), env[1..], p, next)
  }

  /** Everything the others were scheduled to do. */
  function Flat(env: seq<seq<Action>>): seq<Action> {
    if env == [] then [] else env[0] + Flat(env[1..])
  }

  /** The statements of a run that are not those of p. */
  function Others(run: seq<Action>, p: ProcId): seq<Action> {
    if run == [] then [] else (if Owns(p, run[0]) then [] else [run[0]]) + Others(run[1..], p)
  }

  lemma {:induction false} OthersAppend(r1: seq<Action>, r2: seq<Action>, p: ProcId)
    ensures Others(r1 + r2, p) == Others(r1, p) + Others(r2, p)
  {
    if r1 == [] {
      assert r1 + r2 == r2;
    } else {
      assert (r1 + r2)[1..] == r1[1..] + r2;
      OthersAppend(r1[1..], r2, p);
    }
  }

  lemma {:induction false} OthersForeign(acts: seq<Action>, p: ProcId)
    requires Foreign(acts, p)
    ensures Others(acts, p) == acts
  {
    if acts != [] { OthersForeign(acts[1..], p); }
  }

  /** A driven run holds, of the others, only what was scheduled, in that order, and nothing is left out. */
  lemma {:induction false} OthersAreScheduled(s: State, env: seq<seq<Action>>, p: ProcId, next: Policy)
    requires Schedule(env, 0, p)
    requires forall t, q :: Owns(p, next(t, q))
    ensures Others(Driven(s, env, p, next), p) <= Flat(env)
    decreases |env|
  {
    if env != [] && p in s.procs {
      var t := Run(s, env[0]);
      var a := next(t, s.procs[p]);
      var rest := Driven(Apply(t, a), env[1..], p, next);
      OthersAreScheduled(Apply(t, a), env[1..], p, next);
      OthersForeign(env[0], p);
      OthersAppend(env[0] + [a], rest, p);
      OthersAppend(env[0], [a], p);
      assert Others([a], p) == [];
    }
  }

  /** The first statement of a driven run, and the rest. */
  lemma DrivenStep(s: State, env: seq<seq<Action>>, p: ProcId, next: Policy, run: seq<Action>, t: State)
    requires p in s.procs && env != []
    requires run == env[0] + [next(Run(s, env[0]), s.procs[p])] && t == Run(s, run)
    ensures Driven(s, env, p, next) == run + Driven(t, env[1..], p, next)
    ensures p !in t.procs ==> Driven(s, env, p, next) == run
  {
    RunSnoc(s, env[0], next(Run(s, env[0]), s.procs[p]));
  }

  /** The statement of the claim path that a stands for, at program counter q. */
  lemma OnClaimPath(s: State, a: Action, q: Proc)
    ensures a.Decrement? && q.Decrementing? ==> Continue(s, a, q) == DoDecrement(s, q, a.delivery)
    ensures a.CountFromPostgres? && q.Counting? ==> Continue(s, a, q) == DoCount(s, q)
    ensures a.WarmCache? && q.Warming? ==> Continue(s, a, q) == DoWarm(s, q, a.delivery)
    ensures a.InsertClaim? && q.Inserting? ==> Continue(s, a, q) == DoInsertClaim(s, q, a.id, a.ok)
    ensures a.GiveBack? && (q.RollingBack? || q.Owing?) ==> Continue(s, a, q) == DoGiveBack(s, q.event, a.delivery)
    ensures a.Stop? ==> Continue(s, a, q) == (s, None)
  {
  }

  lemma Nothing(s: State)
    ensures Run(s, []) == s
  {
  }

  /** One more statement at the end of a run. */
  lemma Extend(start: State, run: seq<Action>, s: State, a: Action)
    requires s == Run(start, run)
    ensures Apply(s, a) == Run(start, run + [a])
  {
    RunSnoc(start, run, a);
  }

  /** One more statement of a process in flight. */
  lemma Proceed(start: State, run: seq<Action>, s: State, a: Action)
    requires s == Run(start, run) && !a.Wipe? && a.p in s.procs
    ensures var r := Continue(s, a, s.procs[a.p]);
      Run(start, run + [a]) == r.0.(procs := if r.1.None? then s.procs - {a.p} else s.procs[a.p := r.1.value])
  {
    hide Continue;
    Extend(start, run, s, a);
  }

  lemma ForeignStep(s: State, a: Action, p: ProcId)
    requires a.Wipe? || a.p != p
    ensures p in Apply(s, a).procs <==> p in s.procs
    ensures p in s.procs ==> Apply(s, a).procs[p] == s.procs[p]
  {
  }

  lemma {:induction false} ForeignRun(s: State, acts: seq<Action>, p: ProcId)
    requires Foreign(acts, p)
    ensures p in Run(s, acts).procs <==> p in s.procs
    ensures p in s.procs ==> Run(s, acts).procs[p] == s.procs[p]
    decreases acts
  {
    if acts != [] {
      ForeignStep(s, acts[0], p);
      ForeignRun(Apply(s, acts[0]), acts[1..], p);
    }
  }

  class Platform {
    var events: map<EventId, EventRow>
    var counters: map<EventId, int>
    var claims: map<ClaimId, ClaimRow>
    var payments: map<PaymentId, PaymentRow>
    var procs: map<ProcId, Proc>
    var log: seq<Call>

    function View(): State
      reads this
    {
      State(events, counters, claims, payments, procs, log)
    }

    constructor (catalogue: map<EventId, EventRow>)
      ensures Initial(View()) && events == catalogue && counters == map[]
    {
      events, counters, claims, payments, procs, log := catalogue, map[], map[], map[], map[], [];
    }

    // ---- Redis

    method DecrementIfAvailable(e: EventId, d: Delivery) returns (failed: bool, res: int)
      modifies this`counters
      ensures failed == !d.Answered?
      ensures counters == if d.Unsent? then old(counters) else DecrementScript(old(counters), e).0
      ensures d.Answered? ==> res == DecrementScript(old(counters), e).1
    {
      failed, res := !d.Answered?, 0;
      if !d.Unsent? {
        if e !in counters {
          res := -1;
        } else if counters[e] <= 0 {
          res := -2;
        } else {
          counters := counters[e := counters[e] - 1];
          res := counters[e];
        }
      }
    }

    /** A non-negative answer is the new count, -1 a cache miss, -2 sold out, anything else an error. */
    method AttemptDecrement(e: EventId, d: Delivery) returns (r: Attempt)
      modifies this`counters
      ensures counters == if d.Unsent? then old(counters) else DecrementScript(old(counters), e).0
      ensures r == AttemptAt(old(View()), e, d)
      ensures r.Taken? ==> r.count == counters[e]
    {
      var failed, res := DecrementIfAvailable(e, d);
      if failed {
        r := Unavailable;
      } else if res >= 0 {
        r := Taken(res);
      } else if res == -1 {
        r := CacheMiss;
      } else if res == -2 {
        r := NoneLeft;
      } else {
        r := Unavailable;
      }
    }

    method Increment(e: EventId, d: Delivery) returns (failed: bool)
      modifies this`counters
      ensures failed == !d.Answered?
      ensures counters == if d.Unsent? then old(counters) else IncrementBy1(old(counters), e)
    {
      failed := !d.Answered?;
      if !d.Unsent? {
        counters := counters[e := (if e in counters then counters[e] else 0) + 1];
      }
    }

    method ForceSet(e: EventId, count: int, d: Delivery) returns (failed: bool)
      modifies this`counters
      ensures failed == !d.Answered?
      ensures counters == if d.Unsent? then old(counters) else old(counters)[e := count]
    {
      failed := !d.Answered?;
      if !d.Unsent? { counters := counters[e := count]; }
    }

    /** SET NX: true when the key was missing and is now set. */
    method SetIfMissing(e: EventId, count: int, d: Delivery) returns (failed: bool, stored: bool)
      modifies this`counters
      ensures failed == !d.Answered?
      ensures counters == if d.Unsent? || e in old(counters) then old(counters) else old(counters)[e := count]
      ensures d.Answered? ==> (stored <==> e !in old(counters))
    {
      failed, stored := !d.Answered?, false;
      if !d.Unsent? && e !in counters {
        counters := counters[e := count];
        stored := true;
      }
    }

    // ---- Postgres

    /** The unique indexes are checked while the row is inserted, the foreign key after that. */
    method CreateClaim(id: ClaimId, row: ClaimRow, ok: bool) returns (failed: bool, duplicate: bool)
      modifies this`claims
      ensures duplicate <==>
        ok && (id in old(claims) || (row.status == Claimed && HasActiveClaim(old(claims), row.customer, row.event)))
      ensures failed <==> !ok || row.event !in events || id in old(claims)
                          || (row.status == Claimed && HasActiveClaim(old(claims), row.customer, row.event))
      ensures claims == if failed then old(claims) else old(claims)[id := row]
    {
      duplicate := ok && (id in claims || (row.status == Claimed && HasActiveClaim(claims, row.customer, row.event)));
      failed := !ok || duplicate || row.event !in events;
      if !failed { claims := claims[id := row]; }
    }

    /** The claim UPDATE outside a transaction.  A row lock that is not released in time makes the
        statement fail. */
    method UpdateClaimStatus(id: ClaimId, to: ClaimStatus, from: ClaimStatus) returns (r: Updated)
      modifies this`claims
      ensures r.Blocked? <==> ClaimLocked(procs, id)
      ensures r.Matched? <==> !ClaimLocked(procs, id) && id in old(claims) && old(claims)[id].status == from
      ensures claims == if r.Matched? then SetClaim(old(claims), id, to) else old(claims)
    {
      if ClaimLocked(procs, id) {
        r := Blocked;
      } else if id in claims && claims[id].status == from {
        claims := claims[id := claims[id].(status := to)];
        r := Matched;
      } else {
        r := NoRow;
      }
    }

    // ---- everybody else

    method Perform(a: Action)
      modifies this
      ensures View() == Apply(old(View()), a)
    {
      var t := Apply(View(), a);
      events, counters, claims, payments, procs, log := t.events, t.counters, t.claims, t.payments, t.procs, t.log;
    }

    /** Other processes run while p is between two statements. */
    method Interfere(acts: seq<Action>, p: ProcId)
      requires Foreign(acts, p)
      modifies this
      ensures View() == Run(old(View()), acts)
      ensures acts == [] ==> View() == old(View())
      ensures p in procs <==> p in old(procs)
      ensures p in procs ==> procs[p] == old(procs)[p]
    {
      for i := 0 to |acts|
        invariant View() == Run(old(View()), acts[..i])
        invariant p in procs <==> p in old(procs)
        invariant p in procs ==> procs[p] == old(procs)[p]
      {
        ghost var before := View();
        Perform(acts[i]);
        ForeignStep(before, acts[i], p);
        RunSnoc(old(View()), acts[..i], acts[i]);
        assert acts[..i + 1] == acts[..i] + [acts[i]];
      }
      assert acts[..|acts|] == acts;
    }
  }

  /** The increment that follows a refused INSERT or a released row; its failure is only logged. */
  method GiveTicketBack(w: Platform, p: ProcId, e: EventId, acts: seq<Action>, d: Delivery) returns (ghost run: seq<Action>)
    requires p in w.procs && (w.procs[p] == RollingBack(e) || w.procs[p] == Owing(e)) && Foreign(acts, p)
    modifies w
    ensures w.View() == Run(old(w.View()), run) && p !in w.procs
    ensures run == acts + [GiveBack(p, d)]
    ensures acts == [] ==>
      var s := old(w.View());
      w.View() == s.(counters := if d.Unsent? then s.counters else IncrementBy1(s.counters, e), procs := s.procs - {p})
  {
    hide Run, Apply, Effects, Continue;
    ghost var start := w.View();
    w.Interfere(acts, p);
    ghost var a := GiveBack(p, d);
    Proceed(start, acts, w.View(), a);
    OnClaimPath(w.View(), a, w.procs[p]);
    run := acts + [a];
    var failed := w.Increment(e, d);
    w.procs := w.procs - {p};
  }
}
