/** claims.go: one customer claims one ticket, or releases it, while any number of other processes
    run between the statements. */
module ClaimService {
  import opened Domain
  import opened Protocol
  import opened Integrity
  import opened Ledger
  import opened Stores
  import opened Books
  import opened ClaimPolicy

  /** The stock a claim attempt meets: the counter, or T - CLAIMED when the key is missing. */
  function Stock(s: State, e: EventId): int
    requires e in s.events
  {
    if e in s.counters then s.counters[e] else s.events[e].total - CountActive(s.claims, e)
  }

  /** A stretch of an attempt: from s to t, whatever the others did, exactly the statements of the
      policy were issued, the reply is what they heard, and the rest of the schedule is still to come. */
  ghost predicate Stretch(s: State, env: seq<seq<Action>>, p: ProcId, next: Policy, h: ClaimReply,
                          run: seq<Action>, t: State, left: seq<seq<Action>>, r: ClaimReply)
  {
    && t == Run(s, run) && r == Heard(s, run, p, h)
    && Driven(s, env, p, next) == run + Driven(t, left, p, next)
  }

  lemma StretchOne(s: State, acts: seq<Action>, left: seq<seq<Action>>, p: ProcId, id: ClaimId, io: ClaimIo, h: ClaimReply, t: State)
    requires Foreign(acts, p) && p in s.procs
    requires var a := NextStatement(p, id, io, s.procs[p]); t == Run(s, acts + [a])
    ensures var a := NextStatement(p, id, io, s.procs[p]);
      Stretch(s, [acts] + left, p, ClaimSteps(p, id, io), h, acts + [a], t, left, Hear(Run(s, acts), a, h))
  {
    hide Run, Hear, Heard, Driven;
    var a, next := NextStatement(p, id, io, s.procs[p]), ClaimSteps(p, id, io);
    PolicyIs(p, id, io, Run(s, acts), s.procs[p]);
    DrivenStep(s, [acts] + left, p, next, acts + [a], t);
    assert ([acts] + left)[1..] == left;
    HeardStep(s, acts, a, p, h);
  }

  lemma StretchTwo(s: State, env: seq<seq<Action>>, p: ProcId, next: Policy, h: ClaimReply, r1: seq<Action>, t: State,
                   left: seq<seq<Action>>, h1: ClaimReply, r2: seq<Action>, u: State, left': seq<seq<Action>>, r: ClaimReply)
    requires Stretch(s, env, p, next, h, r1, t, left, h1) && Stretch(t, left, p, next, h1, r2, u, left', r)
    ensures Stretch(s, env, p, next, h, r1 + r2, u, left', r)
  {
    hide Run, Heard, Driven;
    RunAppend(s, r1, r2);
    HeardAppend(s, r1, r2, p, h);
  }

  /** One AttemptDecrement with its answer: go on to the INSERT, to the Postgres count, or give up. */
  method TryDecrement(w: Platform, p: ProcId, c: CustomerId, e: EventId, retry: bool, acts: seq<Action>, d: Delivery)
    returns (attempt: Attempt, ghost run: seq<Action>)
    requires p in w.procs && w.procs[p] == Decrementing(c, e, retry) && Foreign(acts, p)
    modifies w
    ensures run == acts + [Decrement(p, d)] && w.View() == Run(old(w.View()), run)
    ensures attempt == AttemptAt(Run(old(w.View()), acts), e, d)
    ensures attempt.Taken? || (attempt.CacheMiss? && retry) ==> p in w.procs && w.procs[p] == Inserting(c, e)
    ensures attempt.CacheMiss? && !retry ==> p in w.procs && w.procs[p] == Counting(c, e)
    ensures attempt.NoneLeft? || attempt.Unavailable? ==> p !in w.procs
    ensures acts == [] ==>
      var s := old(w.View());
      && w.View() == s.(counters := w.counters, procs := if p in w.procs then s.procs[p := w.procs[p]] else s.procs - {p})
      && w.counters == (if d.Unsent? then s.counters else DecrementScript(s.counters, e).0)
      && attempt == AttemptAt(s, e, d)
  {
    hide Run, Apply, Effects, Continue;
    ghost var start := w.View();
    w.Interfere(acts, p);
    ghost var a := Decrement(p, d);
    Proceed(start, acts, w.View(), a);
    OnClaimPath(w.View(), a, w.procs[p]);
    run := acts + [a];
    attempt := w.AttemptDecrement(e, d);
    match attempt {
      case Taken(_) => w.procs := w.procs[p := Inserting(c, e)];
      case CacheMiss => w.procs := w.procs[p := if retry then Inserting(c, e) else Counting(c, e)];
      case _ => w.procs := w.procs - {p};
    }
  }

  /** A statement that ends the attempt because of an error that is not the stores' answer. */
  method GiveUpClaim(w: Platform, p: ProcId, acts: seq<Action>) returns (ghost run: seq<Action>)
    requires p in w.procs && Foreign(acts, p)
    modifies w
    ensures run == acts + [Stop(p)] && w.View() == Run(old(w.View()), run) && p !in w.procs
    ensures acts == [] ==> w.View() == old(w.View()).(procs := old(w.procs) - {p})
  {
    hide Run, Apply, Effects, Continue;
    ghost var start := w.View();
    w.Interfere(acts, p);
    Proceed(start, acts, w.View(), Stop(p));
    OnClaimPath(w.View(), Stop(p), w.procs[p]);
    run := acts + [Stop(p)];
    w.procs := w.procs - {p};
  }

  lemma HearsStop(s: State, p: ProcId)
    requires p in s.procs
    ensures Hear(s, Stop(p), Refused) == if s.procs[p].Decrementing? then AlreadyClaimed else Refused
  {
  }

  lemma HearsDecrement(s: State, p: ProcId, d: Delivery, h: ClaimReply)
    requires p in s.procs && s.procs[p].Decrementing?
    ensures Hear(s, Decrement(p, d), h) == HearDecrement(s, s.procs[p].event, d, s.procs[p].retry, h)
  {
  }

  /** decrementInventory: lock, decrement, and on a cache miss count, warm and decrement again. */
  method DecrementInventory(w: Platform, p: ProcId, c: CustomerId, e: EventId, env: seq<seq<Action>>, ghost id: ClaimId, io: ClaimIo)
    returns (r: ClaimReply, left: seq<seq<Action>>, ghost run: seq<Action>)
    requires p in w.procs && w.procs[p] == Decrementing(c, e, false)
    requires Schedule(env, 4, p)
    modifies w
    ensures Stretch(old(w.View()), env, p, ClaimSteps(p, id, io), Refused, run, w.View(), left, r)
    ensures Schedule(left, |env| - 4, p) && (Undisturbed(env) ==> Undisturbed(left))
    ensures r.Won? ==> r.id == 0 && p in w.procs && w.procs[p] == Inserting(c, e)
    ensures !r.Won? ==> p !in w.procs
    ensures Undisturbed(env) && Healthy(io) && e in old(w.events) ==>
      var s := old(w.View()); var n := Stock(s, e);
      if n <= 0 then r == NoTickets && w.View() == s.(procs := s.procs - {p})
      else r == Won(0, n - 1) && w.View() == s.(counters := s.counters[e := n - 1], procs := s.procs[p := Inserting(c, e)])
    ensures Undisturbed(env) && e in old(w.counters) && io.first.Answered? ==>
      w.counters == if r.Won? then old(w.counters)[e := old(w.counters)[e] - 1] else old(w.counters)
  {
    hide Run, Hear, Stretch, CountActive;
    ghost var start := w.View();
    ForeignRun(start, env[0], p);
    Split(env);
    left := env[1..];
    if io.lock.HeldElsewhere? {
      run := GiveUpClaim(w, p, env[0]);
      HearsStop(Run(start, env[0]), p);
      StretchOne(start, env[0], left, p, id, io, Refused, w.View());
      return AlreadyClaimed, left, run;
    }
    var attempt;
    attempt, run := TryDecrement(w, p, c, e, false, env[0], io.first);
    HearsDecrement(Run(start, env[0]), p, io.first, Refused);
    StretchOne(start, env[0], left, p, id, io, Refused, w.View());
    match attempt {
      case Taken(count) =>
        r := Won(0, count);
      case NoneLeft =>
        r := NoTickets;
      case Unavailable =>
        r := Refused;
      case CacheMiss =>
        ghost var mid := w.View();
        ghost var rest;
        r, left, rest := RefillAndDecrement(w, p, c, e, env[1..], id, io);
        StretchTwo(start, env, p, ClaimSteps(p, id, io), Refused, run, mid, env[1..], Refused, rest, w.View(), left, r);
        run := run + rest;
    }
  }

  /** The cache-miss path: a Postgres count that is not positive means sold out, otherwise it
      overwrites the counter and the decrement is tried once more. */
  method RefillAndDecrement(w: Platform, p: ProcId, c: CustomerId, e: EventId, env: seq<seq<Action>>, ghost id: ClaimId, io: ClaimIo)
    returns (r: ClaimReply, left: seq<seq<Action>>, ghost run: seq<Action>)
    requires p in w.procs && w.procs[p] == Counting(c, e)
    requires Schedule(env, 3, p)
    modifies w
    ensures Stretch(old(w.View()), env, p, ClaimSteps(p, id, io), Refused, run, w.View(), left, r)
    ensures Schedule(left, |env| - 3, p) && (Undisturbed(env) ==> Undisturbed(left))
    ensures r.Won? ==> r.id == 0 && p in w.procs && w.procs[p] == Inserting(c, e)
    ensures !r.Won? ==> p !in w.procs
    ensures Undisturbed(env) && Healthy(io) && e in old(w.events) ==>
      var s := old(w.View()); var n := s.events[e].total - CountActive(s.claims, e);
      if n <= 0 then r == NoTickets && w.View() == s.(procs := s.procs - {p})
      else r == Won(0, n - 1) && w.View() == s.(counters := s.counters[e := n - 1], procs := s.procs[p := Inserting(c, e)])
  {
    hide Run, Hear, Stretch, CountActive;
    ghost var start := w.View();
    ForeignRun(start, env[0], p);
    Split(env);
    left := env[1..];
    if !io.countOk {
      run := GiveUpClaim(w, p, env[0]);
      HearsStop(Run(start, env[0]), p);
      StretchOne(start, env[0], left, p, id, io, Refused, w.View());
      return Refused, left, run;
    }
    var count: int;
    r, count, run := CountTickets(w, p, c, e, env[0]);
    StretchOne(start, env[0], left, p, id, io, Refused, w.View());
    if p in w.procs {
      ghost var mid := w.View();
      ghost var rest;
      r, left, rest := WarmAndDecrement(w, p, c, e, count, env[1..], id, io);
      StretchTwo(start, env, p, ClaimSteps(p, id, io), Refused, run, mid, env[1..], Refused, rest, w.View(), left, r);
      run := run + rest;
    }
  }

  /** countFromPostgres and the check of its result. */
  method CountTickets(w: Platform, p: ProcId, c: CustomerId, e: EventId, acts: seq<Action>)
    returns (r: ClaimReply, count: int, ghost run: seq<Action>)
    requires p in w.procs && w.procs[p] == Counting(c, e) && Foreign(acts, p)
    modifies w
    ensures run == acts + [CountFromPostgres(p)] && w.View() == Run(old(w.View()), run)
    ensures r == Hear(Run(old(w.View()), acts), CountFromPostgres(p), Refused) && !r.Won?
    ensures p in w.procs ==> r == Refused && count > 0 && w.procs[p] == Warming(c, e, count)
    ensures acts == [] && e in old(w.events) ==>
      var s := old(w.View()); var n := s.events[e].total - CountActive(s.claims, e);
      if n <= 0 then r == NoTickets && w.View() == s.(procs := s.procs - {p})
      else count == n && w.View() == s.(procs := s.procs[p := Warming(c, e, n)])
  {
    hide Run, Apply, Effects, Continue, CountActive;
    ghost var start := w.View();
    w.Interfere(acts, p);
    ghost var a := CountFromPostgres(p);
    Proceed(start, acts, w.View(), a);
    OnClaimPath(w.View(), a, w.procs[p]);
    run := acts + [a];
    r, count := Refused, 0;
    if e !in w.events {
      w.procs := w.procs - {p};
      return;
    }
    count := w.events[e].total - CountActive(w.claims, e);
    if count <= 0 {
      r := NoTickets;
      w.procs := w.procs - {p};
    } else {
      w.procs := w.procs[p := Warming(c, e, count)];
    }
  }

  /** ForceSync, whose error is only logged. */
  method Warm(w: Platform, p: ProcId, c: CustomerId, e: EventId, count: int, acts: seq<Action>, d: Delivery)
    returns (ghost run: seq<Action>)
    requires p in w.procs && w.procs[p] == Warming(c, e, count) && Foreign(acts, p)
    modifies w
    ensures run == acts + [WarmCache(p, d)] && w.View() == Run(old(w.View()), run)
    ensures p in w.procs && w.procs[p] == Decrementing(c, e, true)
    ensures acts == [] ==>
      var s := old(w.View());
      w.View() == s.(counters := if d.Unsent? then s.counters else s.counters[e := count], procs := s.procs[p := Decrementing(c, e, true)])
  {
    hide Run, Apply, Effects, Continue;
    ghost var start := w.View();
    w.Interfere(acts, p);
    ghost var a := WarmCache(p, d);
    Proceed(start, acts, w.View(), a);
    OnClaimPath(w.View(), a, w.procs[p]);
    run := acts + [a];
    var failed := w.ForceSet(e, count, d);
    w.procs := w.procs[p := Decrementing(c, e, true)];
  }

  lemma HearsNothing(s: State, a: Action, h: ClaimReply)
    requires a.WarmCache? || a.GiveBack?
    ensures Hear(s, a, h) == h
  {
  }

  /** Warm the cache, then decrement again, whether or not the warm-up arrived. */
  method WarmAndDecrement(w: Platform, p: ProcId, c: CustomerId, e: EventId, count: int, env: seq<seq<Action>>, ghost id: ClaimId, io: ClaimIo)
    returns (r: ClaimReply, left: seq<seq<Action>>, ghost run: seq<Action>)
    requires p in w.procs && w.procs[p] == Warming(c, e, count)
    requires Schedule(env, 2, p)
    modifies w
    ensures Stretch(old(w.View()), env, p, ClaimSteps(p, id, io), Refused, run, w.View(), left, r)
    ensures run == env[0] + [WarmCache(p, io.warm)] + env[1] + [Decrement(p, io.second)]
    ensures Schedule(left, |env| - 2, p) && (Undisturbed(env) ==> Undisturbed(left))
    ensures r.Won? ==> r.id == 0 && p in w.procs && w.procs[p] == Inserting(c, e)
    ensures !r.Won? ==> p !in w.procs
    ensures Undisturbed(env) && !io.warm.Unsent? && io.second.Answered? && count > 0 ==>
      var s := old(w.View());
      r == Won(0, count - 1) && w.View() == s.(counters := s.counters[e := count - 1], procs := s.procs[p := Inserting(c, e)])
    ensures Undisturbed(env) && io.warm.Unsent? && io.second.Answered? && e !in old(w.counters) ==>
      r == Won(0, 0) && w.View() == old(w.View()).(procs := old(w.procs)[p := Inserting(c, e)])
  {
    hide Run, Hear, Stretch;
    ghost var start := w.View();
    ForeignRun(start, env[0], p);
    Split(env);
    Split(env[1..]);
    run := Warm(w, p, c, e, count, env[0], io.warm);
    HearsNothing(Run(start, env[0]), WarmCache(p, io.warm), Refused);
    StretchOne(start, env[0], env[1..], p, id, io, Refused, w.View());
    ghost var mid := w.View();
    ghost var rest;
    r, rest := DecrementAgain(w, p, c, e, env[1], env[2..], id, io);
    left := env[2..];
    StretchTwo(start, env, p, ClaimSteps(p, id, io), Refused, run, mid, env[1..], Refused, rest, w.View(), left, r);
    run := run + rest;
  }

  /** The second decrement, whose cache miss passes for a decrement to zero. */
  method DecrementAgain(w: Platform, p: ProcId, c: CustomerId, e: EventId, acts: seq<Action>, ghost left: seq<seq<Action>>,
                        ghost id: ClaimId, io: ClaimIo)
    returns (r: ClaimReply, ghost run: seq<Action>)
    requires p in w.procs && w.procs[p] == Decrementing(c, e, true) && Foreign(acts, p)
    modifies w
    ensures Stretch(old(w.View()), [acts] + left, p, ClaimSteps(p, id, io), Refused, run, w.View(), left, r)
    ensures run == acts + [Decrement(p, io.second)]
    ensures r.Won? ==> r.id == 0 && p in w.procs && w.procs[p] == Inserting(c, e)
    ensures !r.Won? ==> p !in w.procs
    ensures acts == [] && io.second.Answered? && e in old(w.counters) && old(w.counters)[e] > 0 ==>
      var s := old(w.View()); var n := s.counters[e];
      r == Won(0, n - 1) && w.View() == s.(counters := s.counters[e := n - 1], procs := s.procs[p := Inserting(c, e)])
    ensures acts == [] && io.second.Answered? && e !in old(w.counters) ==>
      r == Won(0, 0) && w.View() == old(w.View()).(procs := old(w.procs)[p := Inserting(c, e)])
    ensures acts == [] && io.second.Answered? && e in old(w.counters) && old(w.counters)[e] <= 0 ==>
      r == NoTickets && w.View() == old(w.View()).(procs := old(w.procs) - {p})
  {
    hide Run, Hear, Stretch;
    ghost var start := w.View();
    ForeignRun(start, acts, p);
    var attempt;
    attempt, run := TryDecrement(w, p, c, e, true, acts, io.second);
    HearsDecrement(Run(start, acts), p, io.second, Refused);
    StretchOne(start, acts, left, p, id, io, Refused, w.View());
    match attempt {
      case Taken(n) => r := Won(0, n);
      case CacheMiss => r := Won(0, 0);
      case NoneLeft => r := NoTickets;
      case Unavailable => r := Refused;
    }
  }

  lemma HearsInsert(s: State, p: ProcId, id: ClaimId, ok: bool, n: int)
    requires p in s.procs && s.procs[p].Inserting?
    ensures var q := s.procs[p]; var h := Hear(s, InsertClaim(p, id, ok), Won(0, n));
      && (h.Won? <==> ok && id !in s.claims && !HasActiveClaim(s.claims, q.customer, q.event) && q.event in s.events)
      && (h.Won? ==> h == Won(id, n))
      && (!h.Won? ==> h == if ok && (id in s.claims || HasActiveClaim(s.claims, q.customer, q.event)) then AlreadyClaimed else Refused)
  {
  }

  /** createClaim: insert the row, or give the decrement back.  A refusal by a unique index is told
      apart from other errors. */
  method CreateClaim(w: Platform, p: ProcId, c: CustomerId, e: EventId, id: ClaimId, taken: int, env: seq<seq<Action>>, io: ClaimIo)
    returns (r: ClaimReply, ghost run: seq<Action>)
    requires p in w.procs && w.procs[p] == Inserting(c, e)
    requires Schedule(env, 2, p)
    modifies w
    ensures w.View() == Run(old(w.View()), run) && p !in w.procs
    ensures run == Driven(old(w.View()), env, p, ClaimSteps(p, id, io))
    ensures r == Heard(old(w.View()), run, p, Won(0, taken))
    ensures r.Won? ==> r == Won(id, taken) && id in w.claims && w.claims[id] == ClaimRow(e, c, Claimed)
    ensures run == env[0] + [InsertClaim(p, id, io.insertOk)] + if r.Won? then [] else env[1] + [GiveBack(p, io.rollback)]
    ensures Undisturbed(env) && io.insertOk && e in old(w.events) && id !in old(w.claims)
            && !HasActiveClaim(old(w.claims), c, e) ==>
      var s := old(w.View());
      r.Won? && w.View() == s.(claims := s.claims[id := ClaimRow(e, c, Claimed)], procs := s.procs - {p})
    ensures Undisturbed(env) && io.rollback.Answered? ==>
      w.counters == if r.Won? then old(w.counters) else IncrementBy1(old(w.counters), e)
  {
    hide Run, Hear, Stretch, HasActiveClaim;
    ghost var start := w.View();
    ghost var next := ClaimSteps(p, id, io);
    ForeignRun(start, env[0], p);
    Split(env);
    Split(env[1..]);
    r, run := InsertRow(w, p, c, e, id, taken, env[0], io);
    StretchOne(start, env[0], env[1..], p, id, io, Won(0, taken), w.View());
    if !r.Won? {
      ghost var mid := w.View();
      ForeignRun(mid, env[1], p);
      HearsNothing(Run(mid, env[1]), GiveBack(p, io.rollback), r);
      ghost var rest := GiveTicketBack(w, p, e, env[1], io.rollback);
      StretchOne(mid, env[1], env[2..], p, id, io, r, w.View());
      StretchTwo(start, env, p, next, Won(0, taken), run, mid, env[1..], r, rest, w.View(), env[2..], r);
      run := run + rest;
    }
    StretchEnds(start, env, p, next, Won(0, taken), run, w.View(), if r.Won? then env[1..] else env[2..], r);
  }

  lemma StretchEnds(s: State, env: seq<seq<Action>>, p: ProcId, next: Policy, h: ClaimReply,
                    run: seq<Action>, t: State, left: seq<seq<Action>>, r: ClaimReply)
    requires Stretch(s, env, p, next, h, run, t, left, r) && p !in t.procs
    ensures t == Run(s, run) && run == Driven(s, env, p, next) && r == Heard(s, run, p, h)
  {
  }

  method InsertRow(w: Platform, p: ProcId, c: CustomerId, e: EventId, id: ClaimId, taken: int, acts: seq<Action>, io: ClaimIo)
    returns (r: ClaimReply, ghost run: seq<Action>)
    requires p in w.procs && w.procs[p] == Inserting(c, e) && Foreign(acts, p)
    modifies w
    ensures run == acts + [InsertClaim(p, id, io.insertOk)] && w.View() == Run(old(w.View()), run)
    ensures r == Hear(Run(old(w.View()), acts), InsertClaim(p, id, io.insertOk), Won(0, taken))
    ensures r.Won? ==> r == Won(id, taken) && p !in w.procs && id in w.claims && w.claims[id] == ClaimRow(e, c, Claimed)
    ensures !r.Won? ==> p in w.procs && w.procs[p] == RollingBack(e)
    ensures acts == [] ==>
      var s := old(w.View());
      && w.counters == s.counters
      && (io.insertOk && e in s.events && id !in s.claims && !HasActiveClaim(s.claims, c, e) ==>
            r.Won? && w.View() == s.(claims := s.claims[id := ClaimRow(e, c, Claimed)], procs := s.procs - {p}))
  {
    hide Run, Apply, Effects, Continue, Hear, HasActiveClaim, CountActive;
    ghost var start := w.View();
    w.Interfere(acts, p);
    ghost var a := InsertClaim(p, id, io.insertOk);
    Proceed(start, acts, w.View(), a);
    OnClaimPath(w.View(), a, w.procs[p]);
    HearsInsert(w.View(), p, id, io.insertOk, taken);
    run := acts + [a];
    var failed, duplicate := w.CreateClaim(id, ClaimRow(e, c, Claimed), io.insertOk);
    w.procs := if failed then w.procs[p := RollingBack(e)] else w.procs - {p};
    r := if !failed then Won(id, taken) else if duplicate then AlreadyClaimed else Refused;
  }

  method DecrementAndCreate(w: Platform, p: ProcId, c: CustomerId, e: EventId, id: ClaimId, env: seq<seq<Action>>, io: ClaimIo)
    returns (r: ClaimReply, ghost run: seq<Action>)
    requires p in w.procs && w.procs[p] == Decrementing(c, e, false) && Schedule(env, 6, p)
    modifies w
    ensures w.View() == Run(old(w.View()), run) && p !in w.procs
    ensures run == Driven(old(w.View()), env, p, ClaimSteps(p, id, io))
    ensures r == Heard(old(w.View()), run, p, Refused)
    ensures r.Won? ==> r.id == id && id in w.claims && w.claims[id] == ClaimRow(e, c, Claimed)
    ensures Undisturbed(env) && Healthy(io) && e in old(w.events) && id !in old(w.claims)
            && !HasActiveClaim(old(w.claims), c, e) ==>
      var s := old(w.View()); var n := Stock(s, e);
      if n <= 0 then r == NoTickets && w.View() == s.(procs := s.procs - {p})
      else r == Won(id, n - 1) && w.View() == s.(counters := s.counters[e := n - 1], procs := s.procs - {p},
                                                 claims := s.claims[id := ClaimRow(e, c, Claimed)])
    ensures !r.Won? && Undisturbed(env) && e in old(w.counters) && io.first.Answered? && io.rollback.Answered? ==>
      w.counters == old(w.counters)
  {
    hide Run, Stretch, Heard, Driven, HasActiveClaim, CountActive;
    ghost var start := w.View();
    ghost var next := ClaimSteps(p, id, io);
    var left;
    r, left, run := DecrementInventory(w, p, c, e, env, id, io);
    if r.Won? {
      ghost var mid, taken, won := w.View(), w.counters, r;
      ghost var rest;
      r, rest := CreateClaim(w, p, c, e, id, r.count, left, io);
      StretchWhole(mid, left, p, next, won, rest, w.View(), r);
      StretchTwo(start, env, p, next, Refused, run, mid, left, won, rest, w.View(), [], r);
      run := run + rest;
      ghost var k := start.counters;
      if !r.Won? && Undisturbed(env) && e in k && io.first.Answered? && io.rollback.Answered? {
        assert taken == k[e := k[e] - 1];
        assert w.counters == taken[e := k[e]];
        assert taken[e := k[e]] == k;
      }
      StretchEnds(start, env, p, next, Refused, run, w.View(), [], r);
    } else {
      StretchEnds(start, env, p, next, Refused, run, w.View(), left, r);
    }
  }

  lemma StretchWhole(s: State, env: seq<seq<Action>>, p: ProcId, next: Policy, h: ClaimReply, run: seq<Action>, t: State, r: ClaimReply)
    requires t == Run(s, run) && run == Driven(s, env, p, next) && r == Heard(s, run, p, h) && p !in t.procs
    ensures Stretch(s, env, p, next, h, run, t, [], r)
  {
  }

  /** Claim, whatever runs in between and whatever gets lost: what happens is exactly the run of the
      policy in the given schedule, the reply is what its statements heard, the caller leaves nothing
      behind, and wins only with a CLAIMED row of its own.  In every interleaving that loses none of its
      answers, a win takes one ticket from the counter and a loss takes none, apart from its own
      overwrite and one ticket too many for an ignored second miss. */
  method Claim(w: Platform, p: ProcId, c: CustomerId, e: EventId, id: ClaimId, env: seq<seq<Action>>, io: ClaimIo)
    returns (r: ClaimReply, ghost run: seq<Action>)
    requires p !in w.procs
    requires Schedule(env, 7, p)
    modifies w
    ensures w.View() == Run(old(w.View()), run) && p !in w.procs
    ensures run == ClaimRun(old(w.View()), env, p, c, e, id, io)
    ensures r == Heard(old(w.View()), run, p, Refused)
    ensures r.Won? ==> r.id == id && id in w.claims && w.claims[id] == ClaimRow(e, c, Claimed)
    ensures io.countOk && !io.lock.HeldElsewhere? ==> Stop(p) !in run
    ensures Sound(old(w.View())) && NothingLost(io) ==>
      var b := OwnBook(old(w.View()), run, p, e);
      && b.counter == b.raised + b.written - One(r.Won?) && 0 <= b.raised <= 1
      && (WarmCache(p, io.warm) !in run ==> b.raised == 0)
      && (WarmCache(p, io.warm) !in run || io.warm.Unsent? ==> b.written == 0)
    ensures Undisturbed(env) && Healthy(io) && e in old(w.events) && id !in old(w.claims) ==>
      var s := old(w.View()); var n := Stock(s, e);
      if HasActiveClaim(s.claims, c, e) then r == AlreadyClaimed && w.View() == s
      else if n <= 0 then r == NoTickets && w.View() == s
      else r == Won(id, n - 1)
           && w.View() == s.(counters := s.counters[e := n - 1], claims := s.claims[id := ClaimRow(e, c, Claimed)])
    ensures !r.Won? && Undisturbed(env) && e in old(w.counters) && io.first.Answered? && io.rollback.Answered? ==>
      w.counters == old(w.counters)
  {
    hide Run, Continue, Heard, Driven, OwnBook, Sound, CountActive;
    ghost var start := w.View();
    Split(env);
    ForeignRun(start, env[0], p);
    w.Interfere(env[0], p);
    run := env[0];
    if io.lookupOk {
      ghost var a := BeginClaim(p, c, e);
      Extend(start, env[0], w.View(), a);
      HeardStep(start, env[0], a, p, Refused);
      run := env[0] + [a];
      if HasActiveClaim(w.claims, c, e) {
        r := AlreadyClaimed;
        BeginRefused(w.View(), p, c, e);
        NotDriven(w.View(), env[1..], p, ClaimSteps(p, id, io));
      } else {
        w.procs := w.procs[p := Decrementing(c, e, false)];
        ghost var rest;
        r, rest := DecrementAndCreate(w, p, c, e, id, env[1..], io);
        RunAppend(start, run, rest);
        HeardAppend(start, run, rest, p, Refused);
        run := run + rest;
      }
    } else {
      r := Refused;
      HeardForeign(start, env[0], p, Refused);
    }
    assert run == ClaimRun(start, env, p, c, e, id, io);
    StopsOnlyWhen(start, env, p, c, e, id, io);
    if Sound(start) && NothingLost(io) { AttemptCost(start, env, p, c, e, id, io); }
  }

  lemma BeginRefused(s: State, p: ProcId, c: CustomerId, e: EventId)
    requires p !in s.procs && HasActiveClaim(s.claims, c, e)
    ensures Apply(s, BeginClaim(p, c, e)) == s
  {
    assert s.procs - {p} == s.procs;
  }

  lemma NotDriven(s: State, env: seq<seq<Action>>, p: ProcId, next: Policy)
    requires p !in s.procs
    ensures Driven(s, env, p, next) == []
  {
  }

  /** Release: read, check, conditional UPDATE, then the increment. */
  method Release(w: Platform, p: ProcId, id: ClaimId, env: seq<seq<Action>>, d: Delivery)
    returns (released: bool, ghost run: seq<Action>)
    requires Sound(w.View()) && p !in w.procs
    requires Schedule(env, 2, p)
    modifies w
    ensures w.View() == Run(old(w.View()), run) && Sound(w.View()) && p !in w.procs
    ensures released <==> Releasable(old(w.claims), id) && Frees(Run(old(w.View()), env[0]), id)
    ensures run == if released then env[0] + [ReleaseRow(p, id)] + env[1] + [GiveBack(p, d)]
                   else if Releasable(old(w.claims), id) then env[0] else []
    ensures released ==> id in w.claims && w.claims[id].status == Released
    ensures Stop(p) !in run && (released <==> ReleaseRow(p, id) in run && GiveBack(p, d) in run)
    ensures Undisturbed(env) ==>
      var s := old(w.View());
      if Frees(s, id) then
        released && w.View() == s.(claims := SetClaim(s.claims, id, Released),
                                   counters := if d.Unsent? then s.counters else IncrementBy1(s.counters, s.claims[id].event))
      else !released && w.View() == s
  {
    hide Run, Apply, Sound, Evolves, ClaimLocked;
    ghost var start := w.View();
    run, released := [], false;
    Nothing(start);
    Split(env);
    Split(env[1..]);
    if !Releasable(w.claims, id) { return; }
    EvolvesRun(start, env[0]);
    w.Interfere(env[0], p);
    run := env[0];
    ghost var before := w.View();
    var u := w.UpdateClaimStatus(id, ClaimStatus.Released, Claimed);
    released := u.Matched?;
    if released {
      ReleaseStep(before, p, id);
      RunSnoc(start, run, ReleaseRow(p, id));
      run := run + [ReleaseRow(p, id)];
      var e := w.claims[id].event;
      w.procs := w.procs[p := Owing(e)];
      ghost var owing := w.View();
      SoundStep(before, ReleaseRow(p, id));
      ghost var rest := GiveTicketBack(w, p, e, env[1], d);
      StaysReleased(owing, rest, id);
      RunAppend(start, run, rest);
      run := run + rest;
    }
  }
}
