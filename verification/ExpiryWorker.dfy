/** expiry.go: one pass over a snapshot of expired claims, while any number of other processes run
    between its statements. */
module ExpiryWorker {
  import opened Domain
  import opened Protocol
  import opened Integrity
  import opened Stores

  datatype ExpiryIo = ExpiryIo(updateOk: bool, increment: Delivery)

  /** Something a process did to the stores: it moved a row to RELEASED, or gave a ticket back. */
  datatype Deed = Freed(id: ClaimId, event: EventId) | Returned(event: EventId)

  /** The deeds of process p among the statements of a run, whoever else takes part in it. */
  ghost function Deeds(s: State, run: seq<Action>, p: ProcId): seq<Deed>
    decreases run
  {
    if run == [] then [] else DeedOf(s, run[0], p) + Deeds(Apply(s, run[0]), run[1..], p)
  }

  ghost function DeedOf(s: State, a: Action, p: ProcId): seq<Deed> {
    if a.Wipe? || a.p != p then []
    else if a.ReleaseRow? && p !in s.procs && a.id in s.claims && s.claims[a.id].status == Claimed
            && !ClaimLocked(s.procs, a.id) then [Freed(a.id, s.claims[a.id].event)]
    else if a.GiveBack? && p in s.procs && s.procs[p].Owing? && !a.delivery.Unsent? then [Returned(s.procs[p].event)]
    else []
  }

  lemma {:induction false} DeedsAppend(s: State, r1: seq<Action>, r2: seq<Action>, p: ProcId)
    ensures Deeds(s, r1 + r2, p) == Deeds(s, r1, p) + Deeds(Run(s, r1), r2, p)
    decreases r1
  {
    if r1 == [] {
      assert r1 + r2 == r2;
    } else {
      assert (r1 + r2)[1..] == r1[1..] + r2;
      DeedsAppend(Apply(s, r1[0]), r1[1..], r2, p);
    }
  }

  lemma {:induction false} ForeignDeeds(s: State, acts: seq<Action>, p: ProcId)
    requires Foreign(acts, p)
    ensures Deeds(s, acts, p) == []
    decreases acts
  {
    if acts != [] { ForeignDeeds(Apply(s, acts[0]), acts[1..], p); }
  }

  /** The run grows by what others did, and then by one statement of p. */
  lemma Grow(start: State, run: seq<Action>, acts: seq<Action>, a: Action, p: ProcId)
    requires Foreign(acts, p) && !a.Wipe? && a.p == p
    ensures Run(start, run + acts) == Run(Run(start, run), acts)
    ensures Run(start, run + acts + [a]) == Apply(Run(start, run + acts), a)
    ensures Deeds(start, run + acts + [a], p) == Deeds(start, run, p) + DeedOf(Run(start, run + acts), a, p)
  {
    RunAppend(start, run, acts);
    RunSnoc(start, run + acts, a);
    DeedsAppend(start, run, acts, p);
    DeedsAppend(start, run + acts, [a], p);
    ForeignDeeds(Run(start, run), acts, p);
    assert Deeds(Run(start, run + acts), [a], p) == DeedOf(Run(start, run + acts), a, p);
  }

  /** One claim the pass released, and whether its increment reached Redis. */
  datatype Move = Move(id: ClaimId, event: EventId, returned: bool)

  function DeedsOf(moves: seq<Move>): seq<Deed> {
    if moves == [] then []
    else
      var m := moves[|moves| - 1];
      DeedsOf(moves[..|moves| - 1]) + [Freed(m.id, m.event)] + (if m.returned then [Returned(m.event)] else [])
  }

  function Returns(deeds: seq<Deed>, e: EventId): nat {
    if deeds == [] then 0 else (if deeds[0] == Returned(e) then 1 else 0) + Returns(deeds[1..], e)
  }

  function MovesOf(moves: seq<Move>, e: EventId): nat {
    if moves == [] then 0
    else MovesOf(moves[..|moves| - 1], e) + (if moves[|moves| - 1].event == e then 1 else 0)
  }

  lemma {:induction false} ReturnsAppend(x: seq<Deed>, y: seq<Deed>, e: EventId)
    ensures Returns(x + y, e) == Returns(x, e) + Returns(y, e)
  {
    if x == [] {
      assert x + y == y;
    } else {
      assert (x + y)[1..] == x[1..] + y;
      ReturnsAppend(x[1..], y, e);
    }
  }

  lemma ReturnsOne(d: Deed, e: EventId)
    ensures Returns([d], e) == if d == Returned(e) then 1 else 0
  {
    assert [d][1..] == [];
  }

  /** Per event, the pass gives back exactly as many tickets as the claims it moved itself, provided
      its increments reach Redis. */
  lemma {:induction false} ReturnsMatchMoves(moves: seq<Move>, e: EventId)
    requires forall m | m in moves :: m.returned
    ensures Returns(DeedsOf(moves), e) == MovesOf(moves, e)
  {
    if moves != [] {
      var n := |moves| - 1;
      var m := moves[n];
      ReturnsMatchMoves(moves[..n], e);
      ReturnsAppend(DeedsOf(moves[..n]) + [Freed(m.id, m.event)], [Returned(m.event)], e);
      ReturnsAppend(DeedsOf(moves[..n]), [Freed(m.id, m.event)], e);
      ReturnsOne(Freed(m.id, m.event), e);
      ReturnsOne(Returned(m.event), e);
    }
  }

  lemma StaysClaim(s: State, run: seq<Action>, id: ClaimId)
    requires Sound(s) && id in s.claims
    ensures Sound(Run(s, run)) && id in Run(s, run).claims
    ensures Run(s, run).claims[id].status == Claimed ==> s.claims[id].status == Claimed
  {
    EvolvesRun(s, run);
  }

  lemma ClaimsStay(s: State, run: seq<Action>)
    requires Sound(s)
    ensures var t := Run(s, run);
      forall id | id in s.claims :: id in t.claims && t.claims[id].event == s.claims[id].event
                                    && (s.claims[id].status != Claimed ==> t.claims[id] == s.claims[id])
  {
    EvolvesRun(s, run);
  }

  /** The statements around one claim of the snapshot, with those of the others. */
  ghost function ReleasePart(s: State, p: ProcId, id: ClaimId, env: (seq<Action>, seq<Action>), io: ExpiryIo): seq<Action> {
    if io.updateOk && Frees(Run(s, env.0), id)
    then env.0 + [ReleaseRow(p, id)] + (env.1 + [GiveBack(p, io.increment)]) else env.0
  }

  /** The run of a whole pass. */
  ghost function PassRun(s: State, p: ProcId, expired: seq<ClaimId>, env: seq<(seq<Action>, seq<Action>)>, io: seq<ExpiryIo>): seq<Action>
    requires |env| == |io| == |expired|
    decreases |expired|
  {
    if expired == [] then []
    else
      var part := ReleasePart(s, p, expired[0], env[0], io[0]);
      part + PassRun(Run(s, part), p, expired[1..], env[1..], io[1..])
  }

  /** releaseClaim: the conditional UPDATE, then, only if it matched, the increment. */
  method ReleaseClaim(w: Platform, p: ProcId, id: ClaimId, before: seq<Action>, between: seq<Action>, io: ExpiryIo)
    returns (failed: bool, moved: seq<Move>, ghost run: seq<Action>)
    requires Sound(w.View()) && p !in w.procs && id in w.claims && Foreign(before, p) && Foreign(between, p)
    modifies w
    ensures w.View() == Run(old(w.View()), run) && Sound(w.View()) && p !in w.procs
    ensures run == ReleasePart(old(w.View()), p, id, (before, between), io)
    ensures failed <==> !io.updateOk || ClaimLocked(Run(old(w.View()), before).procs, id)
    ensures moved != [] <==> io.updateOk && Frees(Run(old(w.View()), before), id)
    ensures id in w.claims && (!failed ==> w.claims[id].status != Claimed)
    ensures moved == [] || (moved == [Move(id, w.claims[id].event, !io.increment.Unsent?)] && w.claims[id].status == Released)
    ensures moved != [] ==> old(w.claims)[id].status == Claimed
    ensures Deeds(old(w.View()), run, p) == DeedsOf(moved)
    ensures before == [] && between == [] && io.updateOk && !ClaimLocked(old(w.procs), id) ==>
      !failed && w.procs == old(w.procs) && (moved != [] <==> old(w.claims)[id].status == Claimed)
  {
    hide Run, Apply, Continue, Open, Sound, Evolves, Deeds;
    ghost var start := w.View();
    StaysClaim(start, before, id);
    ForeignDeeds(start, before, p);
    NoDeeds(start, p);
    w.Interfere(before, p);
    failed, moved, run := true, [], before;
    if !io.updateOk { return; }
    ghost var s1 := w.View();
    var u := w.UpdateClaimStatus(id, Released, Claimed);
    failed := u.Blocked?;
    if !u.Matched? { return; }
    ReleaseStep(s1, p, id);
    SoundStep(s1, ReleaseRow(p, id));
    RunSnoc(start, before, ReleaseRow(p, id));
    var e := w.claims[id].event;
    w.procs := w.procs[p := Owing(e)];
    ghost var s2 := w.View();
    ghost var rest := GiveTicketBack(w, p, e, between, io.increment);
    StaysReleased(s2, rest, id);
    run := before + [ReleaseRow(p, id)] + rest;
    RunAppend(start, before + [ReleaseRow(p, id)], rest);
    ReleaseDeeds(start, before, between, p, id, io.increment);
    moved := [Move(id, e, !io.increment.Unsent?)];
  }

  /** The deeds of one release: the move, then the increment if it reaches Redis. */
  lemma ReleaseDeeds(start: State, before: seq<Action>, between: seq<Action>, p: ProcId, id: ClaimId, d: Delivery)
    requires Foreign(before, p) && Foreign(between, p)
    requires var s := Run(start, before);
      p !in s.procs && id in s.claims && s.claims[id].status == Claimed && !ClaimLocked(s.procs, id)
    ensures var e := Run(start, before).claims[id].event;
      Deeds(start, before + [ReleaseRow(p, id)] + (between + [GiveBack(p, d)]), p)
        == DeedsOf([Move(id, e, !d.Unsent?)])
  {
    hide Run, Apply, Deeds, ClaimLocked;
    var a, b := ReleaseRow(p, id), GiveBack(p, d);
    var s := Run(start, before);
    var e := s.claims[id].event;
    Nothing(start);
    NoDeeds(start, p);
    Grow(start, [], before, a, p);
    assert [] + before == before;
    Grow(start, before + [a], between, b, p);
    ReleaseStep(s, p, id);
    GiveBackDeed(Apply(s, a), between, p, e, d);
    RunAppend(start, before + [a], between);
    assert before + [a] + between + [b] == before + [a] + (between + [b]);
    assert [Move(id, e, !d.Unsent?)][..0] == [];
  }

  /** The owed increment is a deed if it reaches Redis. */
  lemma GiveBackDeed(s: State, between: seq<Action>, p: ProcId, e: EventId, d: Delivery)
    requires p in s.procs && s.procs[p] == Owing(e) && Foreign(between, p)
    ensures DeedOf(Run(s, between), GiveBack(p, d), p) == if d.Unsent? then [] else [Returned(e)]
  {
    ForeignRun(s, between, p);
  }

  lemma {:induction false} DeedsOfAppend(x: seq<Move>, y: seq<Move>)
    ensures DeedsOf(x + y) == DeedsOf(x) + DeedsOf(y)
  {
    if y == [] {
      assert x + y == x;
    } else {
      var n := |y| - 1;
      assert (x + y)[..|x + y| - 1] == x + y[..n];
      DeedsOfAppend(x, y[..n]);
    }
  }

  /** The pass's moves are releases of different claims of its snapshot. */
  ghost predicate MovesRight(moves: seq<Move>, claims: map<ClaimId, ClaimRow>, expired: seq<ClaimId>) {
    && (forall m | m in moves ::
          m.id in expired && m.id in claims && claims[m.id].status == Released && claims[m.id].event == m.event)
    && (forall k, j | 0 <= k < j < |moves| :: moves[k].id != moves[j].id)
  }

  lemma NoMoves(claims: map<ClaimId, ClaimRow>, expired: seq<ClaimId>)
    ensures MovesRight([], claims, expired)
  {
  }

  lemma MovesGrow(moves: seq<Move>, moved: seq<Move>, s: State, run: seq<Action>, expired: seq<ClaimId>, id: ClaimId)
    requires Sound(s) && MovesRight(moves, s.claims, expired) && id in expired && id in s.claims
    requires var t := Run(s, run);
      moved == [] || (|moved| == 1 && moved[0].id == id && s.claims[id].status == Claimed
                      && id in t.claims && t.claims[id].status == Released && t.claims[id].event == moved[0].event)
    ensures MovesRight(moves + moved, Run(s, run).claims, expired)
  {
    hide Run, Sound;
    ClaimsStay(s, run);
  }

  /** expireClaims over its snapshot.  Whatever runs in between, the pass moves every claim at most
      once, only from CLAIMED, and its deeds are exactly those moves, each followed by its increment;
      if no statement failed, no claim of the snapshot is CLAIMED any more. */
  method ExpireClaims(w: Platform, p: ProcId, expired: seq<ClaimId>, env: seq<(seq<Action>, seq<Action>)>, io: seq<ExpiryIo>)
    returns (failures: nat, moves: seq<Move>, ghost run: seq<Action>)
    requires Sound(w.View()) && p !in w.procs && |env| == |io| == |expired|
    requires forall id | id in expired :: id in w.claims
    requires forall i | 0 <= i < |env| :: Foreign(env[i].0, p) && Foreign(env[i].1, p)
    modifies w
    ensures w.View() == Run(old(w.View()), run) && Sound(w.View()) && p !in w.procs
    ensures run == PassRun(old(w.View()), p, expired, env, io)
    ensures Deeds(old(w.View()), run, p) == DeedsOf(moves)
    ensures MovesRight(moves, w.claims, expired)
    ensures failures == 0 ==> forall id | id in expired :: id in w.claims && w.claims[id].status != Claimed
    ensures (forall x | x in io :: !x.increment.Unsent?) ==> forall m | m in moves :: m.returned
    ensures (forall i | 0 <= i < |env| :: env[i] == ([], []) && io[i].updateOk) && (forall id :: !ClaimLocked(old(w.procs), id)) ==>
      failures == 0
  {
    hide Run, Apply, Sound, Deeds, DeedsOf, ClaimLocked, ReleasePart, PassRun, MovesRight;
    ghost var start := w.View();
    failures, moves, run := 0, [], [];
    Nothing(start);
    NoDeeds(start, p);
    NoMoves(w.claims, expired);
    PassEnds(start, p, expired, env, io);
    for i := 0 to |expired|
      invariant w.View() == Run(start, run) && Sound(w.View()) && p !in w.procs
      invariant run + PassRun(w.View(), p, expired[i..], env[i..], io[i..]) == PassRun(start, p, expired, env, io)
      invariant Deeds(start, run, p) == DeedsOf(moves)
      invariant forall id | id in expired :: id in w.claims
      invariant MovesRight(moves, w.claims, expired)
      invariant failures == 0 ==> forall j | 0 <= j < i :: w.claims[expired[j]].status != Claimed
      invariant (forall x | x in io :: !x.increment.Unsent?) ==> forall m | m in moves :: m.returned
      invariant (forall j | 0 <= j < |env| :: env[j] == ([], []) && io[j].updateOk) && (forall id :: !ClaimLocked(start.procs, id)) ==>
        failures == 0 && w.procs == start.procs
    {
      ghost var before := w.View();
      var id := expired[i];
      var failed, moved;
      ghost var more;
      failed, moved, more := ReleaseClaim(w, p, id, env[i].0, env[i].1, io[i]);
      PassStep(before, p, expired, env, io, i);
      RunAppend(start, run, more);
      DeedsAppend(start, run, more, p);
      DeedsOfAppend(moves, moved);
      ClaimsStay(before, more);
      MovesGrow(moves, moved, before, more, expired, id);
      failures := if failed then failures + 1 else failures;
      run, moves := run + more, moves + moved;
    }
    PassEnds(w.View(), p, expired, env, io);
  }

  lemma NoDeeds(s: State, p: ProcId)
    ensures Deeds(s, [], p) == DeedsOf([]) == []
  {
  }

  lemma PassStep(s: State, p: ProcId, expired: seq<ClaimId>, env: seq<(seq<Action>, seq<Action>)>, io: seq<ExpiryIo>, i: nat)
    requires |env| == |io| == |expired| && i < |expired|
    ensures var part := ReleasePart(s, p, expired[i], env[i], io[i]);
      PassRun(s, p, expired[i..], env[i..], io[i..]) == part + PassRun(Run(s, part), p, expired[i + 1..], env[i + 1..], io[i + 1..])
  {
    hide ReleasePart, Run;
    assert expired[i..][1..] == expired[i + 1..] && env[i..][1..] == env[i + 1..] && io[i..][1..] == io[i + 1..];
  }

  lemma PassEnds(s: State, p: ProcId, expired: seq<ClaimId>, env: seq<(seq<Action>, seq<Action>)>, io: seq<ExpiryIo>)
    requires |env| == |io| == |expired|
    ensures PassRun(s, p, expired[|expired|..], env[|expired|..], io[|expired|..]) == []
    ensures expired[0..] == expired && env[0..] == env && io[0..] == io
  {
  }
}
