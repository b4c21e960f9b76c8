/** reconciliation.go and recovery.go: the passes that write the counters from Postgres. */
module Workers {
  import opened Domain
  import opened Protocol
  import opened Ledger
  import opened Stores
  import QueueProtocol
  import VirtualQueue

  // ---- reconciliation

  datatype SyncIo = SyncIo(countOk: bool, getOk: bool, write: Delivery)

  /** T - CLAIMED. */
  function Target(s: State, e: EventId): int
    requires e in s.events
  {
    s.events[e].total - C(s, e)
  }

  /** The events whose counter is compared: ACTIVE and SOLD_OUT. */
  predicate Watched(s: State, e: EventId) {
    e in s.events && (s.events[e].status == Active || s.events[e].status == SoldOut)
  }

  /** The event's counter differs from Postgres, and the statements that would heal it are executed. */
  predicate Heals(s: State, e: EventId, io: SyncIo) {
    Watched(s, e) && Get(s.counters, e) != Target(s, e) && io.countOk && io.getOk && !io.write.Unsent?
  }

  /** The counters after the events of a set were reconciled. */
  function Healed(s: State, done: set<EventId>, io: EventId -> SyncIo): map<EventId, int> {
    map e | e in s.counters.Keys + done && (e in s.counters || (e in done && Heals(s, e, io(e)))) ::
      if e in done && Heals(s, e, io(e)) then Target(s, e) else s.counters[e]
  }

  /** What the counters written by a pass come to. */
  lemma PassHeals(s: State, done: set<EventId>, io: EventId -> SyncIo)
    ensures var t := s.(counters := Healed(s, done, io));
      && ((forall e | Watched(s, e) :: e in done) && (forall e :: io(e).countOk && io(e).getOk && !io(e).write.Unsent?) ==>
            && (forall e | Watched(t, e) :: Get(t.counters, e) == Target(t, e))
            && (forall e | Watched(t, e) :: Get(t.counters, e) == t.events[e].total - C(t, e) - F(t, e) <==> F(t, e) == 0)
            && (forall e | !Watched(s, e) :: (e in t.counters <==> e in s.counters) && Get(t.counters, e) == Get(s.counters, e)))
    ensures (forall e | Watched(s, e) :: Get(s.counters, e) == Target(s, e)) ==>
      Healed(s, done, io) == s.counters && Diverged(s, done, io) == {}
  {
  }

  /** reconcileEvent: count, read, compare, write. */
  method ReconcileEvent(w: Platform, p: ProcId, e: EventId, io: SyncIo) returns (failed: bool, wrote: bool, ghost run: seq<Action>)
    requires p !in w.procs && Watched(w.View(), e)
    modifies w`counters
    ensures w.View() == Run(old(w.View()), run)
    ensures w.counters == if Heals(old(w.View()), e, io) then old(w.counters)[e := Target(old(w.View()), e)] else old(w.counters)
    ensures wrote <==> Heals(old(w.View()), e, io)
    ensures run == [] || run == [ReadCount(p, e, false), WriteCount(p, io.write)]
    ensures failed <==> !io.countOk || !io.getOk || (Get(old(w.counters), e) != Target(old(w.View()), e) && !io.write.Answered?)
  {
    ghost var s := w.View();
    run, failed, wrote := [], true, false;
    if !io.countOk { return; }
    var count := w.events[e].total - CountActive(w.claims, e);
    if !io.getOk { return; }
    var cached := Get(w.counters, e);
    if cached == count { return false, false, run; }
    run := [ReadCount(p, e, false), WriteCount(p, io.write)];
    CountPass(s, p, e, false, io.write);
    failed := w.ForceSet(e, count, io.write);
    wrote := !io.write.Unsent?;
  }

  /** The lists of ACTIVE and SOLD_OUT events, None for a query that fails. */
  ghost predicate Lists(s: State, listed: seq<Option<seq<EventId>>>) {
    && |listed| == 2
    && (listed[0].Some? ==> forall e :: e in listed[0].value <==> e in s.events && s.events[e].status == Active)
    && (listed[1].Some? ==> forall e :: e in listed[1].value <==> e in s.events && s.events[e].status == SoldOut)
  }

  /** The events that a pass gets to: a query that fails ends it. */
  ghost function Reached(s: State, listed: seq<Option<seq<EventId>>>): set<EventId>
    requires Lists(s, listed)
  {
    set e | e in s.events
      && listed[0].Some? && (s.events[e].status == Active || (listed[1].Some? && s.events[e].status == SoldOut))
  }

  /** The events whose counter a pass writes. */
  ghost function Diverged(s: State, done: set<EventId>, io: EventId -> SyncIo): set<EventId> {
    set e | e in done && Heals(s, e, io(e))
  }

  /** reconcileInventory: the ACTIVE events, then the SOLD_OUT ones; an event that fails does not stop
      the pass, a list that cannot be read does.  It writes one counter per diverged event.  After a
      pass without errors GET answers T - CLAIMED for every ACTIVE and SOLD_OUT event, which is the
      true remainder exactly where no claim is CONFIRMED; other counters stay, and a pass that starts
      from there writes nothing. */
  method ReconcileInventory(w: Platform, p: ProcId, listed: seq<Option<seq<EventId>>>, io: EventId -> SyncIo)
    returns (error: bool, writes: nat, ghost run: seq<Action>)
    requires p !in w.procs && Lists(w.View(), listed)
    modifies w`counters
    ensures w.View() == Run(old(w.View()), run)
    ensures error <==> listed[0].None? || listed[1].None?
    ensures w.View() == old(w.View()).(counters := Healed(old(w.View()), Reached(old(w.View()), listed), io))
    ensures writes == |Diverged(old(w.View()), Reached(old(w.View()), listed), io)|
    ensures !error && (forall e :: io(e).countOk && io(e).getOk && !io(e).write.Unsent?) ==>
      var s, t := old(w.View()), w.View();
      && (forall e | Watched(t, e) :: Get(t.counters, e) == Target(t, e))
      && (forall e | Watched(t, e) :: Get(t.counters, e) == t.events[e].total - C(t, e) - F(t, e) <==> F(t, e) == 0)
      && (forall e | !Watched(s, e) :: (e in t.counters <==> e in s.counters) && Get(t.counters, e) == Get(s.counters, e))
    ensures (forall e | Watched(old(w.View()), e) :: Get(old(w.counters), e) == Target(old(w.View()), e)) ==>
      writes == 0 && w.View() == old(w.View())
  {
    hide Run, Healed, Target, Get, CountActive, Diverged, Heals;
    ghost var s := w.View();
    ghost var done: set<EventId> := {};
    error, run, writes := false, [], 0;
    Nothing(s);
    HealNothing(s, io);
    for i := 0 to |listed|
      invariant w.View() == Run(s, run)
      invariant w.View() == s.(counters := Healed(s, done, io)) && writes == |Diverged(s, done, io)|
      invariant forall k | 0 <= k < i :: listed[k].Some?
      invariant done == ReachedBefore(s, i)
    {
      if listed[i].None? {
        error := true;
        break;
      }
      writes, run := ReconcileList(w, p, listed[i].value, io, s, done, writes, run);
      done := done + Listed(listed[i].value);
    }
    assert done == Reached(s, listed);
    PassHeals(s, done, io);
  }

  ghost function ReachedBefore(s: State, i: nat): set<EventId> {
    set e | e in s.events && ((i > 0 && s.events[e].status == Active) || (i > 1 && s.events[e].status == SoldOut))
  }

  /** The events of one list; one that fails does not stop the others. */
  method ReconcileList(w: Platform, p: ProcId, events: seq<EventId>, io: EventId -> SyncIo,
                       ghost s: State, ghost done: set<EventId>, before: nat, ghost sofar: seq<Action>)
    returns (writes: nat, ghost run: seq<Action>)
    requires p !in w.procs && w.View() == Run(s, sofar) && forall e | e in events :: Watched(s, e)
    requires w.View() == s.(counters := Healed(s, done, io)) && before == |Diverged(s, done, io)|
    modifies w`counters
    ensures w.View() == Run(s, run)
    ensures var all := done + Listed(events);
      w.View() == s.(counters := Healed(s, all, io)) && writes == |Diverged(s, all, io)|
  {
    hide Run, Healed, Heals, Target, Get, CountActive, Diverged;
    run, writes := sofar, before;
    assert done + Listed(events[..0]) == done;
    for j := 0 to |events|
      invariant w.View() == Run(s, run)
      invariant var all := done + Listed(events[..j]);
        w.View() == s.(counters := Healed(s, all, io)) && writes == |Diverged(s, all, io)|
    {
      var e := events[j];
      ghost var all := done + Listed(events[..j]);
      HealOneMore(s, all, e, io);
      var failed, wrote;
      ghost var more;
      failed, wrote, more := ReconcileEvent(w, p, e, io(e));
      RunAppend(s, run, more);
      run := run + more;
      writes := if wrote then writes + 1 else writes;
      assert events[..j + 1] == events[..j] + [e];
      assert done + Listed(events[..j + 1]) == all + {e};
    }
    assert events[..|events|] == events;
  }

  lemma HealNothing(s: State, io: EventId -> SyncIo)
    ensures Healed(s, {}, io) == s.counters && Diverged(s, {}, io) == {}
  {
  }

  /** An event is still to be healed exactly if it was before and was not reached. */
  lemma StillHeals(s: State, done: set<EventId>, e: EventId, io: EventId -> SyncIo)
    requires Watched(s, e)
    ensures Heals(s.(counters := Healed(s, done, io)), e, io(e)) <==> Heals(s, e, io(e)) && e !in done
    ensures Target(s.(counters := Healed(s, done, io)), e) == Target(s, e)
  {
    hide CountActive;
  }

  lemma DivergedOneMore(s: State, done: set<EventId>, e: EventId, io: EventId -> SyncIo)
    ensures |Diverged(s, done + {e}, io)| == |Diverged(s, done, io)| + (if Heals(s, e, io(e)) && e !in done then 1 else 0)
  {
    hide Heals;
    if Heals(s, e, io(e)) && e !in done {
      assert Diverged(s, done + {e}, io) == Diverged(s, done, io) + {e} && e !in Diverged(s, done, io);
    } else {
      assert Diverged(s, done + {e}, io) == Diverged(s, done, io);
    }
  }

  lemma HealOneMore(s: State, done: set<EventId>, e: EventId, io: EventId -> SyncIo)
    requires Watched(s, e)
    ensures var t := s.(counters := Healed(s, done, io)); var now := Heals(t, e, io(e));
      && Healed(s, done + {e}, io) == (if now then t.counters[e := Target(t, e)] else t.counters)
      && |Diverged(s, done + {e}, io)| == |Diverged(s, done, io)| + (if now then 1 else 0)
  {
    hide Heals, Target, Diverged;
    StillHeals(s, done, e, io);
    DivergedOneMore(s, done, e, io);
  }

  // ---- startup recovery

  datatype RecoverIo = RecoverIo(countOk: bool, warm: Delivery, listOk: bool, rejoin: QueueProtocol.EntryId -> Delivery)

  predicate Warmed(io: RecoverIo) { io.countOk && !io.warm.Unsent? }

  /** The queue part runs only when the counter part reported no error. */
  predicate Rejoined(io: RecoverIo) { io.countOk && io.warm.Answered? && io.listOk }

  /** One event's queue after its WAITING rows were re-joined. */
  ghost function RejoinResult(q: QueueProtocol.State, io: RecoverIo): QueueProtocol.State
    requires QueueProtocol.UniqueIndex(q.rows)
  {
    QueueProtocol.Apply(q, QueueProtocol.Recover(QueueProtocol.LostJoins(q.rows, io.rejoin)))
  }

  function Listed(ids: seq<EventId>): set<EventId> {
    set e | e in ids
  }

  /** Missing counters of the recovered events are set to T - CLAIMED; present ones stay. */
  function Recovered(s: State, done: set<EventId>, io: EventId -> RecoverIo): map<EventId, int>
    requires forall e | e in done :: e in s.events
  {
    map e | e in s.counters.Keys + done && (e in s.counters || Warmed(io(e))) ::
      if e in s.counters then s.counters[e] else Target(s, e)
  }

  lemma RecoverNothing(s: State, io: EventId -> RecoverIo)
    ensures Recovered(s, {}, io) == s.counters
  {
  }

  lemma RecoverOneMore(s: State, done: set<EventId>, e: EventId, io: EventId -> RecoverIo)
    requires e in s.events && e !in done && forall x | x in done :: x in s.events
    ensures var t := s.(counters := Recovered(s, done, io));
      Recovered(s, done + {e}, io)
        == (if Warmed(io(e)) && e !in t.counters then t.counters[e := Target(t, e)] else t.counters)
  {
    hide CountActive;
  }

  lemma ListedSnoc(ids: seq<EventId>, i: nat)
    requires i < |ids| && forall k, j | 0 <= k < j < |ids| :: ids[k] != ids[j]
    ensures Listed(ids[..i + 1]) == Listed(ids[..i]) + {ids[i]} && ids[i] !in ids[..i]
    ensures ids[..i + 1] == ids[..i] + [ids[i]]
  {
    assert ids[..i + 1] == ids[..i] + [ids[i]];
  }

  /** recoverEvent, counter part. */
  method WarmEvent(w: Platform, p: ProcId, e: EventId, io: RecoverIo) returns (failed: bool, ghost run: seq<Action>)
    requires p !in w.procs && e in w.events
    modifies w`counters
    ensures w.View() == Run(old(w.View()), run)
    ensures w.counters ==
      if Warmed(io) && e !in old(w.counters) then old(w.counters)[e := Target(old(w.View()), e)] else old(w.counters)
    ensures failed <==> !io.countOk || !io.warm.Answered?
  {
    ghost var s := w.View();
    run, failed := [], true;
    if !io.countOk { return; }
    var count := w.events[e].total - CountActive(w.claims, e);
    run := [ReadCount(p, e, true), WriteCount(p, io.warm)];
    CountPass(s, p, e, true, io.warm);
    var stored;
    failed, stored := w.SetIfMissing(e, count, io.warm);
  }

  /** RecoverRedisState: every ACTIVE event gets its counter and its waiting set back; a present key,
      member or score is never changed, and no other event is touched. */
  method RecoverRedisState(w: Platform, p: ProcId, active: seq<EventId>, queues: map<EventId, VirtualQueue.EventQueue>,
                           entries: map<EventId, seq<QueueProtocol.EntryId>>, io: EventId -> RecoverIo)
    returns (ghost run: seq<Action>)
    requires p !in w.procs
    requires forall e :: e in active <==> e in w.events && w.events[e].status == Active
    requires forall i, j | 0 <= i < j < |active| :: active[i] != active[j]
    requires forall e | e in active :: e in queues && e in entries && queues[e].Valid()
    requires forall e, f | e in queues && f in queues && queues[e] == queues[f] :: e == f
    requires forall e, id | e in active ::
      id in entries[e] <==> id in queues[e].rows && QueueProtocol.InQueue(queues[e].rows[id])
    modifies w`counters, set e | e in queues :: queues[e]
    ensures w.View() == Run(old(w.View()), run)
    ensures forall e | e in active :: e in old(w.View()).events
    ensures w.View() == old(w.View()).(counters := Recovered(old(w.View()), Listed(active), io))
    ensures forall e | e in queues ::
      queues[e].Valid() == old(queues[e].Valid()) &&
      if e in active && Rejoined(io(e))
      then old(queues[e].Valid()) && queues[e].View() == RejoinResult(old(queues[e].View()), io(e))
      else queues[e].View() == old(queues[e].View())
  {
    hide Run, Recovered, Target, CountActive, QueueProtocol.Apply, QueueProtocol.LostJoins;
    ghost var s := w.View();
    run := [];
    Nothing(s);
    RecoverNothing(s, io);
    assert Listed(active[..0]) == {};
    for i := 0 to |active|
      invariant w.View() == Run(s, run)
      invariant w.View() == s.(counters := Recovered(s, Listed(active[..i]), io))
      invariant forall e | e in queues :: queues[e].rows == old(queues[e].rows)
      invariant forall e | e in queues ::
        if e in active[..i] && Rejoined(io(e))
        then old(queues[e].Valid()) && queues[e].View() == RejoinResult(old(queues[e].View()), io(e))
        else queues[e].View() == old(queues[e].View())
    {
      var e := active[i];
      ListedSnoc(active, i);
      var failed;
      ghost var more;
      ghost var t := w.View();
      failed, more := WarmEvent(w, p, e, io(e));
      RunAppend(s, run, more);
      run := run + more;
      RecoverOneMore(s, Listed(active[..i]), e, io);
      if !failed && io(e).listOk { queues[e].RecoverWaiting(entries[e], io(e).rejoin); }
    }
    assert active[..|active|] == active;
  }

  /** From any Redis state, recovery keeps every counter that is there, fills in the missing ones of
      the recovered events, and has nothing left to do the second time. */
  lemma RecoveryIdempotent(s: State, done: set<EventId>, io: EventId -> RecoverIo)
    requires forall e | e in done :: e in s.events
    ensures var t := s.(counters := Recovered(s, done, io));
      && (forall e | e in s.counters :: e in t.counters && t.counters[e] == s.counters[e])
      && (forall e | e in done && e !in s.counters && Warmed(io(e)) :: e in t.counters && t.counters[e] == Target(s, e))
      && (forall e | e !in done :: e in t.counters <==> e in s.counters)
      && Recovered(t, done, io) == t.counters
  {
  }
}
