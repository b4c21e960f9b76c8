/** queue.go, queue_coordinator.go and the queue part of the workers, for one event: the two sorted
    sets and the rows are updated in place. */
module VirtualQueue {
  import opened Domain
  import opened SortedSet
  import opened Score
  import opened QueueProtocol
  import opened Position
  import Fairness

  datatype Answer = At(position: int) | NotFound | RedisError

  lemma FirstUnique(z: ZSet, m: CustomerId)
    requires IsFirst(z, m)
    ensures z != map[] && First(z) == m
  {
  }

  /** The members of a popped list of (member, score) pairs. */
  function Names(popped: seq<(CustomerId, int)>): seq<CustomerId> {
    seq(|popped|, i requires 0 <= i < |popped| => popped[i].0)
  }

  lemma NamesOf(popped: seq<(CustomerId, int)>)
    ensures |Names(popped)| == |popped| && (popped == [] ==> Names(popped) == [] && Members(Names(popped)) == {})
  {
  }

  lemma PopNothing(z: ZSet, n: int)
    ensures n <= 0 || z == map[] ==> Batch(z, n) == []
    ensures z - Members([]) == z && [] + Batch(z, n) == Batch(z, n)
  {
    assert Members([]) == {};
  }

  lemma PopStep(z: ZSet, popped: seq<(CustomerId, int)>, rest: ZSet, n: int, m: CustomerId)
    requires rest == z - Members(Names(popped)) && IsFirst(rest, m) && |popped| < n
    ensures var more := popped + [(m, rest[m])];
      && Names(more) + Batch(rest - {m}, n - |more|) == Names(popped) + Batch(rest, n - |popped|)
      && rest - {m} == z - Members(Names(more))
  {
    FirstUnique(rest, m);
    var more := popped + [(m, rest[m])];
    assert Names(more) == Names(popped) + [m];
    assert Members(Names(popped) + [m]) == Members(Names(popped)) + {m};
  }

  lemma NoneAdmitted(q: Fairness.Queue, n: int, now: nat)
    requires Batch(q.waiting, n) == []
    ensures Fairness.AdmitScript(q, n, now) == (q, []) && q.waiting - Members([]) == q.waiting
  {
    assert Members([]) == {};
    assert q.waiting - Members([]) == q.waiting;
    assert q.admitted + Fairness.AtScore(Members([]), ScoreOf(now)) == q.admitted;
  }

  /** What ZADD leaves, as one map. */
  lemma AllAdmitted(before: ZSet, after: ZSet, args: seq<(int, CustomerId)>, customers: seq<CustomerId>, now: int)
    requires |args| == |customers| && forall j | 0 <= j < |args| :: args[j] == (now, customers[j])
    requires forall c :: c in after <==> c in before || exists j | 0 <= j < |args| :: args[j].1 == c
    requires forall j | 0 <= j < |args| :: args[j].1 in after && after[args[j].1] == args[j].0
    requires forall c | c in before && (forall j | 0 <= j < |args| :: args[j].1 != c) :: after[c] == before[c]
    ensures after == before + Fairness.AtScore(Members(customers), now)
  {
    forall c
      ensures c in Members(customers) <==> exists j | 0 <= j < |args| :: args[j].1 == c
    {
      if c in customers {
        var j :| 0 <= j < |customers| && customers[j] == c;
        assert args[j].1 == c;
      }
      if j :| 0 <= j < |args| && args[j].1 == c {
        assert customers[j] == c;
      }
    }
  }

  // ---- the pass of the expiry worker

  ghost predicate KeepsIndex(f: Rows -> Rows) {
    forall r :: UniqueIndex(r) ==> UniqueIndex(f(r))
  }

  /** The UPDATE of one entry, conditional on the status of the snapshot. */
  function ExpireOne(rows: Rows, id: EntryId, status: EntryStatus, ok: bool): Rows {
    if ok && id in rows && rows[id].status == status then SetStatus(rows, id, Expired) else rows
  }

  function ExpiryPass(rows: Rows, snapshot: seq<(EntryId, EntryStatus)>, others: seq<Rows -> Rows>, sqlOk: EntryId -> bool): Rows
    requires |others| == |snapshot|
    decreases |snapshot|
  {
    if snapshot == [] then rows
    else
      var (id, status) := snapshot[0];
      ExpiryPass(ExpireOne(others[0](rows), id, status, sqlOk(id)), snapshot[1..], others[1..], sqlOk)
  }

  /** The rows just before the UPDATE number i. */
  function RowsBefore(rows: Rows, snapshot: seq<(EntryId, EntryStatus)>, others: seq<Rows -> Rows>, sqlOk: EntryId -> bool, i: nat): Rows
    requires |others| == |snapshot| && i < |snapshot|
  {
    others[i](ExpiryPass(rows, snapshot[..i], others[..i], sqlOk))
  }

  lemma {:induction false} PassSnoc(rows: Rows, snapshot: seq<(EntryId, EntryStatus)>, others: seq<Rows -> Rows>, sqlOk: EntryId -> bool, i: nat)
    requires |others| == |snapshot| && i < |snapshot|
    ensures ExpiryPass(rows, snapshot[..i + 1], others[..i + 1], sqlOk)
         == ExpireOne(RowsBefore(rows, snapshot, others, sqlOk, i), snapshot[i].0, snapshot[i].1, sqlOk(snapshot[i].0))
    decreases i
  {
    if i > 0 {
      var (id, status) := snapshot[0];
      var next := ExpireOne(others[0](rows), id, status, sqlOk(id));
      PassSnoc(next, snapshot[1..], others[1..], sqlOk, i - 1);
      assert snapshot[..i + 1][1..] == snapshot[1..][..i] && others[..i + 1][1..] == others[1..][..i];
      assert snapshot[..i][1..] == snapshot[1..][..i - 1] && others[..i][1..] == others[1..][..i - 1];
    } else {
      assert snapshot[..1][1..] == [] && others[..1][1..] == [];
      assert snapshot[..0] == [] && others[..0] == [];
    }
  }

  /** The UPDATE number i expires its entry exactly if it is executed while the entry still has the status
      of the snapshot, and changes no other entry. */
  lemma UpdateOfPass(rows: Rows, snapshot: seq<(EntryId, EntryStatus)>, others: seq<Rows -> Rows>, sqlOk: EntryId -> bool, i: nat)
    requires |others| == |snapshot| && i < |snapshot|
    ensures var before := RowsBefore(rows, snapshot, others, sqlOk, i);
      var after := ExpiryPass(rows, snapshot[..i + 1], others[..i + 1], sqlOk);
      var (id, status) := snapshot[i];
      && before.Keys == after.Keys && (forall k | k in before && k != id :: after[k] == before[k])
      && (id in before ==> after[id] == if sqlOk(id) && before[id].status == status then before[id].(status := Expired) else before[id])
  {
    PassSnoc(rows, snapshot, others, sqlOk, i);
  }

  ghost predicate LeavesAlone(f: Rows -> Rows, id: EntryId) {
    forall r :: (id in f(r) <==> id in r) && (id in r ==> f(r)[id] == r[id])
  }

  /** The pass updates the entry: it is in the snapshot with its status, and the UPDATE does not fail. */
  predicate ExpiresEntry(snapshot: seq<(EntryId, EntryStatus)>, sqlOk: EntryId -> bool, id: EntryId, status: EntryStatus) {
    (id, status) in snapshot && sqlOk(id)
  }

  /** What becomes of an entry that nobody else writes. */
  lemma {:induction false} EntryAfterPass(rows: Rows, snapshot: seq<(EntryId, EntryStatus)>, others: seq<Rows -> Rows>,
                                          sqlOk: EntryId -> bool, id: EntryId)
    requires |others| == |snapshot| && forall f | f in others :: LeavesAlone(f, id)
    ensures var t := ExpiryPass(rows, snapshot, others, sqlOk);
      && (id in t <==> id in rows)
      && (id in t ==> t[id] == if ExpiresEntry(snapshot, sqlOk, id, rows[id].status) then rows[id].(status := Expired) else rows[id])
    decreases |snapshot|
  {
    if snapshot != [] {
      var (k, status) := snapshot[0];
      var written := others[0](rows);
      assert others[0] in others && LeavesAlone(others[0], id);
      var next := ExpireOne(written, k, status, sqlOk(k));
      EntryAfterPass(next, snapshot[1..], others[1..], sqlOk, id);
      assert forall x | x in snapshot :: x == snapshot[0] || x in snapshot[1..];
      assert snapshot[0] in snapshot && forall x | x in snapshot[1..] :: x in snapshot;
    }
  }

  lemma PassStep(rows: Rows, snapshot: seq<(EntryId, EntryStatus)>, others: seq<Rows -> Rows>, sqlOk: EntryId -> bool, i: nat)
    requires |others| == |snapshot| && i < |snapshot|
    ensures var (id, status) := snapshot[i];
      ExpiryPass(rows, snapshot[i..], others[i..], sqlOk)
        == ExpiryPass(ExpireOne(others[i](rows), id, status, sqlOk(id)), snapshot[i + 1..], others[i + 1..], sqlOk)
  {
    assert snapshot[i..][1..] == snapshot[i + 1..] && others[i..][1..] == others[i + 1..];
  }

  lemma PassEnds(rows: Rows, snapshot: seq<(EntryId, EntryStatus)>, others: seq<Rows -> Rows>, sqlOk: EntryId -> bool)
    requires |others| == |snapshot|
    ensures ExpiryPass(rows, snapshot[|snapshot|..], others[|snapshot|..], sqlOk) == rows
    ensures snapshot[0..] == snapshot && others[0..] == others
  {
  }

  /** The stale rows at a moment, each with its status. */
  ghost predicate SnapshotOf(snapshot: seq<(EntryId, EntryStatus)>, rows: Rows, now: nat) {
    && (forall x | x in snapshot :: x.0 in rows && rows[x.0].status == x.1 && Stale(rows[x.0], now))
    && (forall id | id in rows && Stale(rows[id], now) :: (id, rows[id].status) in snapshot)
  }

  /** Without other writers and failures the pass expires exactly the entries of its snapshot. */
  lemma {:induction false} PassExpires(rows: Rows, snapshot: seq<(EntryId, EntryStatus)>, others: seq<Rows -> Rows>, sqlOk: EntryId -> bool)
    requires |others| == |snapshot| && (forall f, r | f in others :: f(r) == r) && (forall id :: sqlOk(id))
    requires forall x | x in snapshot :: x.0 in rows && (rows[x.0].status == x.1 || rows[x.0].status == Expired)
    ensures var t := ExpiryPass(rows, snapshot, others, sqlOk);
      && t.Keys == rows.Keys
      && (forall id | id in rows ::
            t[id] == if exists x :: x in snapshot && x.0 == id then rows[id].(status := Expired) else rows[id])
    decreases |snapshot|
  {
    if snapshot != [] {
      var (id, status) := snapshot[0];
      var next := ExpireOne(rows, id, status, true);
      assert others[0] in others;
      PassExpires(next, snapshot[1..], others[1..], sqlOk);
      forall k | k in rows
        ensures (exists x :: x in snapshot && x.0 == k) <==> k == id || exists x :: x in snapshot[1..] && x.0 == k
      {
        if x :| x in snapshot && x.0 == k { assert x == snapshot[0] || x in snapshot[1..]; }
        assert snapshot[0] in snapshot;
      }
    }
  }

  lemma UndisturbedPass(rows: Rows, snapshot: seq<(EntryId, EntryStatus)>, others: seq<Rows -> Rows>, sqlOk: EntryId -> bool, now: nat)
    requires |others| == |snapshot| && SnapshotOf(snapshot, rows, now)
    requires (forall f, r | f in others :: f(r) == r) && forall id :: sqlOk(id)
    ensures ExpiryPass(rows, snapshot, others, sqlOk) == ExpireStale(rows, now)
  {
    PassExpires(rows, snapshot, others, sqlOk);
    var t := ExpiryPass(rows, snapshot, others, sqlOk);
    forall id | id in rows
      ensures t[id] == ExpireStale(rows, now)[id]
    {
      if Stale(rows[id], now) {
        var x := (id, rows[id].status);
        assert x in snapshot && x.0 == id;
      }
    }
  }

  class EventQueue {
    var waiting: ZSet
    var admitted: ZSet
    var rows: Rows

    function View(): State
      reads this
    {
      State(Fairness.Queue(waiting, admitted), rows)
    }

    ghost predicate Valid()
      reads this
    {
      UniqueIndex(rows)
    }

    constructor ()
      ensures Valid() && View() == State(Fairness.Queue(map[], map[]), map[])
    {
      waiting, admitted, rows := map[], map[], map[];
    }

    // ---- Redis

    /** ZPOPMIN with a count. */
    method PopMin(n: int) returns (popped: seq<(CustomerId, int)>)
      modifies this`waiting
      ensures Names(popped) == Batch(old(waiting), n)
      ensures waiting == old(waiting) - Members(Batch(old(waiting), n))
    {
      hide Batch, Members, Names;
      popped := [];
      ghost var start := waiting;
      NamesOf(popped);
      PopNothing(start, n);
      while |popped| < n && waiting != map[]
        invariant 0 < n ==> |popped| <= n
        invariant n <= 0 ==> popped == []
        invariant Names(popped) + Batch(waiting, n - |popped|) == Batch(start, n)
        invariant waiting == start - Members(Names(popped))
        decreases n - |popped|
      {
        FirstExists(waiting);
        var m :| m in waiting && IsFirst(waiting, m);
        PopStep(start, popped, waiting, n, m);
        popped := popped + [(m, waiting[m])];
        waiting := waiting - {m};
      }
      PopNothing(waiting, n - |popped|);
    }

    /** admitBatchScript: pop, collect the ZADD arguments, add them all. */
    method AdmitScript(n: int, now: nat) returns (customers: seq<CustomerId>)
      modifies this`waiting, this`admitted
      ensures (View().queue, customers) == Fairness.AdmitScript(old(View()).queue, n, now)
      ensures rows == old(rows)
    {
      hide Batch, Members, ScoreOf;
      var score := ScoreOf(now);
      var results := PopMin(n);
      customers := [];
      if |results| == 0 {
        assert Names(results) == [];
        NoneAdmitted(old(View()).queue, n, now);
        return;
      }
      var zaddArgs: seq<(int, CustomerId)> := [];
      for i := 0 to |results|
        invariant customers == Names(results)[..i]
        invariant |customers| == |zaddArgs| == i && forall j | 0 <= j < i :: zaddArgs[j] == (score, customers[j])
      {
        customers := customers + [results[i].0];
        zaddArgs := zaddArgs + [(score, results[i].0)];
      }
      assert customers == Names(results);
      ZAdd(zaddArgs);
      AllAdmitted(old(admitted), admitted, zaddArgs, customers, score);
    }

    /** ZADD of several members, which overwrites the score of a present one. */
    method ZAdd(args: seq<(int, CustomerId)>)
      requires forall i, j | 0 <= i < |args| && 0 <= j < |args| :: args[i].0 == args[j].0
      modifies this`admitted
      ensures forall c :: c in admitted <==> c in old(admitted) || exists j | 0 <= j < |args| :: args[j].1 == c
      ensures forall j | 0 <= j < |args| :: args[j].1 in admitted && admitted[args[j].1] == args[j].0
      ensures forall c | c in old(admitted) && (forall j | 0 <= j < |args| :: args[j].1 != c) :: admitted[c] == old(admitted)[c]
    {
      for i := 0 to |args|
        invariant forall c :: c in admitted <==> c in old(admitted) || exists j | 0 <= j < i :: args[j].1 == c
        invariant forall j | 0 <= j < i :: args[j].1 in admitted && admitted[args[j].1] == args[j].0
        invariant forall c | c in old(admitted) && (forall j | 0 <= j < i :: args[j].1 != c) :: admitted[c] == old(admitted)[c]
      {
        admitted := admitted[args[i].1 := args[i].0];
      }
    }

    // ---- the coordinator

    /** Join: the row first; what Redis says is only logged. */
    method Join(id: EntryId, c: CustomerId, ns: nat, sqlOk: bool, d: Delivery) returns (error: bool)
      requires Valid()
      modifies this
      ensures Valid() && View() == if sqlOk then DoJoin(old(View()), id, c, ns, d) else old(View())
      ensures error <==> !sqlOk || id in old(rows) || HasActive(old(rows), c)
    {
      error := !sqlOk || id in rows || HasActive(rows, c);
      if error { return; }
      rows := rows[id := Entry(c, Waiting, ns / 1000, None)];
      if !d.Unsent? && c !in waiting && c !in admitted {
        waiting := waiting[c := ScoreOf(ns)];
      }
    }

    /** Abandon: only a WAITING row, and then the waiting set. */
    method Abandon(c: CustomerId, sqlOk: bool, d: Delivery) returns (error: bool)
      requires Valid()
      modifies this
      ensures Valid() && View() == if sqlOk then DoAbandon(old(View()), c, d) else old(View())
      ensures error <==> !sqlOk || !exists id :: id in old(rows) && old(rows)[id].customer == c && old(rows)[id].status == Waiting
    {
      error := true;
      if !sqlOk || !HasActive(rows, c) { return; }
      var id :| id in rows && IsActiveRow(rows, id, c);
      if rows[id].status != Waiting { return; }
      rows := rows[id := rows[id].(status := Abandoned)];
      if !d.Unsent? { waiting := waiting - {c}; }
      error := false;
    }

    /** Complete: only an ADMITTED row, and then the admitted set. */
    method Complete(c: CustomerId, sqlOk: bool, d: Delivery) returns (error: bool)
      requires Valid()
      modifies this
      ensures Valid() && View() == if sqlOk then DoComplete(old(View()), c, d) else old(View())
      ensures error <==> !sqlOk || !exists id :: id in old(rows) && old(rows)[id].customer == c && old(rows)[id].status == Admitted
    {
      error := true;
      if !sqlOk || !HasActive(rows, c) { return; }
      var id :| id in rows && IsActiveRow(rows, id, c);
      if rows[id].status != Admitted { return; }
      rows := rows[id := rows[id].(status := Completed)];
      if !d.Unsent? { admitted := admitted - {c}; }
      error := false;
    }

    /** AdmitNextBatch: Redis decides, Postgres follows; a failing batch update is only logged. */
    method AdmitNextBatch(n: int, now: nat, d: Delivery, sqlOk: bool) returns (error: bool, batch: seq<CustomerId>)
      requires Valid()
      modifies this
      ensures Valid() && (View(), batch) == DoAdmit(old(View()), n, now, d, sqlOk)
      ensures error <==> !d.Answered?
    {
      error, batch := !d.Answered?, [];
      if d.Unsent? { return; }
      var customers := AdmitScript(n, now);
      if d.AnswerLost? { return; }
      batch := customers;
      if |customers| == 0 {
        assert MarkAdmitted(rows, Members(customers), now) == rows;
        return;
      }
      if sqlOk { rows := MarkAdmitted(rows, Members(customers), now); }
    }

    /** EvictExpired. */
    method EvictExpired(cutoff: int, d: Delivery, sqlOk: bool) returns (error: bool, evicted: set<CustomerId>)
      requires Valid()
      modifies this
      ensures Valid() && View() == DoEvict(old(View()), cutoff, d, sqlOk)
      ensures error <==> !d.Answered?
      ensures evicted == if error then {} else Fairness.Overdue(old(View()).queue, cutoff)
    {
      error, evicted := !d.Answered?, {};
      if d.Unsent? { return; }
      var last := Fairness.CutoffScore(cutoff);
      var gone := set c | c in admitted && 0 <= admitted[c] <= last;
      admitted := admitted - gone;
      if d.AnswerLost? { return; }
      evicted := gone;
      if gone == {} {
        assert MarkExpired(rows, gone) == rows;
        return;
      }
      if sqlOk { rows := MarkExpired(rows, gone); }
    }

    /** One admission tick: evict, size the batch by the inventory, admit.  available is what GetCount
        answered, None an error. */
    method ProcessEvent(available: Option<int>, batchSize: int, now: nat, window: int,
                        evictIo: Delivery, evictSql: bool, admitIo: Delivery, admitSql: bool)
      returns (error: bool, batch: seq<CustomerId>)
      requires Valid()
      modifies this
      ensures Valid()
      ensures error <==>
        available.None? || (Fairness.AdmitCount(available.value, batchSize) != 0 && !admitIo.Answered?)
      ensures var s := DoEvict(old(View()), now - window, evictIo, evictSql);
        (View(), batch) == (if available.None? || Fairness.AdmitCount(available.value, batchSize) == 0 then (s, [])
                            else DoAdmit(s, Fairness.AdmitCount(available.value, batchSize), now, admitIo, admitSql))
    {
      var evictError, evicted := EvictExpired(now - window, evictIo, evictSql);
      error, batch := available.None?, [];
      if available.None? { return; }
      var n := Fairness.AdmitCount(available.value, batchSize);
      if n == 0 { return; }
      error, batch := AdmitNextBatch(n, now, admitIo, admitSql);
    }

    /** GetPosition: 0 for an admitted customer, the rank from one in Redis, or the row number. */
    method GetPosition(c: CustomerId, admittedOk: bool, rankOk: bool) returns (r: Answer)
      requires Valid()
      ensures admittedOk && c in admitted ==> r == At(0)
      ensures !(admittedOk && c in admitted) && !rankOk ==> r == RedisError
      ensures !(admittedOk && c in admitted) && rankOk && c in waiting ==> r == At(Rank(waiting, c) + 1)
      ensures !(admittedOk && c in admitted) && rankOk && c !in waiting ==>
        if HasActive(rows, c) then exists id :: IsActiveRow(rows, id, c) && r == At(RowPosition(rows, id)) else r == NotFound
    {
      if admittedOk && c in admitted { return At(0); }
      if !rankOk { return RedisError; }
      if c in waiting { return At(Rank(waiting, c) + 1); }
      if !HasActive(rows, c) { return NotFound; }
      var id :| id in rows && IsActiveRow(rows, id, c);
      r := At(RowPosition(rows, id));
    }

    // ---- workers

    /** expireQueueEntries over its snapshot: one conditional UPDATE per entry, Postgres only.  Before
        each of them somebody else may write the rows, and each may fail; the others go on. */
    method ExpireQueueEntries(snapshot: seq<(EntryId, EntryStatus)>, others: seq<Rows -> Rows>, sqlOk: EntryId -> bool)
      requires Valid() && |others| == |snapshot| && forall f | f in others :: KeepsIndex(f)
      modifies this`rows
      ensures Valid() && rows == ExpiryPass(old(rows), snapshot, others, sqlOk)
      ensures forall id | (forall f | f in others :: LeavesAlone(f, id)) ::
        && (id in rows <==> id in old(rows))
        && (id in rows ==> rows[id] == if ExpiresEntry(snapshot, sqlOk, id, old(rows)[id].status)
                                       then old(rows)[id].(status := Expired) else old(rows)[id])
      ensures forall now: nat :: SnapshotOf(snapshot, old(rows), now) && (forall f, r | f in others :: f(r) == r) && (forall id :: sqlOk(id)) ==>
        View() == Apply(old(View()), ExpireRows(now))
    {
      hide ExpiryPass;
      PassEnds(old(rows), snapshot, others, sqlOk);
      for i := 0 to |snapshot|
        invariant Valid()
        invariant ExpiryPass(rows, snapshot[i..], others[i..], sqlOk) == ExpiryPass(old(rows), snapshot, others, sqlOk)
      {
        PassStep(rows, snapshot, others, sqlOk, i);
        assert others[i] in others && KeepsIndex(others[i]);
        rows := others[i](rows);
        var (id, status) := snapshot[i];
        if sqlOk(id) && id in rows && rows[id].status == status {
          rows := rows[id := rows[id].(status := Expired)];
        }
      }
      PassEnds(rows, snapshot, others, sqlOk);
      forall id | (forall f | f in others :: LeavesAlone(f, id))
        ensures id in rows <==> id in old(rows)
        ensures id in rows ==> rows[id] == if ExpiresEntry(snapshot, sqlOk, id, old(rows)[id].status)
                                           then old(rows)[id].(status := Expired) else old(rows)[id]
      {
        EntryAfterPass(old(rows), snapshot, others, sqlOk, id);
      }
      forall now: nat | SnapshotOf(snapshot, old(rows), now) && (forall f, r | f in others :: f(r) == r) && (forall id :: sqlOk(id))
        ensures rows == ExpireStale(old(rows), now)
      {
        UndisturbedPass(old(rows), snapshot, others, sqlOk, now);
      }
    }

    /** recoverEvent, queue part: re-join every WAITING entry with its original join time.  Entries that
        are already in one of the sets are left alone, and a re-join that fails is only logged. */
    method RecoverWaiting(entries: seq<EntryId>, io: EntryId -> Delivery)
      requires Valid()
      requires forall id :: id in entries <==> id in rows && InQueue(rows[id])
      modifies this`waiting
      ensures View() == Apply(old(View()), Recover(LostJoins(rows, io)))
    {
      hide Listed, ScoreOf;
      ghost var kept := rows - LostJoins(rows, io);
      NoneListed(kept);
      for i := 0 to |entries|
        invariant forall c :: (c in waiting) == (c in old(waiting) || (c !in admitted && Listed(kept, entries[..i], c)))
        invariant forall c | c in old(waiting) :: waiting[c] == old(waiting)[c]
        invariant forall j | 0 <= j < i && entries[j] in kept && kept[entries[j]].status == Waiting
          && kept[entries[j]].customer in waiting && kept[entries[j]].customer !in old(waiting) ::
          waiting[kept[entries[j]].customer] == ScoreOf(1000 * kept[entries[j]].joinedAt)
      {
        ListedOneMore(kept, entries, i);
        var entry := rows[entries[i]];
        assert entries[i] in kept <==> !io(entries[i]).Unsent?;
        if Listed(kept, entries[..i], entry.customer) {
          ghost var j := ListedAt(kept, entries, i, entry.customer);
          assert entry.status == Waiting ==> entries[j] == entries[i];   // the unique index
        }
        if entry.status == Waiting && !io(entries[i]).Unsent? && entry.customer !in waiting && entry.customer !in admitted {
          waiting := waiting[entry.customer := ScoreOf(1000 * entry.joinedAt)];
        }
      }
      assert entries[..|entries|] == entries;
      RecoveredAll(old(View()), waiting, entries, LostJoins(rows, io));
    }
  }

  /** Some WAITING row among the listed ones belongs to the customer. */
  predicate Listed(rows: Rows, entries: seq<EntryId>, c: CustomerId) {
    exists id :: id in entries && id in rows && rows[id].status == Waiting && rows[id].customer == c
  }

  lemma NoneListed(rows: Rows)
    ensures forall c :: !Listed(rows, [], c)
  {
  }

  lemma ListedAt(rows: Rows, entries: seq<EntryId>, i: nat, c: CustomerId) returns (j: nat)
    requires i <= |entries| && Listed(rows, entries[..i], c)
    ensures j < i && entries[j] in rows && rows[entries[j]].status == Waiting && rows[entries[j]].customer == c
  {
    var id :| id in entries[..i] && id in rows && rows[id].status == Waiting && rows[id].customer == c;
    j :| 0 <= j < i && entries[j] == id;
  }

  lemma ListedOneMore(rows: Rows, entries: seq<EntryId>, i: nat)
    requires i < |entries|
    ensures forall c :: Listed(rows, entries[..i + 1], c) <==>
      Listed(rows, entries[..i], c)
      || (entries[i] in rows && rows[entries[i]].status == Waiting && rows[entries[i]].customer == c)
  {
    var more, last := entries[..i + 1], entries[i];
    assert more == entries[..i] + [last];
    forall c
      ensures Listed(rows, more, c) <==>
        Listed(rows, entries[..i], c) || (last in rows && rows[last].status == Waiting && rows[last].customer == c)
    {
      if Listed(rows, more, c) {
        var id :| id in more && id in rows && rows[id].status == Waiting && rows[id].customer == c;
        assert id in entries[..i] || id == last;
      }
      if Listed(rows, entries[..i], c) {
        var id :| id in entries[..i] && id in rows && rows[id].status == Waiting && rows[id].customer == c;
        assert id in more;
      }
      assert last in more;
    }
  }

  lemma RecoveredAll(s: State, w: ZSet, entries: seq<EntryId>, lost: set<EntryId>)
    requires UniqueIndex(s.rows) && forall id :: id in entries <==> id in s.rows && InQueue(s.rows[id])
    requires forall c :: (c in w) == (c in s.queue.waiting || (c !in s.queue.admitted && Listed(s.rows - lost, entries, c)))
    requires forall c | c in s.queue.waiting :: w[c] == s.queue.waiting[c]
    requires forall j | 0 <= j < |entries| && entries[j] in s.rows - lost && s.rows[entries[j]].status == Waiting
      && s.rows[entries[j]].customer in w && s.rows[entries[j]].customer !in s.queue.waiting ::
      w[s.rows[entries[j]].customer] == ScoreOf(1000 * s.rows[entries[j]].joinedAt)
    ensures s.(queue := s.queue.(waiting := w)) == Apply(s, Recover(lost))
  {
    var t := Apply(s, Recover(lost));
    RecoveryRebuilds(s, lost);
    hide Apply;
    forall c
      ensures c in w <==> c in t.queue.waiting
      ensures c in w && c in t.queue.waiting ==> w[c] == t.queue.waiting[c]
    {
      if c !in s.queue.waiting && c !in s.queue.admitted && c in Customers(s.rows - lost, Waiting) {
        var id :| id in s.rows - lost && (s.rows - lost)[id].status == Waiting && (s.rows - lost)[id].customer == c;
        assert id in entries;
      }
    }
    assert w == t.queue.waiting;
  }
}
