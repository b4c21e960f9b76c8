/** The claim lock: SET NX with a time to live, and a DEL that does not ask whose lock it is. */
module Lock {
  import opened Domain

  type Key = (CustomerId, EventId)

  /** A process inside its critical section, and when its Acquire was executed. */
  datatype Section = Section(key: Key, since: nat)

  datatype Locks = Locks(now: nat, ttl: nat, keys: map<Key, nat>, inside: map<ProcId, Section>)

  datatype Step =
    | Pass(time: nat)
    | Acquire(p: ProcId, key: Key, delivery: Delivery)
    | Release(p: ProcId, delivery: Delivery)

  /** A key exists until its expiry time. */
  predicate Held(l: Locks, key: Key) {
    key in l.keys && l.now < l.keys[key]
  }

  /** Only an answered SET NX on a missing key reports acquired = true; every other process goes on
      without the lock or gives up, and never releases. */
  function Apply(l: Locks, a: Step): Locks {
    match a
    case Pass(t) => l.(now := l.now + t)
    case Acquire(p, key, d) =>
      if p in l.inside || d.Unsent? || Held(l, key) then l
      else
        var m := l.(keys := l.keys[key := l.now + l.ttl]);
        if d.AnswerLost? then m else m.(inside := l.inside[p := Section(key, l.now)])
    case Release(p, d) =>
      if p !in l.inside then l
      else
        var m := l.(inside := l.inside - {p});
        if d.Unsent? then m else m.(keys := l.keys - {l.inside[p].key})
  }

  function Run(l: Locks, run: seq<Step>): Locks
    decreases run
  {
    if run == [] then l else Run(Apply(l, run[0]), run[1..])
  }

  /** Nobody inside has been there for the whole time to live. */
  predicate Timely(l: Locks) {
    forall p | p in l.inside :: l.now < l.inside[p].since + l.ttl
  }

  ghost predicate TimelyRun(l: Locks, run: seq<Step>)
    decreases run
  {
    Timely(l) && (run == [] || TimelyRun(Apply(l, run[0]), run[1..]))
  }

  predicate Exclusive(l: Locks) {
    forall p, q | p in l.inside && q in l.inside && l.inside[p].key == l.inside[q].key :: p == q
  }

  /** Whoever is inside owns the key: its expiry is the one that process set. */
  predicate Owned(l: Locks) {
    forall p | p in l.inside :: l.inside[p].key in l.keys && l.keys[l.inside[p].key] == l.inside[p].since + l.ttl
  }

  lemma ExclusionStep(l: Locks, a: Step)
    requires Exclusive(l) && Owned(l) && Timely(l)
    ensures Exclusive(Apply(l, a)) && Owned(Apply(l, a))
  {
  }

  /** In every timed run whose critical sections end within the time to live, at most one process per
      key is inside, although a release deletes the key without looking. */
  lemma {:induction false} MutualExclusion(l: Locks, run: seq<Step>)
    requires Exclusive(l) && Owned(l) && TimelyRun(l, run)
    ensures Exclusive(Run(l, run)) && Owned(Run(l, run))
    decreases run
  {
    if run != [] {
      ExclusionStep(l, run[0]);
      MutualExclusion(Apply(l, run[0]), run[1..]);
    }
  }

  /** The hypothesis cannot be dropped: beside a process inside, another one gets in exactly if the
      first has been there for the time to live. */
  lemma SecondGetsInIff(l: Locks, p: ProcId, q: ProcId)
    requires Owned(l) && p in l.inside && q !in l.inside
    ensures q in Apply(l, Acquire(q, l.inside[p].key, Answered)).inside <==> l.now >= l.inside[p].since + l.ttl
  {
  }

  /** Over all processes and keys: from an exclusive state some Acquire can let a second process in
      exactly if somebody inside has stayed for the time to live. */
  lemma BreakableIff(l: Locks)
    requires Owned(l) && Exclusive(l)
    ensures (exists q, key :: !Exclusive(Apply(l, Acquire(q, key, Answered)))) <==> !Timely(l)
  {
    if p :| p in l.inside && l.now >= l.inside[p].since + l.ttl {
      var q := Fresh(l.inside.Keys);
      var key := l.inside[p].key;
      SecondGetsInIff(l, p, q);
      var m := Apply(l, Acquire(q, key, Answered));
      assert m.inside[p].key == m.inside[q].key;
    } else {
      forall q, key
        ensures Exclusive(Apply(l, Acquire(q, key, Answered)))
      {
        ExclusionStep(l, Acquire(q, key, Answered));
      }
    }
  }

  /** One late release is enough to let two punctual processes in together: 1 overstays, 2 gets in,
      1 deletes the key of 2, and 3 gets in beside 2. */
  lemma LateReleaseHurtsOthers(key: Key)
    ensures var l := Run(Locks(0, 30, map[], map[]),
        [Acquire(1, key, Answered), Pass(30), Acquire(2, key, Answered), Release(1, Answered), Acquire(3, key, Answered)]);
      Timely(l) && !Exclusive(l)
  {
    var l0 := Locks(0, 30, map[], map[]);
    var a := [Acquire(1, key, Answered), Pass(30), Acquire(2, key, Answered), Release(1, Answered), Acquire(3, key, Answered)];
    var l1 := Apply(l0, a[0]);
    var l2 := Apply(l1, a[1]);
    var l3 := Apply(l2, a[2]);
    var l4 := Apply(l3, a[3]);
    var l5 := Apply(l4, a[4]);
    var a1 := a[1..]; var a2 := a1[1..]; var a3 := a2[1..]; var a4 := a3[1..];
    assert Run(l0, a) == Run(l1, a1);
    assert Run(l1, a1) == Run(l2, a2);
    assert Run(l2, a2) == Run(l3, a3);
    assert Run(l3, a3) == Run(l4, a4);
    assert a4 == [a[4]] && a4[1..] == [];
    assert Run(l4, a4) == l5;
    assert l5.inside[2].key == l5.inside[3].key;
  }

  /** The store: the keys Redis holds, with their expiry times. */
  class LockStore {
    var keys: map<Key, nat>
    const ttl: nat

    constructor (ttl: nat)
      ensures this.ttl == ttl && keys == map[]
    {
      this.ttl := ttl;
      keys := map[];
    }

    /** The store as seen at a moment, with the processes inside. */
    function At(now: nat, inside: map<ProcId, Section>): Locks
      reads this
    {
      Locks(now, ttl, keys, inside)
    }

    /** Acquire for process p: reports whether p may call itself the owner. */
    method Acquire(p: ProcId, key: Key, now: nat, d: Delivery, ghost inside: map<ProcId, Section>) returns (acquired: bool, error: bool)
      requires p !in inside
      modifies this
      ensures At(now, Apply(old(At(now, inside)), Step.Acquire(p, key, d)).inside) == Apply(old(At(now, inside)), Step.Acquire(p, key, d))
      ensures acquired <==> p in Apply(old(At(now, inside)), Step.Acquire(p, key, d)).inside
      ensures error <==> !d.Answered?
    {
      acquired, error := false, !d.Answered?;
      if !d.Unsent? && !(key in keys && now < keys[key]) {
        keys := keys[key := now + ttl];
        acquired := d.Answered?;
      }
    }

    /** Release deletes the key, whoever set it. */
    method Release(key: Key, d: Delivery)
      modifies this
      ensures keys == if d.Unsent? then old(keys) else old(keys) - {key}
    {
      if !d.Unsent? { keys := keys - {key}; }
    }
  }
}
