/** The ledger of one process: what its own statements did to the stock of an event, whatever the
    other processes did in between. */
module Books {
  import opened Domain
  import opened Protocol
  import opened Integrity
  import opened Ledger
  import opened Stores

  /** Changes of the counter and of the sold rows, tickets raised and lost, and what overwrites added. */
  datatype Book = Book(counter: int, sold: int, raised: int, lost: int, written: int)

  const EMPTY := Book(0, 0, 0, 0, 0)

  function Plus(x: Book, y: Book): Book {
    Book(x.counter + y.counter, x.sold + y.sold, x.raised + y.raised, x.lost + y.lost, x.written + y.written)
  }

  lemma Sums(x: Book, y: Book, z: Book)
    ensures Plus(Plus(x, y), z) == Plus(x, Plus(y, z)) && Plus(EMPTY, x) == x
  {
  }

  /** The entry of one statement. */
  function EntryOf(s: State, a: Action, e: EventId): Book
    requires !a.Wipe?
  {
    var t := Apply(s, a);
    Book(R(t, e) - R(s, e), Sold(t.claims, e) - Sold(s.claims, e),
         One(SecondMiss(s, a, e) || FailureWithoutRow(s, a, e)), One(Loses(s, a, e)),
         if Overwrites(s, a, e) then s.procs[a.p].count - R(s, e) else 0)
  }

  /** The entries of the statements of p among those of a run. */
  ghost function OwnBook(s: State, run: seq<Action>, p: ProcId, e: EventId): Book
    decreases run
  {
    if run == [] then EMPTY
    else
      Plus(if Owns(p, run[0]) then EntryOf(s, run[0], e) else EMPTY, OwnBook(Apply(s, run[0]), run[1..], p, e))
  }

  lemma {:induction false} OwnBookAppend(s: State, r1: seq<Action>, r2: seq<Action>, p: ProcId, e: EventId)
    ensures OwnBook(s, r1 + r2, p, e) == Plus(OwnBook(s, r1, p, e), OwnBook(Run(s, r1), r2, p, e))
    decreases r1
  {
    hide Apply, EntryOf, Plus;
    if r1 == [] {
      assert r1 + r2 == r2;
      Sums(OwnBook(s, r2, p, e), EMPTY, EMPTY);
    } else {
      var first := if Owns(p, r1[0]) then EntryOf(s, r1[0], e) else EMPTY;
      var t := Apply(s, r1[0]);
      assert (r1 + r2)[1..] == r1[1..] + r2;
      OwnBookAppend(t, r1[1..], r2, p, e);
      Sums(first, OwnBook(t, r1[1..], p, e), OwnBook(Run(t, r1[1..]), r2, p, e));
    }
  }

  lemma {:induction false} ForeignBook(s: State, acts: seq<Action>, p: ProcId, e: EventId)
    requires Foreign(acts, p)
    ensures OwnBook(s, acts, p, e) == EMPTY
    decreases acts
  {
    hide Apply, EntryOf, Plus;
    if acts != [] {
      assert !Owns(p, acts[0]);
      ForeignBook(Apply(s, acts[0]), acts[1..], p, e);
      Sums(EMPTY, EMPTY, EMPTY);
    }
  }

  /** Others act, then one statement of p, then the rest. */
  lemma BookStep(s: State, acts: seq<Action>, a: Action, rest: seq<Action>, p: ProcId, e: EventId)
    requires Foreign(acts, p) && Owns(p, a)
    ensures OwnBook(s, acts + [a] + rest, p, e)
         == Plus(EntryOf(Run(s, acts), a, e), OwnBook(Apply(Run(s, acts), a), rest, p, e))
  {
    hide Run, Apply, EntryOf, Plus;
    var t := Run(s, acts);
    Sums(OwnBook(t, [a] + rest, p, e), EMPTY, EMPTY);
    OwnBookAppend(s, acts, [a] + rest, p, e);
    ForeignBook(s, acts, p, e);
    assert acts + ([a] + rest) == acts + [a] + rest;
    assert ([a] + rest)[0] == a && ([a] + rest)[1..] == rest;
  }

  /** One statement of p keeps the books of p. */
  lemma EntryBalances(s: State, a: Action, e: EventId)
    requires Sound(s) && !a.Wipe?
    ensures var b := EntryOf(s, a, e);
      b.counter + b.sold + Weight(At(Apply(s, a), a.p), e) - Weight(At(s, a.p), e) == b.raised - b.lost + b.written
  {
    hide Continue, Open, Sound, Loses, SecondMiss, FailureWithoutRow, Sold;
    Account(s, a, e);
    RaisesApart(s, a, e);
  }

  /** The kinds of irregular statements exclude each other. */
  lemma RaisesApart(s: State, a: Action, e: EventId)
    requires !a.Wipe?
    ensures !(Overwrites(s, a, e) && (SecondMiss(s, a, e) || FailureWithoutRow(s, a, e) || Loses(s, a, e)))
  {
  }

  /** The books of every process balance in every run, whoever else takes part: counter and sold rows
      move by what the process held and owed before and not after, but for what its own statements
      raised, lost and overwrote. */
  lemma {:induction false} OwnBookBalances(s: State, run: seq<Action>, p: ProcId, e: EventId)
    requires Sound(s)
    ensures var b := OwnBook(s, run, p, e);
      b.counter + b.sold + Weight(At(Run(s, run), p), e) - Weight(At(s, p), e) == b.raised - b.lost + b.written
    decreases run
  {
    if run != [] {
      hide Apply, EntryOf, Sound, Weight;
      var a := run[0];
      SoundStep(s, a);
      OwnBookBalances(Apply(s, a), run[1..], p, e);
      if Owns(p, a) {
        EntryBalances(s, a, e);
      } else {
        ForeignStep(s, a, p);
      }
    }
  }
}
