/** The first-order Markov melody model: a transition table from each note
    token to the ordered list of the tokens seen right after it (duplicates
    kept, so a frequent successor is drawn more often), rebuilt wholesale by
    training and walked by composition. */
module Composer {
  import opened Text
  import opened Wrappers

  /** `note -> [next note, next note, ...]`. */
  type Table = map<string, seq<string>>

  /** An observed transition: a note and the note right after it. */
  type Transition = (string, string)

  // ---------------------------------------------------------------------
  // The table that training must produce, stated on values
  // ---------------------------------------------------------------------

  /** The adjacent pairs of one melody, in order. */
  function PairsOf(notes: seq<string>): seq<Transition> {
    seq(if |notes| == 0 then 0 else |notes| - 1,
        i requires 0 <= i < |notes| - 1 => (notes[i], notes[i + 1]))
  }

  /** Every transition of every melody, melody by melody, in order. */
  function Transitions(melodies: seq<string>): seq<Transition> {
    if melodies == [] then []
    else Transitions(melodies[..|melodies| - 1]) + PairsOf(Split(melodies[|melodies| - 1]))
  }

  /** The notes that follow `k` in `ts`, in order of occurrence. */
  function Successors(ts: seq<Transition>, k: string): seq<string> {
    if ts == [] then []
    else
      var last := ts[|ts| - 1];
      Successors(ts[..|ts| - 1], k) + (if last.0 == k then [last.1] else [])
  }

  /** The notes that some transition starts from. */
  function Firsts(ts: seq<Transition>): set<string> {
    set i | 0 <= i < |ts| :: ts[i].0
  }

  function TableOf(ts: seq<Transition>): Table {
    map k | k in Firsts(ts) :: Successors(ts, k)
  }

  /** The table `train(melodies)` leaves behind. */
  function Learned(melodies: seq<string>): Table {
    TableOf(Transitions(melodies))
  }

  /** Where a note may appear in a table: as a key or as a successor. */
  ghost predicate Occurs(t: Table, x: string) {
    x in t || exists k :: k in t && x in t[k]
  }

  /** A table as training leaves it: keys and successors are whitespace-free
      words and no successor list is empty. */
  ghost predicate WellFormed(t: Table) {
    && (forall k :: k in t ==> IsToken(k) && t[k] != [])
    && (forall k, x :: k in t && x in t[k] ==> IsToken(x))
  }

  /** One step of composition: an observed transition, or the dead-end
      recovery jump from a note with no entry to some key. */
  predicate Step(t: Table, a: string, b: string) {
    (a in t && b in t[a]) || (a !in t && b in t)
  }

  /** The number of transitions of the melodies: per melody its token count
      less one, and nothing for a melody without tokens. */
  function TransitionCount(melodies: seq<string>): nat {
    if melodies == [] then 0
    else
      var n := |Split(melodies[|melodies| - 1])|;
      TransitionCount(melodies[..|melodies| - 1]) + (if n > 0 then n - 1 else 0)
  }

  /** The sum of the lengths of the successor lists of the keys in `keys`. */
  ghost function SumLengths(t: Table, keys: set<string>): nat
    requires keys <= t.Keys
    decreases keys
  {
    if keys == {} then 0
    else
      var k :| k in keys;
      |t[k]| + SumLengths(t, keys - {k})
  }

  // ---------------------------------------------------------------------
  // Lemmas about the transitions and the learned table
  // ---------------------------------------------------------------------

  lemma SuccessorsOfAbsent(ts: seq<Transition>, k: string)
    requires k !in Firsts(ts)
    ensures Successors(ts, k) == []
  {
    if ts != [] {
      assert Firsts(ts[..|ts| - 1]) <= Firsts(ts) by {
        forall x | x in Firsts(ts[..|ts| - 1]) ensures x in Firsts(ts) {
          var i :| 0 <= i < |ts| - 1 && ts[..|ts| - 1][i].0 == x;
          assert ts[i].0 == x;
        }
      }
      SuccessorsOfAbsent(ts[..|ts| - 1], k);
    }
  }

  lemma SuccessorsSnoc(ts: seq<Transition>, t: Transition, k: string)
    ensures Successors(ts + [t], k) == Successors(ts, k) + (if t.0 == k then [t.1] else [])
  {
    var ts' := ts + [t];
    assert ts'[..|ts'| - 1] == ts;
    assert ts'[|ts'| - 1] == t;
  }

  lemma FirstsSnoc(ts: seq<Transition>, t: Transition)
    ensures Firsts(ts + [t]) == Firsts(ts) + {t.0}
  {
    var ts' := ts + [t];
    forall x | x in Firsts(ts') ensures x in Firsts(ts) + {t.0} {
      var i :| 0 <= i < |ts'| && ts'[i].0 == x;
      if i < |ts| { assert ts[i].0 == x; }
    }
    forall x | x in Firsts(ts) ensures x in Firsts(ts') {
      var i :| 0 <= i < |ts| && ts[i].0 == x;
      assert ts'[i].0 == x;
    }
    assert ts'[|ts|].0 == t.0;
  }

  /** The table with `x` appended to the list of `k`, the list created
      empty first when `k` is new. */
  function Append(t: Table, k: string, x: string): Table {
    t[k := (if k in t then t[k] else []) + [x]]
  }

  /** Creating the missing list, then appending to it, is `Append`. */
  lemma AppendInTwoSteps(t: Table, k: string, x: string)
    ensures var created := if k in t then t else t[k := []];
            created[k := created[k] + [x]] == Append(t, k, x)
  {
  }

  /** Learning one more transition is one `Append`. */
  lemma TableOfSnoc(ts: seq<Transition>, t: Transition)
    ensures TableOf(ts + [t]) == Append(TableOf(ts), t.0, t.1)
  {
    var before := TableOf(ts);
    var after := TableOf(ts + [t]);
    var expected := before[t.0 := (if t.0 in before then before[t.0] else []) + [t.1]];
    FirstsSnoc(ts, t);
    if t.0 !in Firsts(ts) {
      SuccessorsOfAbsent(ts, t.0);
    }
    assert after.Keys == expected.Keys;
    forall k | k in after ensures after[k] == expected[k] {
      SuccessorsSnoc(ts, t, k);
    }
  }

  lemma TrainStep(before: seq<Transition>, notes: seq<string>, i: nat)
    requires i + 1 < |notes|
    ensures TableOf(before + PairsOf(notes)[..i + 1])
         == Append(TableOf(before + PairsOf(notes)[..i]), notes[i], notes[i + 1])
  {
    assert PairsOf(notes)[..i + 1] == PairsOf(notes)[..i] + [(notes[i], notes[i + 1])];
    assert before + PairsOf(notes)[..i + 1] == (before + PairsOf(notes)[..i]) + [(notes[i], notes[i + 1])];
    TableOfSnoc(before + PairsOf(notes)[..i], (notes[i], notes[i + 1]));
  }

  lemma NoPairsYet(before: seq<Transition>, notes: seq<string>)
    ensures before + PairsOf(notes)[..0] == before
  {
    assert PairsOf(notes)[..0] == [];
  }

  lemma AllPairs(before: seq<Transition>, notes: seq<string>, i: int)
    requires i == if |notes| == 0 then 0 else |notes| - 1
    ensures before + PairsOf(notes)[..i] == before + PairsOf(notes)
  {
    assert PairsOf(notes)[..i] == PairsOf(notes);
  }

  lemma TransitionsSnoc(melodies: seq<string>, m: nat)
    requires m < |melodies|
    ensures Transitions(melodies[..m + 1]) == Transitions(melodies[..m]) + PairsOf(Split(melodies[m]))
  {
    assert melodies[..m + 1][..m] == melodies[..m];
  }

  /** Position `i` of melody `j` has a next token. */
  predicate HasNext(melodies: seq<string>, j: int, i: int) {
    0 <= j < |melodies| && 0 <= i && i + 1 < |Split(melodies[j])|
  }

  /** The pair of tokens at positions `i` and `i + 1` of melody `j`. */
  function PairAt(melodies: seq<string>, j: int, i: int): Transition
    requires HasNext(melodies, j, i)
  {
    (Split(melodies[j])[i], Split(melodies[j])[i + 1])
  }

  lemma PairsOfAt(notes: seq<string>, i: int)
    requires 0 <= i && i + 1 < |notes|
    ensures i < |PairsOf(notes)| && PairsOf(notes)[i] == (notes[i], notes[i + 1])
  {
  }

  /** A transition is learned exactly when it is a pair of adjacent tokens of
      one of the melodies. */
  lemma TransitionsMembers(melodies: seq<string>, t: Transition)
    ensures t in Transitions(melodies) <==>
      exists j, i :: HasNext(melodies, j, i) && PairAt(melodies, j, i) == t
  {
    if t in Transitions(melodies) {
      var j, i := TransitionsSound(melodies, t);
    }
    if exists j, i :: HasNext(melodies, j, i) && PairAt(melodies, j, i) == t {
      var j, i :| HasNext(melodies, j, i) && PairAt(melodies, j, i) == t;
      TransitionsComplete(melodies, j, i);
    }
  }

  lemma {:induction false} TransitionsSound(melodies: seq<string>, t: Transition) returns (j: int, i: int)
    requires t in Transitions(melodies)
    ensures HasNext(melodies, j, i) && PairAt(melodies, j, i) == t
  {
    var n := |melodies| - 1;
    var init := melodies[..n];
    var last := PairsOf(Split(melodies[n]));
    assert Transitions(melodies) == Transitions(init) + last;
    if t in last {
      j := n;
      i :| 0 <= i < |last| && last[i] == t;
    } else {
      j, i := TransitionsSound(init, t);
      assert init[j] == melodies[j];
    }
  }

  lemma {:induction false} TransitionsComplete(melodies: seq<string>, j: int, i: int)
    requires HasNext(melodies, j, i)
    ensures PairAt(melodies, j, i) in Transitions(melodies)
  {
    var n := |melodies| - 1;
    var init := melodies[..n];
    var last := PairsOf(Split(melodies[n]));
    assert Transitions(melodies) == Transitions(init) + last;
    if j == n {
      PairsOfAt(Split(melodies[n]), i);
      assert last[i] == PairAt(melodies, j, i);
    } else {
      assert init[j] == melodies[j];
      TransitionsComplete(init, j, i);
      assert PairAt(init, j, i) == PairAt(melodies, j, i);
    }
  }

  lemma {:induction false} SuccessorsMembers(ts: seq<Transition>, k: string, b: string)
    ensures b in Successors(ts, k) <==> (k, b) in ts
  {
    if ts != [] {
      var init := ts[..|ts| - 1];
      SuccessorsMembers(init, k, b);
      assert ts == init + [ts[|ts| - 1]];
    }
  }

  lemma {:induction false} SuccessorsOfPresent(ts: seq<Transition>, k: string)
    requires k in Firsts(ts)
    ensures Successors(ts, k) != []
  {
    var i :| 0 <= i < |ts| && ts[i].0 == k;
    SuccessorsMembers(ts, k, ts[i].1);
  }

  /** After training, the keys are exactly the tokens that stand at a
      non-final position of some melody. */
  lemma LearnedKeys(melodies: seq<string>, k: string)
    ensures k in Learned(melodies) <==>
      exists j, i :: HasNext(melodies, j, i) && Split(melodies[j])[i] == k
  {
    var ts := Transitions(melodies);
    if k in Learned(melodies) {
      var p :| 0 <= p < |ts| && ts[p].0 == k;
      TransitionsMembers(melodies, ts[p]);
      var j, i :| HasNext(melodies, j, i) && PairAt(melodies, j, i) == ts[p];
      assert Split(melodies[j])[i] == k;
    }
    if exists j, i :: HasNext(melodies, j, i) && Split(melodies[j])[i] == k {
      var j, i :| HasNext(melodies, j, i) && Split(melodies[j])[i] == k;
      var t := PairAt(melodies, j, i);
      TransitionsMembers(melodies, t);
      var p :| 0 <= p < |ts| && ts[p] == t;
      assert ts[p].0 == k;
    }
  }

  /** After training, `b` is among the successors of `k` exactly when `b`
      comes right after an occurrence of `k` in some melody; every key has at
      least one successor. */
  lemma LearnedSuccessors(melodies: seq<string>, k: string, b: string)
    requires k in Learned(melodies)
    ensures Learned(melodies)[k] != []
    ensures b in Learned(melodies)[k] <==>
      exists j, i :: HasNext(melodies, j, i) && PairAt(melodies, j, i) == (k, b)
  {
    var ts := Transitions(melodies);
    SuccessorsOfPresent(ts, k);
    SuccessorsMembers(ts, k, b);
    TransitionsMembers(melodies, (k, b));
  }

  lemma {:induction false} SuccessorsConcat(xs: seq<Transition>, ys: seq<Transition>, k: string)
    ensures Successors(xs + ys, k) == Successors(xs, k) + Successors(ys, k)
    decreases |ys|
  {
    if ys != [] {
      var n := |ys| - 1;
      assert xs + ys == (xs + ys[..n]) + [ys[n]];
      assert ys == ys[..n] + [ys[n]];
      SuccessorsSnoc(xs + ys[..n], ys[n], k);
      SuccessorsSnoc(ys[..n], ys[n], k);
      SuccessorsConcat(xs, ys[..n], k);
    } else {
      assert xs + ys == xs;
    }
  }

  lemma {:induction false} TransitionsConcat(ms: seq<string>, ns: seq<string>)
    ensures Transitions(ms + ns) == Transitions(ms) + Transitions(ns)
    decreases |ns|
  {
    if ns != [] {
      var n := |ns| - 1;
      assert (ms + ns)[..|ms + ns| - 1] == ms + ns[..n];
      TransitionsConcat(ms, ns[..n]);
    } else {
      assert ms + ns == ms;
    }
  }

  /** Successor lists keep the order of occurrence across the melodies:
      training on `ms + ns` lists the successors seen in `ms` first, then
      those seen in `ns`. */
  lemma LearnedInOrder(ms: seq<string>, ns: seq<string>, k: string)
    ensures Successors(Transitions(ms + ns), k)
         == Successors(Transitions(ms), k) + Successors(Transitions(ns), k)
  {
    TransitionsConcat(ms, ns);
    SuccessorsConcat(Transitions(ms), Transitions(ns), k);
  }

  /** The training table holds only words and has no empty successor list. */
  lemma LearnedWellFormed(melodies: seq<string>)
    ensures WellFormed(Learned(melodies))
  {
    var t := Learned(melodies);
    forall k | k in t ensures IsToken(k) && t[k] != [] {
      LearnedKeys(melodies, k);
      LearnedSuccessors(melodies, k, k);
      var j, i :| HasNext(melodies, j, i) && Split(melodies[j])[i] == k;
    }
    forall k, x | k in t && x in t[k] ensures IsToken(x) {
      LearnedSuccessors(melodies, k, x);
      var j, i :| HasNext(melodies, j, i) && PairAt(melodies, j, i) == (k, x);
    }
  }

  // Counting the successor entries

  /** The number of transitions in `ts` that start from a note in `keys`. */
  function CountFrom(ts: seq<Transition>, keys: set<string>): nat {
    if ts == [] then 0
    else CountFrom(ts[..|ts| - 1], keys) + (if ts[|ts| - 1].0 in keys then 1 else 0)
  }

  lemma {:induction false} SuccessorsLength(ts: seq<Transition>, k: string)
    ensures |Successors(ts, k)| == CountFrom(ts, {k})
  {
    if ts != [] { SuccessorsLength(ts[..|ts| - 1], k); }
  }

  lemma {:induction false} CountFromSplit(ts: seq<Transition>, keys: set<string>, k: string)
    requires k in keys
    ensures CountFrom(ts, keys) == CountFrom(ts, {k}) + CountFrom(ts, keys - {k})
  {
    if ts != [] { CountFromSplit(ts[..|ts| - 1], keys, k); }
  }

  lemma {:induction false} CountFromAll(ts: seq<Transition>, keys: set<string>)
    requires Firsts(ts) <= keys
    ensures CountFrom(ts, keys) == |ts|
  {
    if ts != [] {
      var init := ts[..|ts| - 1];
      assert Firsts(init) <= Firsts(ts) by {
        forall x | x in Firsts(init) ensures x in Firsts(ts) {
          var i :| 0 <= i < |init| && init[i].0 == x;
          assert ts[i].0 == x;
        }
      }
      assert ts[|ts| - 1].0 in Firsts(ts);
      CountFromAll(init, keys);
    }
  }

  lemma {:induction false} SumLengthsCounts(ts: seq<Transition>, keys: set<string>)
    requires keys <= Firsts(ts)
    ensures SumLengths(TableOf(ts), keys) == CountFrom(ts, keys)
    decreases keys
  {
    if keys == {} {
      assert CountFrom(ts, {}) == 0 by { CountFromNone(ts); }
    } else {
      var k :| k in keys && SumLengths(TableOf(ts), keys)
                            == |TableOf(ts)[k]| + SumLengths(TableOf(ts), keys - {k});
      SumLengthsCounts(ts, keys - {k});
      SuccessorsLength(ts, k);
      CountFromSplit(ts, keys, k);
    }
  }

  lemma {:induction false} CountFromNone(ts: seq<Transition>)
    ensures CountFrom(ts, {}) == 0
  {
    if ts != [] { CountFromNone(ts[..|ts| - 1]); }
  }

  lemma {:induction false} TransitionsLength(melodies: seq<string>)
    ensures |Transitions(melodies)| == TransitionCount(melodies)
  {
    if melodies != [] { TransitionsLength(melodies[..|melodies| - 1]); }
  }

  /** The successor lists together hold exactly one entry per transition:
      the sum over melodies of their token count less one. */
  lemma LearnedTotal(melodies: seq<string>)
    ensures SumLengths(Learned(melodies), Learned(melodies).Keys) == TransitionCount(melodies)
  {
    var ts := Transitions(melodies);
    assert TableOf(ts).Keys == Firsts(ts);
    SumLengthsCounts(ts, Firsts(ts));
    CountFromAll(ts, Firsts(ts));
    TransitionsLength(melodies);
  }

  /** Every note that occurs in a learned table occurs in the melodies. */
  lemma LearnedOccurs(melodies: seq<string>, x: string)
    requires Occurs(Learned(melodies), x)
    ensures exists j, i :: 0 <= j < |melodies| && 0 <= i < |Split(melodies[j])|
                           && Split(melodies[j])[i] == x
  {
    var t := Learned(melodies);
    if x in t {
      LearnedKeys(melodies, x);
      var j, i :| HasNext(melodies, j, i) && Split(melodies[j])[i] == x;
    } else {
      var k :| k in t && x in t[k];
      LearnedSuccessors(melodies, k, x);
      var j, i :| HasNext(melodies, j, i) && PairAt(melodies, j, i) == (k, x);
      assert Split(melodies[j])[i + 1] == x;
    }
  }

  // ---------------------------------------------------------------------
  // The composer object
  // ---------------------------------------------------------------------

  class MarkovComposer {
    var chain: Table

    ghost predicate Valid()
      reads this
    {
      WellFormed(chain)
    }

    constructor ()
      ensures Valid() && chain == map[]
    {
      chain := map[];
    }

    /** The four built-in training melodies (Twinkle Twinkle, Mary Had a
        Little Lamb, a C major scale up and down, a Jingle Bells fragment). */
    function LoadData(): (melodies: seq<string>)
      ensures |melodies| == 4
    {
      [ "C4 C4 G4 G4 A4 A4 G4 F4 F4 E4 E4 D4 D4 C4",
        "E4 D4 C4 D4 E4 E4 E4 D4 D4 D4 E4 G4 G4",
        "C4 D4 E4 F4 G4 A4 B4 C5 B4 A4 G4 F4 E4 D4 C4",
        "G4 E4 E4 F4 D4 D4 C4 D4 E4 F4 G4 G4 G4" ]
    }

    /** Discards the old table and learns a new one from `melodies`. */
    method Train(melodies: seq<string>)
      modifies this
      ensures Valid()
      ensures chain == Learned(melodies)
    {
      chain := map[];
      var m := 0;
      while m < |melodies|
        invariant 0 <= m <= |melodies|
        invariant chain == TableOf(Transitions(melodies[..m]))
      {
        var notes := Split(melodies[m]);
        LearnPairs(notes, Transitions(melodies[..m]));
        TransitionsSnoc(melodies, m);
        m := m + 1;
      }
      assert melodies[..m] == melodies;
      LearnedWellFormed(melodies);
    }

    /** The inner loop of `train`: appends each token's successor in one
        melody to the token's list, creating the list on first sight. */
    method LearnPairs(notes: seq<string>, ghost before: seq<Transition>)
      requires chain == TableOf(before)
      modifies this
      ensures chain == TableOf(before + PairsOf(notes))
    {
      var i := 0;
      NoPairsYet(before, notes);
      while i < |notes| - 1
        invariant 0 <= i <= if |notes| == 0 then 0 else |notes| - 1
        invariant chain == TableOf(before + PairsOf(notes)[..i])
      {
        var current := notes[i];
        var next := notes[i + 1];
        ghost var previous := chain;
        if current !in chain {
          chain := chain[current := []];
        }
        AppendInTwoSteps(previous, current, next);
        chain := chain[current := chain[current] + [next]];
        TrainStep(before, notes, i);
        i := i + 1;
      }
      AllPairs(before, notes, i);
    }

    /** Walks the table for `length` notes (at least one). Starts at
        `startNote` when it is a key, otherwise at some key; from a note with
        successors moves to one of them, from a dead end jumps to some key.
        Returns the notes joined by single spaces, or "" when untrained. The
        random choices are arbitrary picks. */
    method Compose(startNote: Option<string>, length: int) returns (s: string, ghost melody: seq<string>)
      requires Valid()
      ensures chain == map[] ==> s == "" && melody == []
      ensures chain != map[] ==>
        && |melody| == (if length > 1 then length else 1)
        && melody[0] in chain
        && (startNote.Some? && startNote.value in chain ==> melody[0] == startNote.value)
        && (forall i :: 0 <= i < |melody| - 1 ==> Step(chain, melody[i], melody[i + 1]))
        && (forall i :: 0 <= i < |melody| ==> Occurs(chain, melody[i]))
      ensures s == Join(melody) && Split(s) == melody
    {
      if chain == map[] {
        return "", [];
      }
      var start: string;
      if startNote.Some? && startNote.value in chain {
        start := startNote.value;
      } else {
        assert chain.Keys != {};
        start :| start in chain;
      }
      var notes := [start];
      var current := start;
      var i := 0;
      while i < length - 1
        invariant 0 <= i && (i <= length - 1 || i == 0)
        invariant |notes| == i + 1 && notes[0] == start
        invariant current == notes[|notes| - 1]
        invariant forall j :: 0 <= j < |notes| - 1 ==> Step(chain, notes[j], notes[j + 1])
        invariant forall j :: 0 <= j < |notes| ==> Occurs(chain, notes[j])
      {
        if current in chain {
          var pick :| 0 <= pick < |chain[current]|;
          var next := chain[current][pick];
          notes := notes + [next];
          current := next;
        } else {
          var jump :| jump in chain;
          notes := notes + [jump];
          current := jump;
        }
        i := i + 1;
      }
      melody := notes;
      assert forall j :: 0 <= j < |notes| ==> IsToken(notes[j]);
      SplitJoin(notes);
      s := Join(notes);
    }
  }
}
