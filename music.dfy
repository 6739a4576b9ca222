/** Notes, Chords and Phrases as one closed union, with the three
    combinators of pymusic.py: `+` (Then), `*` (Together) and `**` (Transpose). */
module Musics {
  import opened Outcomes
  import opened Notes
  import opened NoteSort
  import opened PitchCodec

  /** A musical value: a Note, a Chord or a Phrase. The Note kind is called
      `Single` because `Note` already names the note record of `Notes`.
      A Chord holds Notes only; a Phrase holds events. */
  datatype Music =
    | Single(note: Note)
    | Chord(notes: seq<Note>)
    | Phrase(events: seq<Music>)

  /** No event is itself a Phrase. */
  predicate Flat(es: seq<Music>) {
    forall i | 0 <= i < |es| :: !es[i].Phrase?
  }

  /** Every note anywhere in `m` has a valid spelling. */
  predicate NotesValid(m: Music) {
    match m
    case Single(n) => ValidNote(n)
    case Chord(ns) => forall i | 0 <= i < |ns| :: ValidNote(ns[i])
    case Phrase(es) => forall i | 0 <= i < |es| :: NotesValid(es[i])
  }

  /** The invariants of values the source builds: valid notes, chords kept
      sorted, phrases flat. */
  predicate WellFormed(m: Music) {
    match m
    case Single(n) => ValidNote(n)
    case Chord(ns) => (forall i | 0 <= i < |ns| :: ValidNote(ns[i])) && Sorted(ns)
    case Phrase(es) => forall i | 0 <= i < |es| :: !es[i].Phrase? && WellFormed(es[i])
  }

  lemma {:induction false} WellFormedNotesValid(m: Music)
    requires WellFormed(m)
    ensures NotesValid(m)
  {
    if m.Phrase? {
      forall i | 0 <= i < |m.events| ensures NotesValid(m.events[i]) {
        WellFormedNotesValid(m.events[i]);
      }
    }
  }

  // ----- Note.__cmp__ -----------------------------------------------------

  /** `Note.__cmp__` (pymusic.py:36-52): a Note comes before every Chord and
      every Phrase; against another Note it is the attribute-wise order. */
  function Order(self: Note, other: Music): (c: int)
    ensures -1 <= c <= 1
    ensures !other.Single? ==> c == -1
    ensures other.Single? ==> (c == 0 <==> other.note == self)
  {
    match other
    case Single(o) => NoteCmpZero(self, o); NoteCmp(self, o)
    case _ => -1
  }

  /** `Note.__cmp__` as the source runs it: the cross-kind rule first, then
      the attributes in turn, returning at the first that differs. */
  method Compare(self: Note, other: Music) returns (c: int)
    ensures c == Order(self, other)
    ensures -1 <= c <= 1
    ensures c == 0 <==> other == Single(self)
    ensures !other.Single? ==> c == -1
  {
    if other.Chord? || other.Phrase? {
      return -1;
    }
    var o := other.note;
    NoteCmpZero(self, o);
    var i := 0;
    while i < 4
      invariant 0 <= i <= 4
      invariant forall j | 0 <= j < i :: AttrCmp(self, o, j) == 0
    {
      c := AttrCmp(self, o, i);
      if c != 0 {
        NoteCmpFirstDifference(self, o, i);
        return;
      }
      i := i + 1;
    }
    NoteCmpFirstDifference(self, o, 4);
    c := 0;
  }

  // ----- Phrase.__init__ --------------------------------------------------

  /** What one constructor argument adds: a Phrase its events, anything else itself. */
  function Contribution(m: Music): (r: seq<Music>)
    ensures !m.Phrase? ==> r == [m]
    ensures (m.Phrase? ==> Flat(m.events)) ==> Flat(r)
  {
    if m.Phrase? then m.events else [m]
  }

  /** The event list `Phrase(*musics)` builds (pymusic.py:143-149). */
  function Flatten(ms: seq<Music>): (r: seq<Music>)
    ensures (forall i | 0 <= i < |ms| :: ms[i].Phrase? ==> Flat(ms[i].events)) ==> Flat(r)
    ensures Flat(ms) ==> r == ms
  {
    if |ms| == 0 then []
    else
      assert ms == [ms[0]] + ms[1..];
      Contribution(ms[0]) + Flatten(ms[1..])
  }

  /** Flattening distributes over concatenation of the arguments. */
  lemma {:induction false} FlattenAppend(a: seq<Music>, b: seq<Music>)
    ensures Flatten(a + b) == Flatten(a) + Flatten(b)
  {
    if |a| == 0 {
      assert a + b == b;
    } else {
      assert (a + b)[1..] == a[1..] + b;
      FlattenAppend(a[1..], b);
    }
  }

  /** A Phrase built from well-formed values is well-formed. */
  lemma {:induction false} FlattenWellFormed(ms: seq<Music>)
    requires forall i | 0 <= i < |ms| :: WellFormed(ms[i])
    ensures WellFormed(Phrase(Flatten(ms)))
  {
    if |ms| > 0 {
      FlattenWellFormed(ms[1..]);
      var r := Flatten(ms);
      var c := Contribution(ms[0]);
      forall i | 0 <= i < |r| ensures !r[i].Phrase? && WellFormed(r[i]) {
        if i >= |c| {
          assert r[i] == Flatten(ms[1..])[i - |c|];
        }
      }
    }
  }

  /** Every note of a Phrase built from values with valid notes is valid. */
  lemma {:induction false} FlattenNotesValid(ms: seq<Music>)
    requires forall i | 0 <= i < |ms| :: NotesValid(ms[i])
    ensures NotesValid(Phrase(Flatten(ms)))
  {
    if |ms| > 0 {
      FlattenNotesValid(ms[1..]);
      var r := Flatten(ms);
      var c := Contribution(ms[0]);
      forall i | 0 <= i < |r| ensures NotesValid(r[i]) {
        if i >= |c| {
          assert r[i] == Flatten(ms[1..])[i - |c|];
        }
      }
    }
  }

  /** Proof step only: unfolds `Flatten` on a single argument. */
  lemma FlattenOne(m: Music)
    ensures Flatten([m]) == Contribution(m)
  {
    assert [m][1..] == [];
  }

  /** `Phrase.__init__` as the source runs it: start empty, then extend by
      each argument's events or append the argument. */
  method NewPhrase(musics: seq<Music>) returns (p: Music)
    ensures p == Phrase(Flatten(musics))
    ensures (forall i | 0 <= i < |musics| :: musics[i].Phrase? ==> Flat(musics[i].events))
            ==> Flat(p.events)
  {
    var events: seq<Music> := [];
    for i := 0 to |musics|
      invariant events == Flatten(musics[..i])
    {
      assert musics[..i + 1] == musics[..i] + [musics[i]];
      FlattenAppend(musics[..i], [musics[i]]);
      FlattenOne(musics[i]);
      if musics[i].Phrase? {
        events := events + musics[i].events;
      } else {
        events := events + [musics[i]];
      }
    }
    assert musics[..|musics|] == musics;
    p := Phrase(events);
  }

  // ----- + : Note.__add__, Chord.__add__, Phrase.__add__ -------------------

  /** `self + other` for every kind: `Phrase(self, other)`. */
  function Then(a: Music, b: Music): (r: Music)
    ensures r.Phrase? && r.events == Contribution(a) + Contribution(b)
  {
    assert [a, b][1..] == [b] && [b][1..] == [];
    assert Flatten([b]) == Contribution(b) + Flatten([]);
    Phrase(Flatten([a, b]))
  }

  /** Sequential combination is associative. */
  lemma ThenAssociative(a: Music, b: Music, c: Music)
    ensures Then(Then(a, b), c) == Then(a, Then(b, c))
  {
    var ab := Contribution(a) + Contribution(b);
    var bc := Contribution(b) + Contribution(c);
    assert Contribution(Then(a, b)) == ab;
    assert Contribution(Then(b, c)) == bc;
    assert ab + Contribution(c) == Contribution(a) + bc;
    assert Then(Then(a, b), c).events == Then(a, Then(b, c)).events;
  }

  /** Sequencing well-formed values gives a well-formed Phrase. */
  lemma ThenWellFormed(a: Music, b: Music)
    requires WellFormed(a) && WellFormed(b)
    ensures WellFormed(Then(a, b))
  {
    FlattenWellFormed([a, b]);
  }

  // ----- Chord.__init__ ---------------------------------------------------

  /** A Chord of the given notes, sorted by the note order. */
  function ChordOf(ns: seq<Note>): (r: Music)
    ensures r.Chord? && Sorted(r.notes) && multiset(r.notes) == multiset(ns)
  {
    Chord(SortNotes(ns))
  }

  /** The notes of arguments that are all Notes. */
  function NotesOf(musics: seq<Music>): (r: seq<Note>)
    requires forall i | 0 <= i < |musics| :: musics[i].Single?
    ensures |r| == |musics| && forall i | 0 <= i < |musics| :: musics[i] == Single(r[i])
  {
    seq(|musics|, i requires 0 <= i < |musics| => musics[i].note)
  }

  lemma {:induction false} NotesOfCount(musics: seq<Music>, n: Note)
    requires forall i | 0 <= i < |musics| :: musics[i].Single?
    ensures multiset(NotesOf(musics))[n] == multiset(musics)[Single(n)]
  {
    if |musics| > 0 {
      var head, rest := musics[0], musics[1..];
      NotesOfCount(rest, n);
      NotesOfCons(musics);
      assert musics == [head] + rest;
      assert multiset(musics) == multiset{head} + multiset(rest);
    }
  }

  lemma NotesOfCons(musics: seq<Music>)
    requires |musics| > 0 && forall i | 0 <= i < |musics| :: musics[i].Single?
    ensures multiset(NotesOf(musics)) == multiset{musics[0].note} + multiset(NotesOf(musics[1..]))
  {
    assert NotesOf(musics) == [musics[0].note] + NotesOf(musics[1..]);
  }

  /** `Chord(*musics)` (pymusic.py:96-104). A Chord argument sends the source
      to `sum(musics)`, which raises; any other non-Note argument raises
      TypeError. With no argument at all the source builds an empty Chord. */
  function NewChord(musics: seq<Music>): (r: Result<Music>)
    ensures r.Ok? <==> forall i | 0 <= i < |musics| :: musics[i].Single?
    ensures r.Err? ==> r.error == InvalidChordMembers
    ensures r.Ok? ==> r.value.Chord? && Sorted(r.value.notes) && |r.value.notes| == |musics|
    ensures r.Ok? ==> forall n :: multiset(r.value.notes)[n] == multiset(musics)[Single(n)]
  {
    if exists i | 0 <= i < |musics| :: musics[i].Chord? then Err(InvalidChordMembers)
    else if forall i | 0 <= i < |musics| :: musics[i].Single? then
      var c := ChordOf(NotesOf(musics));
      assert forall n :: multiset(c.notes)[n] == multiset(musics)[Single(n)] by {
        forall n ensures multiset(c.notes)[n] == multiset(musics)[Single(n)] {
          NotesOfCount(musics, n);
        }
      }
      Ok(c)
    else Err(InvalidChordMembers)
  }

  // ----- * : Note.__mul__, Chord.__mul__, Phrase.__mul__ -------------------

  /** The notes a Note or a Chord sounds, as a sequence. */
  function NoteList(m: Music): (r: seq<Note>)
    ensures WellFormed(m) ==> forall i | 0 <= i < |r| :: ValidNote(r[i])
  {
    match m
    case Single(n) => [n]
    case Chord(ns) => ns
    case Phrase(_) => []
  }

  /** The notes a Note or a Chord sounds, counted with multiplicity. */
  function NoteBag(m: Music): (b: multiset<Note>) {
    multiset(NoteList(m))
  }

  /** `self * other` for two Notes or Chords: the Chord of all their notes.
      Note * Note and Chord * Chord are lines 72-73 and 125; Chord * Note is
      the documented intent, "chord with note added" (the source line
      pymusic.py:123 is defective, see ChordObject). */
  function ChordProduct(a: Music, b: Music): (r: Music)
    requires !a.Phrase? && !b.Phrase?
    ensures r.Chord? && Sorted(r.notes)
    ensures multiset(r.notes) == NoteBag(a) + NoteBag(b)
  {
    match (a, b)
    case (Single(x), Single(y)) =>
      assert multiset([x, y]) == multiset{x} + multiset{y};
      ChordOf([x, y])
    case (Single(x), Chord(ns)) => ChordOf(ns + [x])
    case (Chord(ns), Single(y)) => ChordOf(ns + [y])
    case (Chord(ns), Chord(ms)) => ChordOf(ns + ms)
  }

  /** `self * other`. Two Notes or Chords give the Chord of all their notes;
      Phrase * (Note or Chord) combines every event with the operand; a Note
      or a Chord times a Phrase delegates to the Phrase; Phrase * Phrase is
      unimplemented. */
  function Together(a: Music, b: Music): (r: Result<Music>)
    ensures r.Err? <==> a.Phrase? && b.Phrase?
    ensures r.Err? ==> r.error == NotImplemented
    ensures !a.Phrase? && !b.Phrase? ==>
      r.value.Chord? && Sorted(r.value.notes) && multiset(r.value.notes) == NoteBag(a) + NoteBag(b)
    ensures a.Phrase? != b.Phrase? ==> r.value.Phrase? && Flat(r.value.events)
    decreases if a.Phrase? then a else if b.Phrase? then b else a, if a.Phrase? then 0 else 1
  {
    match a
    case Phrase(es) =>
      if b.Phrase? then Err(NotImplemented)
      else
        Ok(Phrase(Flatten(Layered(es, b))))
    case _ =>
      if b.Phrase? then Together(b, a) else Ok(ChordProduct(a, b))
  }

  /** Each event of `es` times `x`, in order: the generator
      `m*other for m in self.musics` of `Phrase.__mul__`: one product per
      event (each exists, see LayeredAt), and a Phrase among them is flat. */
  function Layered(es: seq<Music>, x: Music): (r: seq<Music>)
    requires !x.Phrase?
    ensures |r| == |es|
    ensures forall i | 0 <= i < |r| :: r[i].Phrase? ==> Flat(r[i].events)
    decreases es, 0
  {
    if |es| == 0 then []
    else
      var first, rest := Together(es[0], x).value, Layered(es[1..], x);
      assert first.Phrase? ==> Flat(first.events);
      [first] + rest
  }

  /** The i-th per-event product is the i-th event times `x`. */
  lemma {:induction false} LayeredAt(es: seq<Music>, x: Music, i: int)
    requires !x.Phrase? && 0 <= i < |es|
    ensures Together(es[i], x) == Ok(Layered(es, x)[i])
    decreases i
  {
    if i > 0 {
      LayeredAt(es[1..], x, i - 1);
      assert es[1..][i - 1] == es[i];
    }
  }

  /** Proof step only: unfolds the Phrase branch of `Together`. */
  lemma PhraseTimes(es: seq<Music>, x: Music)
    requires !x.Phrase?
    ensures Together(Phrase(es), x) == Ok(Phrase(Flatten(Layered(es, x))))
  {
  }

  lemma {:induction false} LayeredAppend(a: seq<Music>, b: seq<Music>, x: Music)
    requires !x.Phrase?
    ensures Layered(a + b, x) == Layered(a, x) + Layered(b, x)
  {
    if |a| == 0 {
      assert a + b == b;
    } else {
      assert (a + b)[1..] == a[1..] + b;
      LayeredAppend(a[1..], b, x);
    }
  }

  /** Simultaneous combination is commutative. */
  lemma TogetherCommutative(a: Music, b: Music)
    ensures Together(a, b) == Together(b, a)
  {
    if !a.Phrase? && !b.Phrase? {
      ChordProductCommutative(a, b);
    }
  }

  /** The Chord of two Notes or Chords does not depend on their order: both
      orders give a sorted arrangement of the same notes, and there is only one. */
  lemma ChordProductCommutative(a: Music, b: Music)
    requires !a.Phrase? && !b.Phrase?
    ensures ChordProduct(a, b) == ChordProduct(b, a)
  {
    SortedUnique(ChordProduct(a, b).notes, ChordProduct(b, a).notes);
  }

  /** Phrase * X for a flat Phrase and X a Note or a Chord keeps the length,
      and its i-th event is the i-th event times X. */
  lemma PhraseTimesEvents(es: seq<Music>, x: Music)
    requires Flat(es) && !x.Phrase?
    ensures Together(Phrase(es), x).Ok?
    ensures var r := Together(Phrase(es), x).value;
      r.Phrase? && |r.events| == |es|
      && forall i | 0 <= i < |es| :: Together(es[i], x) == Ok(r.events[i])
  {
    var l := Layered(es, x);
    forall i | 0 <= i < |es| ensures Together(es[i], x) == Ok(l[i]) && !l[i].Phrase? {
      LayeredAt(es, x, i);
    }
    assert Flat(l);
  }

  /** What `m * x` contributes to a Phrase is the flattened per-event results. */
  lemma LayeredContribution(m: Music, x: Music)
    requires !x.Phrase?
    ensures Contribution(Together(m, x).value) == Flatten(Layered(Contribution(m), x))
  {
    if m.Phrase? {
      PhraseTimes(m.events, x);
    } else {
      var c := Together(m, x).value;
      assert [m][1..] == [];
      assert Layered([m], x) == [c];
      FlattenOne(c);
    }
  }

  /** Simultaneous combination distributes over sequential combination:
      (A + B) * X == (A * X) + (B * X) for X a Note or a Chord. */
  lemma DistributesOverThen(a: Music, b: Music, x: Music)
    requires !x.Phrase?
    ensures Together(Then(a, b), x) == Ok(Then(Together(a, x).value, Together(b, x).value))
  {
    var ea, eb := Contribution(a), Contribution(b);
    PhraseTimes(ea + eb, x);
    LayeredAppend(ea, eb, x);
    FlattenAppend(Layered(ea, x), Layered(eb, x));
    LayeredContribution(a, x);
    LayeredContribution(b, x);
  }

  /** A rearrangement of valid notes holds only valid notes. */
  lemma ValidByMultiset(r: seq<Note>, src: seq<Note>)
    requires multiset(r) == multiset(src) && forall i | 0 <= i < |src| :: ValidNote(src[i])
    ensures forall i | 0 <= i < |r| :: ValidNote(r[i])
  {
    forall i | 0 <= i < |r| ensures ValidNote(r[i]) {
      assert r[i] in multiset(src);
      var j :| 0 <= j < |src| && src[j] == r[i];
    }
  }


  /** A Note or Chord times a Note or Chord, all well-formed, is well-formed. */
  lemma ChordProductWellFormed(a: Music, b: Music)
    requires WellFormed(a) && WellFormed(b) && !a.Phrase? && !b.Phrase?
    ensures WellFormed(Together(a, b).value)
  {
    var r := Together(a, b).value;
    var la, lb := NoteList(a), NoteList(b);
    assert multiset(la + lb) == multiset(r.notes);
    ConcatValid(la, lb);
    ValidByMultiset(r.notes, la + lb);
  }

  lemma ConcatValid(s: seq<Note>, t: seq<Note>)
    requires forall i | 0 <= i < |s| :: ValidNote(s[i])
    requires forall i | 0 <= i < |t| :: ValidNote(t[i])
    ensures forall i | 0 <= i < |s + t| :: ValidNote((s + t)[i])
  {
    forall i | 0 <= i < |s + t| ensures ValidNote((s + t)[i]) {
      if i >= |s| {
        assert (s + t)[i] == t[i - |s|];
      }
    }
  }

  /** Combining well-formed values gives a well-formed value. */
  lemma TogetherWellFormed(a: Music, b: Music)
    requires WellFormed(a) && WellFormed(b) && Together(a, b).Ok?
    ensures WellFormed(Together(a, b).value)
  {
    if !a.Phrase? && !b.Phrase? {
      ChordProductWellFormed(a, b);
    } else {
      var p, x := if a.Phrase? then a else b, if a.Phrase? then b else a;
      TogetherCommutative(a, b);
      assert Together(a, b) == Together(p, x);
      PhraseTimesEvents(p.events, x);
      var r := Together(p, x).value;
      forall i | 0 <= i < |r.events| ensures WellFormed(r.events[i]) {
        ChordProductWellFormed(p.events[i], x);
      }
    }
  }

  // ----- ** : Note.__pow__, Chord.__pow__, Phrase.__pow__ ------------------

  /** Every note transposed by `k`, in order. */
  function TransposeAll(ns: seq<Note>, k: int): (r: seq<Note>)
    requires forall i | 0 <= i < |ns| :: ValidNote(ns[i])
    ensures |r| == |ns| && forall i | 0 <= i < |ns| :: r[i] == TransposeNote(ns[i], k)
  {
    seq(|ns|, i requires 0 <= i < |ns| => TransposeNote(ns[i], k))
  }

  /** `self ** k`: a Note is transposed; a Chord is rebuilt, and so re-sorted,
      from its transposed notes; a Phrase is rebuilt from its transposed events. */
  function Transpose(m: Music, k: int): (r: Music)
    requires NotesValid(m)
    ensures NotesValid(r)
    ensures r.Single? == m.Single? && r.Chord? == m.Chord? && r.Phrase? == m.Phrase?
    ensures m.Single? ==> Value(r.note) == Value(m.note) + k && r.note == TransposeNote(m.note, k)
    ensures m.Chord? ==>
      |r.notes| == |m.notes| && Sorted(r.notes)
      && multiset(r.notes) == multiset(TransposeAll(m.notes, k))
    ensures m.Phrase? ==> Flat(r.events)
  {
    match m
    case Single(n) => Single(TransposeNote(n, k))
    case Chord(ns) =>
      var r := ChordOf(TransposeAll(ns, k));
      ValidByMultiset(r.notes, TransposeAll(ns, k));
      r
    case Phrase(es) =>
      var moved := seq(|es|, i requires 0 <= i < |es| => Transpose(es[i], k));
      FlattenNotesValid(moved);
      Phrase(Flatten(moved))
  }

  /** Transposing a flat Phrase keeps its length and transposes each event. */
  lemma PhraseTransposeEvents(es: seq<Music>, k: int)
    requires Flat(es) && NotesValid(Phrase(es))
    ensures var r := Transpose(Phrase(es), k);
      |r.events| == |es| && forall i | 0 <= i < |es| :: r.events[i] == Transpose(es[i], k)
  {
    var moved := seq(|es|, i requires 0 <= i < |es| => Transpose(es[i], k));
    assert Flat(moved);
  }

  /** Transposition keeps a value well-formed. */
  lemma {:induction false} TransposeWellFormed(m: Music, k: int)
    requires WellFormed(m)
    ensures NotesValid(m) && WellFormed(Transpose(m, k))
  {
    WellFormedNotesValid(m);
    if m.Phrase? {
      PhraseTransposeEvents(m.events, k);
      var r := Transpose(m, k);
      forall i | 0 <= i < |r.events| ensures WellFormed(r.events[i]) {
        TransposeWellFormed(m.events[i], k);
      }
    }
  }

  // ----- Chord.__mul__ with a Note, as written ------------------------------

  /** A Chord object as the source holds it, with its mutable `notes` list.
      Only used to state what pymusic.py:123 does as written. */
  class ChordObject {
    var notes: seq<Note>

    /** `Chord(*notes)` on Note arguments: the list is stored sorted. */
    constructor (notes: seq<Note>)
      ensures Sorted(this.notes) && multiset(this.notes) == multiset(notes)
    {
      this.notes := SortNotes(notes);
    }

    /** `Chord.__mul__(note)` as written: `self.notes.append(other)` extends
        the receiver's own list and returns None, and `Chord(*None)` then
        raises TypeError. The receiver is left changed and possibly unsorted. */
    method TimesNoteAsWritten(n: Note) returns (r: Result<Music>)
      modifies this
      ensures notes == old(notes) + [n]
      ensures r == Err(TypeError)
    {
      notes := notes + [n];
      r := Err(TypeError);
    }
  }

  /** The intended Chord * Note: the receiver's notes with the note added,
      sorted, the same as Note * Chord; the operands are values and stay as they were. */
  lemma ChordTimesNoteAddsNote(ns: seq<Note>, n: Note)
    ensures Together(Chord(ns), Single(n)) == Together(Single(n), Chord(ns))
    ensures var r := Together(Chord(ns), Single(n));
      r.Ok? && r.value.Chord? && Sorted(r.value.notes)
      && |r.value.notes| == |ns| + 1 && multiset(r.value.notes) == multiset(ns) + multiset{n}
  {
    var r := Together(Chord(ns), Single(n));
    assert |r.value.notes| == |multiset(r.value.notes)|;
  }

  /** Literal cases: the constructor's defaults, a note equals itself, octave decides first, and a
      nested Phrase argument is flattened into its events. */
  lemma MusicExamples()
    ensures MakeNote("C", 4, 1, 1) == Ok(Note("C", 4, 1, 1))
    ensures MakeNote("c#", 4, 1, 1) == Ok(Note("C#", 4, 1, 1))
    ensures MakeNote("Eb") == Ok(Note("Eb", 0, 1, 1))
    ensures Order(Note("C", 4, 1, 1), Single(Note("C", 4, 1, 1))) == 0
    ensures Order(Note("C", 3, 1, 1), Single(Note("C", 4, 1, 1))) == -1
    ensures Order(Note("C", 4, 1, 1), Chord([])) == -1
    ensures var c, d, e := Single(Note("C", 0, 1, 1)), Single(Note("D", 0, 1, 1)), Single(Note("E", 0, 1, 1));
      Flatten([c, Phrase([d, e])]) == [c, d, e]
  {
    var c, d, e := Single(Note("C", 0, 1, 1)), Single(Note("D", 0, 1, 1)), Single(Note("E", 0, 1, 1));
    assert [c, Phrase([d, e])][1..] == [Phrase([d, e])];
    assert Flatten([Phrase([d, e])]) == [d, e] + Flatten([]);
    assert "C"[1..] == "" && [Upper('C')] + "" == "C";
    assert ValidSpelling("C");
    assert "c#"[1..] == "#" && [Upper('c')] + "#" == "C#";
    assert ValidSpelling("C#");
    assert "Eb"[1..] == "b" && [Upper('E')] + "b" == "Eb";
    assert ValidSpelling("Eb");
  }
}
