/** The `Note` class of pymusic.py: a spelled pitch in an octave with a
    duration and a volume, its ordering and its transposition. */
module Notes {
  import opened Outcomes
  import opened Ordering
  import opened PitchCodec

  /** A note as the source stores it. Duration and volume are integers here.
      The source also stores `value`; the model derives it (see Value). */
  datatype Note = Note(name: string, octave: int, duration: int, volume: int)

  /** Every Note the source can build has a spelling `_name_to_value` accepts. */
  predicate ValidNote(n: Note) {
    ValidSpelling(n.name)
  }

  /** The pitch class of a note's spelling. */
  function PitchClass(n: Note): (p: int)
    requires ValidNote(n)
    ensures 0 <= p < 12
  {
    NameToValue(n.name).value
  }

  /** The attribute `value`: semitones above A of octave 0. */
  function Value(n: Note): (v: int)
    requires ValidNote(n)
    ensures v / 12 == n.octave && v % 12 == PitchClass(n)
  {
    PitchClass(n) + 12 * n.octave
  }

  /** `str.upper` on one character; only ASCII letters matter here, since no
      other character upper-cases to a natural letter. */
  function Upper(c: char): (u: char)
    ensures u in LetterValue ==> c == u || c as int == u as int + 32
  {
    if 'a' <= c <= 'z' then (c as int - 32) as char else c
  }

  /** `Note.__init__`: upper-cases the first character, keeps the rest, and
      fails (IndexError, KeyError) unless the result is a valid spelling. */
  function MakeNote(name: string, octave: int := 0, duration: int := 1, volume: int := 1): (r: Result<Note>)
    ensures r.Ok? <==>
      |name| > 0 && Upper(name[0]) in LetterValue
      && forall i | 1 <= i < |name| :: name[i] in AccidentalShift
    ensures r.Err? ==> r.error == InvalidPitchName
    ensures r.Ok? ==> ValidNote(r.value)
    ensures r.Ok? ==> |r.value.name| == |name| && r.value.name[0] == Upper(name[0])
                      && r.value.name[1..] == name[1..]
    ensures r.Ok? ==> r.value.octave == octave && r.value.duration == duration
                      && r.value.volume == volume
    ensures r.Ok? ==> Value(r.value) / 12 == octave && Value(r.value) % 12 == PitchClass(r.value)
  {
    if |name| == 0 then Err(InvalidPitchName)
    else
      var spelled := [Upper(name[0])] + name[1..];
      assert spelled[1..] == name[1..];
      if NameToValue(spelled).Err? then Err(InvalidPitchName)
      else Ok(Note(spelled, octave, duration, volume))
  }

  /** The i-th comparison of `Note.__cmp__`'s attribute list
      ['octave', 'name', 'duration', 'volume']. */
  function AttrCmp(a: Note, b: Note, i: nat): (c: int)
    requires i < 4
    ensures -1 <= c <= 1
  {
    if i == 0 then IntCmp(a.octave, b.octave)
    else if i == 1 then StrCmp(a.name, b.name)
    else if i == 2 then IntCmp(a.duration, b.duration)
    else IntCmp(a.volume, b.volume)
  }

  /** Note against Note: lexicographic on octave, then the name STRING (not
      the pitch class), then duration, then volume. */
  function NoteCmp(a: Note, b: Note): (c: int)
    ensures -1 <= c <= 1
  {
    if IntCmp(a.octave, b.octave) != 0 then IntCmp(a.octave, b.octave)
    else if StrCmp(a.name, b.name) != 0 then StrCmp(a.name, b.name)
    else if IntCmp(a.duration, b.duration) != 0 then IntCmp(a.duration, b.duration)
    else IntCmp(a.volume, b.volume)
  }

  /** The order is decided by the first attribute that differs. */
  lemma NoteCmpFirstDifference(a: Note, b: Note, i: nat)
    requires i <= 4
    requires forall j | 0 <= j < i :: AttrCmp(a, b, j) == 0
    requires i < 4 ==> AttrCmp(a, b, i) != 0
    ensures NoteCmp(a, b) == if i < 4 then AttrCmp(a, b, i) else 0
  {
    if i > 0 { assert AttrCmp(a, b, 0) == 0; }
    if i > 1 { assert AttrCmp(a, b, 1) == 0; }
    if i > 2 { assert AttrCmp(a, b, 2) == 0; }
    if i > 3 { assert AttrCmp(a, b, 3) == 0; }
  }

  /** Comparing the other way round gives the opposite answer. */
  lemma NoteCmpAntisymmetric(a: Note, b: Note)
    ensures NoteCmp(a, b) == -NoteCmp(b, a)
  {
    StrCmpAntisymmetric(a.name, b.name);
  }

  /** Two notes compare equal exactly when all four attributes agree. */
  lemma NoteCmpZero(a: Note, b: Note)
    ensures NoteCmp(a, b) == 0 <==> a == b
  {
    StrCmpZero(a.name, b.name);
  }

  /** "Not after" is transitive, so the note order is a total order. */
  lemma NoteCmpTransitive(a: Note, b: Note, c: Note)
    requires NoteCmp(a, b) <= 0 && NoteCmp(b, c) <= 0
    ensures NoteCmp(a, c) <= 0
  {
    StrCmpAntisymmetric(a.name, b.name);
    StrCmpAntisymmetric(b.name, c.name);
    StrCmpZero(a.name, b.name);
    StrCmpZero(b.name, c.name);
    StrCmpZero(a.name, c.name);
    if a.octave == b.octave == c.octave && StrCmp(a.name, b.name) <= 0 && StrCmp(b.name, c.name) <= 0 {
      StrCmpTransitive(a.name, b.name, c.name);
    }
  }

  /** A spelling `Spell(_, '#')` produces: a natural letter and at most one '#'. */
  predicate SharpSpelled(n: Note) {
    ValidNote(n) && n.name == Spell(Value(n), '#').value
  }

  /** The note with absolute value `v` as `Note.__pow__` builds it: the
      sharp spelling of `v`, in octave `v / 12` (floor division, as Python 2's
      `/` on integers). */
  function NoteAt(v: int, duration: int, volume: int): (r: Note)
    ensures ValidNote(r) && Value(r) == v && r.octave == v / 12
    ensures r.duration == duration && r.volume == volume
  {
    SpellRoundTrip(v, '#');
    Note(Spell(v, '#').value, v / 12, duration, volume)
  }

  /** Rebuilding NoteAt through the constructor, as the source does with
      `Note(name, octave=..., duration=..., volume=...)`, gives the same note. */
  lemma NoteAtIsConstructed(v: int, duration: int, volume: int)
    ensures var n := NoteAt(v, duration, volume);
      MakeNote(n.name, n.octave, n.duration, n.volume) == Ok(n)
  {
    var n := NoteAt(v, duration, volume);
    assert Upper(n.name[0]) == n.name[0];
    assert [Upper(n.name[0])] + n.name[1..] == n.name;
  }

  /** `Note.__pow__` (pymusic.py:84-89): the note `k` semitones higher,
      respelled with sharps. */
  function TransposeNote(n: Note, k: int): (r: Note)
    requires ValidNote(n)
    ensures ValidNote(r) && SharpSpelled(r)
    ensures Value(r) == Value(n) + k
    ensures r.octave == (Value(n) + k) / 12
    ensures r.duration == n.duration && r.volume == n.volume
  {
    NoteAt(Value(n) + k, n.duration, n.volume)
  }

  /** Transposing by k and back by -k restores value and octave, and the
      note itself when it was sharp-spelled to begin with. */
  lemma TransposeRoundTrip(n: Note, k: int)
    requires ValidNote(n)
    ensures var back := TransposeNote(TransposeNote(n, k), -k);
      Value(back) == Value(n) && back.octave == n.octave
      && back.duration == n.duration && back.volume == n.volume
      && (SharpSpelled(n) ==> back == n)
  {
    var back := TransposeNote(TransposeNote(n, k), -k);
    assert Value(n) / 12 == n.octave;
    assert back.octave == Value(n) / 12;
  }

  /** Two transpositions in a row are one transposition by the sum. */
  lemma TransposeCompose(n: Note, j: int, k: int)
    requires ValidNote(n)
    ensures TransposeNote(TransposeNote(n, j), k) == TransposeNote(n, j + k)
  {
    TransposeByTarget(TransposeNote(n, j), n, k, j + k);
  }

  /** The transposed note depends only on the target value, the duration
      and the volume, not on the note's spelling or octave. */
  lemma TransposeByTarget(a: Note, b: Note, j: int, k: int)
    requires ValidNote(a) && ValidNote(b)
    requires Value(a) + j == Value(b) + k && a.duration == b.duration && a.volume == b.volume
    ensures TransposeNote(a, j) == TransposeNote(b, k)
  {
  }
}
