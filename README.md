# pymusic in Dafny

A verified model of `pymusic.py`, a small algebra of musical values. It has
three parts:

- **Pitch-name codec.** A spelling such as "C#" or "Bb" is turned into a pitch
  class: an integer in [0, 12), counted in semitones from A. A pitch class is
  turned back into a spelling with a chosen accidental bias, '#' or 'b'.
- **Note.** A Note is a spelling, an octave, a duration and a volume. Its
  absolute value is the pitch class plus 12 times the octave. Notes are
  ordered lexicographically by octave, name string, duration and volume. A
  Note is transposed by a number of semitones.
- **Chord and Phrase.** A Chord is a sorted sequence of Notes. A Phrase is a
  flat sequence of events. `+` (here `Then`) plays two values one after the
  other. `*` (here `Together`) sounds them at the same time. `**` (here
  `Transpose`) shifts every pitch.

The files are modules, listed leaf first:

- `outcomes.dfy`: the `Result` and `Error` types.
- `ordering.dfy`: Python 2 `cmp` on integers and strings.
- `codec.dfy`: the pitch-name codec.
- `notes.dfy`: Note construction, comparison and transposition.
- `sorting.dfy`: the note sort used by the Chord constructor.
- `music.dfy`: the `Music` union of Note, Chord and Phrase, with the
  constructors and the three combinators.

The source's exceptions become `Err` values. Its loops become methods, each
proved equal to a specification function:
- the respelling loop of `_value_to_name`;
- the attribute loop of `Note.__cmp__`;
- the argument loop of `Phrase.__init__`.

Durations and volumes are integers. The source's default arguments are
Dafny default parameters: `octave := 0, duration := 1, volume := 1` on
`MakeNote` (pymusic.py:20), and `bias := '#'` on `Spell` and `ValueToName`
(pymusic.py:8).

Behaviours of the code worth noting:

- `Chord()` with no argument builds an empty Chord. `all(...)` over no
  arguments is true (pymusic.py:101), so no error is raised.
- `_name_to_value` accepts only an upper-case letter. Only the Note
  constructor upper-cases the first character.
- A Note or a Chord times a Phrase delegates to the Phrase. A Note times a
  Chord delegates to the Chord. In the code both paths reach the defective
  line 123 whenever a Note meets a Chord (see Findings). The model uses the
  documented intent there.

## Model

| member | source | states |
|---|---|---|
| `Ordering.IntCmp` | pymusic.py:46 | Python 2 `cmp` on integers (octave, duration, volume): −1, 0 or 1, zero exactly on equal operands and negative exactly when the left one is smaller |
| `Ordering.StrCmp` | pymusic.py:46 | Python 2 `cmp` on strings (the name): lexicographic by character, a proper prefix first, always −1, 0 or 1; its order properties are the three lemmas below |
| `Ordering.StrCmpAntisymmetric` | pymusic.py:45-46 | Python 2 string comparison, used for the name tie-break, gives the opposite answer when the operands are swapped |
| `Ordering.StrCmpZero` | pymusic.py:45-47 | two names compare equal exactly when they are the same string |
| `Ordering.StrCmpTransitive` | pymusic.py:45-46 | "not after" on names is transitive |
| `PitchCodec.ShiftSum` | pymusic.py:4-5 | the accidental sum is defined exactly when every character is '#' or 'b', and it equals the number of '#' minus the number of 'b' |
| `PitchCodec.NameToValue` | pymusic.py:2-6 | succeeds exactly on an upper-case letter A–G followed only by accidentals; the result is in [0,12) and equals (letter base + count of '#' − count of 'b') mod 12 with A=0, B=2, C=3, D=5, E=7, F=8, G=10; any other input is InvalidPitchName |
| `PitchCodec.Spell` | pymusic.py:8-16 | a natural pitch class is spelled by its letter alone; any other class is spelled by one letter and exactly one bias character; an unknown bias fails only when an accidental is needed |
| `PitchCodec.SpellRoundTrip` | pymusic.py:2-16 | reading back the spelling of any integer v, with bias '#' or 'b', gives v mod 12 |
| `PitchCodec.RespellKeepsPitchClass` | pymusic.py:2-16 | respelling any valid spelling with either bias keeps its pitch class |
| `PitchCodec.SharpSpelling` | pymusic.py:8-16 | with bias '#', the letter is the one at the pitch class, or the one just below it when an accidental is added |
| `PitchCodec.CodecExamples` | pymusic.py:2-16 | A→0, C→3, G→10, C#→4, Db→4; 1 is spelled "A#" with '#' and "Bb" with 'b' |
| `PitchCodec.ValueToName` | pymusic.py:8-16 | the loop as written returns exactly the spelling `Spell` gives, for every input on which it terminates (bias other than 'b', or pitch class other than 11) |
| `PitchCodec.WalkAsWritten` | pymusic.py:13-16 | the loop as written, bounded by a step budget: it stops at once on a natural letter; when it stops, the result is a natural letter, then the accidentals gathered before, then only bias characters, at most one per step taken |
| `PitchCodec.WalkAsWrittenSpells` | pymusic.py:11-16 | on every input where the loop as written stops, it stops after one step with the spelling `Spell` gives, so the walk in `FlatWalkNeverStops` is the same loop |
| `PitchCodec.FlatWalkNeverStops` | pymusic.py:13-15 | with bias 'b', the loop as written, once at 11 or above, has not stopped after any number of steps |
| `Notes.PitchClass` | pymusic.py:25 | `_name_to_value` of a stored name lies in [0, 12) |
| `Notes.Value` | pymusic.py:25 | the stored value divided by 12 is the octave and its remainder is the pitch class of the name |
| `Notes.Upper` | pymusic.py:21 | only the letter itself or its lower-case form upper-cases to a natural letter A–G |
| `Notes.MakeNote` | pymusic.py:20-25 | succeeds exactly when the name is non-empty, its upper-cased first character is A–G and the rest are accidentals; the first character is upper-cased and the rest kept; octave, duration and volume are stored as given; value / 12 is the octave and value mod 12 the pitch class |
| `Notes.NoteCmp` | pymusic.py:44-49 | Note against Note: always −1, 0 or 1; its meaning (first differing attribute decides, total order) is the four lemmas below |
| `Notes.NoteCmpFirstDifference` | pymusic.py:45-49 | the comparison is that of the first attribute, in the order octave, name, duration, volume, that differs, and 0 when none does |
| `Notes.NoteCmpAntisymmetric` | pymusic.py:44-49 | swapping two notes negates their comparison |
| `Notes.NoteCmpZero` | pymusic.py:44-49 | two notes compare 0 exactly when all four attributes are equal |
| `Notes.NoteCmpTransitive` | pymusic.py:44-49 | the note order is transitive, so it is a total order |
| `Notes.NoteAt` | pymusic.py:85-88 | the note rebuilt from an absolute value v has a valid spelling, value v and octave floor(v / 12) |
| `Notes.NoteAtIsConstructed` | pymusic.py:86-89 | passing the respelled name and octave through the Note constructor succeeds and yields that same note |
| `Notes.TransposeNote` | pymusic.py:84-89 | the transposed note has value + k, octave floor((value + k) / 12), a '#'-biased spelling, and the same duration and volume |
| `Notes.TransposeRoundTrip` | pymusic.py:84-89 | transposing by k and then by −k restores value, octave, duration and volume, and gives back a '#'-spelled note unchanged |
| `Notes.TransposeByTarget` | pymusic.py:85-89 | the transposed note depends only on the target value, duration and volume, not on how the original was spelled |
| `Notes.TransposeCompose` | pymusic.py:84-89 | transposing by j and then by k is transposing by j + k |
| `NoteSort.SortNotes` | pymusic.py:102 | `sorted` yields a sequence that is sorted by the note order and is a permutation of its input, duplicates kept |
| `NoteSort.SortedUnique` | pymusic.py:102 | two sorted sequences holding the same notes are equal |
| `NoteSort.SortPermutationInvariant` | pymusic.py:102 | sorting two rearrangements of the same notes gives the same result |
| `Musics.Order` | pymusic.py:36-49 | the value `Note.__cmp__` returns: −1, 0 or 1; −1 against any Chord or Phrase; against a Note, 0 exactly when it is the same note |
| `Musics.Compare` | pymusic.py:36-52 | the attribute loop returns the note order; the result is −1, 0 or 1; it is 0 exactly against the same Note; it is −1 against every Chord and Phrase |
| `Musics.Contribution` | pymusic.py:146-149 | an argument that is not a Phrase contributes itself alone; what an argument contributes is flat whenever a Phrase argument is itself flat |
| `Musics.Flatten` | pymusic.py:143-149 | if every Phrase argument is flat, the event list built is flat; arguments that are not Phrases are kept as they are |
| `Musics.FlattenAppend` | pymusic.py:144-149 | building from `a + b` gives the events built from `a` followed by those built from `b` |
| `Musics.FlattenWellFormed` | pymusic.py:143-149 | a Phrase built from well-formed values is well-formed, with no nested Phrase |
| `Musics.FlattenNotesValid` | pymusic.py:143-149 | a Phrase built from values with valid notes has only valid notes |
| `Musics.NewPhrase` | pymusic.py:143-149 | the loop builds exactly the flattened event list; when no argument's events contain a Phrase, no event of the result is a Phrase |
| `Musics.Then` | pymusic.py:54-64 | `+` on any kind is a Phrase of the left operand's contribution followed by the right's (a Phrase contributes its events, anything else itself) |
| `Musics.ThenAssociative` | pymusic.py:160-161 | sequential combination is associative, for every kind of operand (the same rule is at lines 60-61 and 115-116) |
| `Musics.ThenWellFormed` | pymusic.py:54-164 | sequencing well-formed values gives a well-formed Phrase |
| `Musics.ChordOf` | pymusic.py:101-102 | a Chord built from notes holds them sorted, as a permutation |
| `Musics.NewChord` | pymusic.py:96-104 | succeeds exactly when every argument is a Note, including the empty case; the result is sorted, has one note per argument and the same notes with the same multiplicities; a Chord or Phrase argument is InvalidChordMembers |
| `Musics.ChordProduct` | pymusic.py:66-125 | two Notes or Chords combine into a Chord whose notes are sorted and are exactly the notes of both operands |
| `Musics.ChordProductCommutative` | pymusic.py:72-75 | the Chord of two Notes or Chords does not depend on which operand is on the left |
| `Musics.Together` | pymusic.py:66-174 | fails exactly for Phrase * Phrase (NotImplemented); Note/Chord times Note/Chord is a sorted Chord of all notes of both operands; a Phrase times a Note or Chord, either way round, is a flat Phrase |
| `Musics.Layered` | pymusic.py:168 | the per-event products of a Phrase with a Note or Chord: one per event, and any Phrase among them is flat |
| `Musics.LayeredAt` | pymusic.py:168 | the i-th per-event product exists and is the i-th event times the operand |
| `Musics.LayeredAppend` | pymusic.py:168 | the per-event products of a concatenation are the concatenation of the per-event products |
| `Musics.TogetherCommutative` | pymusic.py:72-75 | `a * b == b * a` for every pair of values, including Note * Note, Chord * Chord and the delegating cases |
| `Musics.PhraseTimesEvents` | pymusic.py:166-168 | a flat Phrase times a Note or Chord keeps the length, and its i-th event is the i-th event times the operand |
| `Musics.LayeredContribution` | pymusic.py:166-168 | what `m * x` contributes to a Phrase is the flattened per-event products of m's contribution |
| `Musics.DistributesOverThen` | pymusic.py:160-168 | (A + B) * X == (A * X) + (B * X) for X a Note or Chord and any A, B |
| `Musics.ChordProductWellFormed` | pymusic.py:72-73 | the product of two well-formed Notes or Chords is a well-formed Chord |
| `Musics.TogetherWellFormed` | pymusic.py:166-168 | every successful product of well-formed values is well-formed |
| `Musics.Transpose` | pymusic.py:80-183 | transposition keeps the kind and valid notes; a Note becomes exactly the transposed Note (value moved by k, sharp spelling, floor octave, same duration and volume); a Chord keeps its length and becomes the sorted permutation of its transposed notes; a Phrase stays flat |
| `Musics.TransposeAll` | pymusic.py:136 | every note of a chord transposed, in order |
| `Musics.PhraseTransposeEvents` | pymusic.py:176-181 | transposing a flat Phrase keeps its length and transposes each event |
| `Musics.TransposeWellFormed` | pymusic.py:131-136 | transposition keeps a value well-formed (sorted chords, flat phrases, valid notes) |
| `Musics.WellFormedNotesValid` | pymusic.py:25 | every note of a well-formed value has a valid spelling |
| `Musics.ChordObject.constructor` | pymusic.py:96-102 | a Chord object built from Notes holds them sorted, as a permutation of the arguments, in its mutable list `self.notes` |
| `Musics.ChordObject.TimesNoteAsWritten` | pymusic.py:121-123 | as written, Chord * Note appends the note to the receiver's own list and then fails with TypeError |
| `Musics.ChordTimesNoteAddsNote` | pymusic.py:66-70 | the intended Chord * Note equals Note * Chord: a sorted Chord with one note more, holding the receiver's notes and the new note |
| `Musics.MusicExamples` | pymusic.py:20-49 | "C" and "c#" construct as expected; Note C4 compares 0 with C4, C3 comes before C4, and a Note comes before a Chord; a nested Phrase argument is flattened into three events |

## Left out

- `_play` and its `print` (pymusic.py:27-29) are output only.
- `__repr__` (pymusic.py:31-34, 106-107, 151-152) is presentation only.
- The extra `*args, **kwargs` of `Note.__init__` (pymusic.py:20) are accepted and ignored by the source. `Notes.MakeNote` has no such parameters.
- The `TypeError` branches for operands that are not Note, Chord or Phrase, and for transposition by a non-integer (pymusic.py:50-52, 62-64, 76-78, 90-91, 117-119, 128-129, 137-138, 172-174, 182-183) are not modelled. The types of the model admit only musical operands and integer amounts. For transposition by a Python 2 `long`, see the next line.
- `Notes.TransposeNote` and `Musics.Transpose` do not model the split between Python 2 `int` and `long`. The source's `isinstance(other, int)` (pymusic.py:84, 135, 180) is false for a `long`, such as `5L` or `2**63` on a 64-bit build, so the source raises TypeError there. The model transposes by any integer.
- Durations and volumes that are floats or other Python objects are not modelled. They are integers here.
- A Phrase built from arguments that are not musical values is not modelled. The source's constructor accepts anything.
- Ordering between two Chords, two Phrases, or a Chord and a Phrase is not modelled. The source defines no `__cmp__` for those classes.
- `Chord` constructed from Chord arguments (pymusic.py:97-98) is modelled as the error it always raises (`sum` starts from 0, and `__init__` may not return a value). It does not sum the arguments.
- `Notes.Upper` models `str.upper` on ASCII only. Other first characters cannot upper-case to A–G, so the constructor fails on them either way.
- `PitchCodec.ValueToName` takes the bias as one character. A longer bias string fails the same dictionary lookup in the source.
- The stored attribute `value` (pymusic.py:25) is derived by `Notes.Value` instead of stored. It is a function of name and octave.
- Python's `sorted` is Timsort and `NoteSort.SortNotes` is an insertion sort. The results are equal because the note order is total (`NoteSort.SortedUnique`).
- `Musics.Together` models Chord * Note, and every path that reaches it (Note * Chord, and a Phrase holding Chords times a Note), by the documented intent rather than the defective line 123. `Musics.ChordObject` is the only place where the in-place update of a Chord's note list is modelled.

## Findings

| source | as written | input that shows it | evidently intended | confidence | as-written member | corrected member |
|---|---|---|---|---|---|---|
| pymusic.py:13-15 | the respelling loop adds `mod['b'] = 1` without reducing mod 12, so from pitch class 11 the value climbs 12, 13, … and never meets a key of the letter table | `_value_to_name(11, 'b')`, or any value ≡ 11 (mod 12) with bias 'b' | wrap to A and spell the class as "Ab" | not executed; high | `PitchCodec.FlatWalkNeverStops` | `PitchCodec.SpellRoundTrip` |
| pymusic.py:123 | `self.notes.append(other)` returns None, so `Chord(*None)` raises TypeError after the receiver's note list has been extended | `Chord(Note("C"), Note("E")) * Note("G")`, and through delegation `Note("G") * Chord(...)` | the Chord with the note added ("chord with note added", pymusic.py:69), operands unchanged | not executed; high | `Musics.ChordObject.TimesNoteAsWritten` | `Musics.ChordTimesNoteAddsNote` |
