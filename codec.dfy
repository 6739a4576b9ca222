/** Conversion between pitch spellings ("C#", "Bb") and pitch classes: integers
    in [0, 12) counted in semitones from A (pymusic.py:2-16). */
module PitchCodec {
  import opened Outcomes

  /** Pitch class of each natural letter (the table of `_name_to_value`). */
  const LetterValue: map<char, int> :=
    map['A' := 0, 'B' := 2, 'C' := 3, 'D' := 5, 'E' := 7, 'F' := 8, 'G' := 10]

  /** What each accidental adds when a spelling is read. */
  const AccidentalShift: map<char, int> := map['#' := 1, 'b' := -1]

  /** The natural letter naming a pitch class (the table of `_value_to_name`). */
  const NaturalName: map<int, char> :=
    map[0 := 'A', 2 := 'B', 3 := 'C', 5 := 'D', 7 := 'E', 8 := 'F', 10 := 'G']

  /** The step the respelling walk takes for each accidental it appends:
      a sharp spelling walks down to the letter below, a flat one walks up. */
  const WalkStep: map<char, int> := map['#' := -1, 'b' := 1]

  /** A spelling `_name_to_value` accepts: an upper-case natural letter
      followed by any number of '#' and 'b'. */
  predicate ValidSpelling(s: string) {
    |s| > 0 && s[0] in LetterValue && forall i | 1 <= i < |s| :: s[i] in AccidentalShift
  }

  /** The `sum(mod[m] for m in name[1:])` of `_name_to_value`; None on a
      character that is not an accidental (a KeyError in the source). */
  function ShiftSum(acc: string): (r: Option<int>)
    ensures r.Some? <==> forall i | 0 <= i < |acc| :: acc[i] in AccidentalShift
    ensures r.Some? ==> r.value == multiset(acc)['#'] as int - multiset(acc)['b'] as int
  {
    if |acc| == 0 then Some(0)
    else if acc[0] !in AccidentalShift then None
    else
      assert acc == [acc[0]] + acc[1..];
      match ShiftSum(acc[1..])
      case None => None
      case Some(t) => Some(AccidentalShift[acc[0]] + t)
  }

  /** `_name_to_value`: the pitch class of a spelling, reduced mod 12. */
  function NameToValue(s: string): (r: Result<int>)
    ensures r.Ok? <==> ValidSpelling(s)
    ensures r.Err? ==> r.error == InvalidPitchName
    ensures r.Ok? ==> 0 <= r.value < 12
    ensures r.Ok? ==>
      r.value == (LetterValue[s[0]] + multiset(s[1..])['#'] as int - multiset(s[1..])['b'] as int) % 12
  {
    if |s| == 0 || s[0] !in LetterValue then Err(InvalidPitchName)
    else
      match ShiftSum(s[1..])
      case None => Err(InvalidPitchName)
      case Some(t) => Ok((LetterValue[s[0]] + t) % 12)
  }

  /** The spelling of pitch class `v % 12` with accidental `bias`: the bare
      letter when the class is natural, otherwise the neighbouring letter the
      bias walks to followed by one `bias`. This is the intended behaviour
      of `_value_to_name`; unlike the loop as written it reduces the walk
      mod 12, so that (11, 'b') is spelled "Ab" (see Findings in README.md). */
  function Spell(v: int, bias: char := '#'): (r: Result<string>)
    ensures r.Ok? <==> v % 12 in NaturalName || bias in WalkStep
    ensures r.Err? ==> r.error == UnknownAccidental
    ensures r.Ok? ==> 1 <= |r.value| <= 2 && r.value[0] in LetterValue
    ensures r.Ok? ==> (|r.value| == 1 <==> v % 12 in NaturalName)
    ensures r.Ok? && |r.value| == 2 ==> r.value[1] == bias
  {
    var p := v % 12;
    if p in NaturalName then Ok([NaturalName[p]])
    else if bias !in WalkStep then Err(UnknownAccidental)
    else Ok([NaturalName[(p + WalkStep[bias]) % 12], bias])
  }

  /** Reading back a spelling gives the pitch class it was made from, for
      every integer and either bias. */
  lemma SpellRoundTrip(v: int, bias: char)
    requires bias in WalkStep
    ensures Spell(v, bias).Ok?
    ensures NameToValue(Spell(v, bias).value) == Ok(v % 12)
  {
    var s := Spell(v, bias).value;
    if |s| == 2 {
      assert s[1..] == [bias];
      assert multiset(s[1..]) == multiset{bias};
    } else {
      assert s[1..] == [];
    }
  }

  /** Respelling a valid spelling with either bias keeps its pitch class. */
  lemma RespellKeepsPitchClass(s: string, bias: char)
    requires ValidSpelling(s) && bias in WalkStep
    ensures Spell(NameToValue(s).value, bias).Ok?
    ensures NameToValue(Spell(NameToValue(s).value, bias).value) == NameToValue(s)
  {
    var v := NameToValue(s).value;
    SpellRoundTrip(v, bias);
    assert v % 12 == v;
  }

  /** A sharp spelling ends in at most one '#' and names the letter at or
      just below the pitch class. */
  lemma SharpSpelling(v: int)
    ensures Spell(v, '#').Ok?
    ensures var s := Spell(v, '#').value;
      LetterValue[s[0]] == (if |s| == 1 then v % 12 else v % 12 - 1)
  {
  }

  /** The literal cases the codec must reproduce. */
  lemma CodecExamples()
    ensures NameToValue("A") == Ok(0) && NameToValue("C") == Ok(3) && NameToValue("G") == Ok(10)
    ensures NameToValue("C#") == Ok(4) && NameToValue("Db") == Ok(4)
    ensures Spell(1, '#') == Ok("A#") && Spell(1, 'b') == Ok("Bb")
  {
    assert "C#"[1..] == "#";
    assert multiset("#") == multiset{'#'};
    assert "Db"[1..] == "b";
    assert multiset("b") == multiset{'b'};
  }

  /** `_value_to_name` as written (pymusic.py:8-16): the loop appends one
      `bias` per step until the value is a natural letter. As written the
      value is not reduced inside the loop, so it never stops for a pitch
      class of 11 with bias 'b'; callers must avoid that case. */
  method ValueToName(v: int, bias: char := '#') returns (r: Result<string>)
    requires bias != 'b' || v % 12 != 11
    ensures r == Spell(v, bias)
  {
    var value := v % 12;
    var mods: string := [];
    while value !in NaturalName
      invariant |mods| == 0 ==> value == v % 12
      invariant |mods| == 1 ==> mods == [bias] && v % 12 !in NaturalName
      invariant |mods| == 1 ==> bias in WalkStep && value == v % 12 + WalkStep[bias]
      invariant |mods| == 1 ==> value in NaturalName
      invariant |mods| <= 1
      decreases 1 - |mods|
    {
      if bias !in WalkStep {
        return Err(UnknownAccidental);
      }
      mods := mods + [bias];
      value := value + WalkStep[bias];
    }
    if |mods| == 1 {
      assert (v % 12 + WalkStep[bias]) % 12 == value;
      assert [NaturalName[value]] + mods == [NaturalName[value], bias];
    } else {
      assert [NaturalName[value]] + mods == [NaturalName[value]];
    }
    r := Ok([NaturalName[value]] + mods);
  }

  /** The loop of `_value_to_name` as written, run for at most `fuel` steps
      from `value`; None when it has not reached a natural letter. */
  function WalkAsWritten(value: int, bias: char, mods: string, fuel: nat): (r: Option<string>)
    requires bias in WalkStep
    ensures value in NaturalName ==> r.Some?
    ensures r.Some? ==> |mods| < |r.value| <= |mods| + 1 + fuel && r.value[0] in LetterValue
    ensures r.Some? ==> r.value[1..|mods| + 1] == mods
                        && forall k | |mods| + 1 <= k < |r.value| :: r.value[k] == bias
    decreases fuel
  {
    if value in NaturalName then Some([NaturalName[value]] + mods)
    else if fuel == 0 then None
    else
      var rest := WalkAsWritten(value + WalkStep[bias], bias, mods + [bias], fuel - 1);
      assert rest.Some? ==> rest.value[1..|mods| + 1] == (rest.value[1..|mods| + 2])[..|mods|];
      rest
  }

  /** On every input where it stops, the walk as written stops after one
      step, with the spelling `Spell` gives. */
  lemma WalkAsWrittenSpells(v: int, bias: char)
    requires bias in WalkStep && (bias != 'b' || v % 12 != 11)
    ensures WalkAsWritten(v % 12, bias, [], 1) == Some(Spell(v, bias).value)
  {
    var p := v % 12;
    if p !in NaturalName {
      assert [] + [bias] == [bias];
      assert WalkAsWritten(p, bias, [], 1) == WalkAsWritten(p + WalkStep[bias], bias, [bias], 0);
      assert [NaturalName[p + WalkStep[bias]]] + [bias] == [NaturalName[p + WalkStep[bias]], bias];
    } else {
      assert [NaturalName[p]] + [] == [NaturalName[p]];
    }
  }

  /** Once the walk with bias 'b' is at 11 or above it only climbs, and no
      key of the letter table is above 10: it never stops. */
  lemma {:induction false} FlatWalkNeverStops(value: int, mods: string, fuel: nat)
    requires value >= 11
    ensures WalkAsWritten(value, 'b', mods, fuel) == None
    decreases fuel
  {
    if fuel > 0 {
      FlatWalkNeverStops(value + 1, mods + ['b'], fuel - 1);
    }
  }
}
