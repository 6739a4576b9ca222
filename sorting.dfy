/** `sorted(...)` on notes, as the Chord constructor uses it (pymusic.py:102):
    the notes in the order of `Note.__cmp__`. */
module NoteSort {
  import opened Notes

  /** Every note is not after any later one. */
  predicate Sorted(s: seq<Note>) {
    forall i, j | 0 <= i < j < |s| :: NoteCmp(s[i], s[j]) <= 0
  }

  /** `x` placed before the first note it does not come after. */
  function Insert(x: Note, s: seq<Note>): (r: seq<Note>)
    requires Sorted(s)
    ensures Sorted(r)
    ensures multiset(r) == multiset(s) + multiset{x}
  {
    if |s| == 0 then [x]
    else if NoteCmp(x, s[0]) <= 0 then
      InsertFront(x, s);
      [x] + s
    else
      var t := Insert(x, s[1..]);
      FirstBeforeRest(x, s, t);
      [s[0]] + t
  }

  /** When `x` goes after the head of `s`, the head is not after anything
      that the rest and `x` make up, so it stays first. */
  lemma FirstBeforeRest(x: Note, s: seq<Note>, t: seq<Note>)
    requires Sorted(s) && |s| > 0 && NoteCmp(x, s[0]) > 0
    requires Sorted(t) && multiset(t) == multiset(s[1..]) + multiset{x}
    ensures Sorted([s[0]] + t)
    ensures multiset([s[0]] + t) == multiset(s) + multiset{x}
  {
    assert s == [s[0]] + s[1..];
    NoteCmpAntisymmetric(x, s[0]);
    forall k | 0 <= k < |t| ensures NoteCmp(s[0], t[k]) <= 0 {
      assert t[k] in multiset(t);
      if t[k] != x {
        assert t[k] in multiset(s[1..]);
        var m :| 0 <= m < |s[1..]| && s[1..][m] == t[k];
        assert s[1 + m] == t[k];
      }
    }
    var r := [s[0]] + t;
    forall i, j | 0 <= i < j < |r| ensures NoteCmp(r[i], r[j]) <= 0 {
      if i > 0 {
        assert r[i] == t[i - 1] && r[j] == t[j - 1];
      } else {
        assert r[j] == t[j - 1];
      }
    }
  }

  lemma InsertFront(x: Note, s: seq<Note>)
    requires Sorted(s) && |s| > 0 && NoteCmp(x, s[0]) <= 0
    ensures Sorted([x] + s)
  {
    forall j | 0 < j < |s| ensures NoteCmp(x, s[j]) <= 0 {
      NoteCmpTransitive(x, s[0], s[j]);
    }
  }

  /** The notes of `s` in order: a sorted permutation of `s`, duplicates kept. */
  function SortNotes(s: seq<Note>): (r: seq<Note>)
    ensures Sorted(r)
    ensures multiset(r) == multiset(s)
    ensures |r| == |s|
  {
    if |s| == 0 then []
    else
      assert s == [s[0]] + s[1..];
      Insert(s[0], SortNotes(s[1..]))
  }

  /** The note order is total, so a multiset of notes has exactly one sorted
      arrangement: sorting does not depend on the order of its input. */
  lemma {:induction false} SortedUnique(a: seq<Note>, b: seq<Note>)
    requires Sorted(a) && Sorted(b) && multiset(a) == multiset(b)
    ensures a == b
  {
    if |a| == 0 {
      assert |multiset(b)| == 0;
    } else {
      assert |b| == |multiset(b)| == |multiset(a)| == |a|;
      SameHead(a, b);
      assert a == [a[0]] + a[1..] && b == [b[0]] + b[1..];
      assert multiset(a) == multiset{a[0]} + multiset(a[1..]);
      assert multiset(b) == multiset{b[0]} + multiset(b[1..]);
      assert multiset(a[1..]) == multiset(a) - multiset{a[0]};
      assert multiset(b[1..]) == multiset(b) - multiset{b[0]};
      SortedUnique(a[1..], b[1..]);
    }
  }

  /** Two sorted arrangements of the same notes start with the same note. */
  lemma SameHead(a: seq<Note>, b: seq<Note>)
    requires Sorted(a) && Sorted(b) && multiset(a) == multiset(b) && |a| > 0 && |b| > 0
    ensures a[0] == b[0]
  {
    assert a[0] in multiset(b);
    var j :| 0 <= j < |b| && b[j] == a[0];
    assert b[0] in multiset(a);
    var i :| 0 <= i < |a| && a[i] == b[0];
    NoteCmpZero(a[0], b[0]);
    if i != 0 && j != 0 {
      assert NoteCmp(a[0], b[0]) <= 0;
      assert NoteCmp(b[0], a[0]) <= 0;
      NoteCmpAntisymmetric(a[0], b[0]);
    }
  }

  /** Sorting two arrangements of the same notes gives the same sequence. */
  lemma SortPermutationInvariant(s: seq<Note>, t: seq<Note>)
    requires multiset(s) == multiset(t)
    ensures SortNotes(s) == SortNotes(t)
  {
    SortedUnique(SortNotes(s), SortNotes(t));
  }
}
