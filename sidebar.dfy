/**
 * The profile editor of the sidebar. Every edit builds a new profile from the
 * old one and hands it to the application; nothing is changed in place.
 */
module Sidebar {
  import opened Types

  /** The grades the grade selector offers. */
  const GradeOptions: seq<string> := ["고3", "N수", "고2"]

  /** The label of the `n`-th option of the maths tier selector: the digit followed by "등급". */
  function MathLevelOption(n: int): (r: string)
    requires 1 <= n <= 9
    ensures |r| == 3 && r[1..] == "등급"
    ensures '1' <= r[0] <= '9' && r[0] as int - '0' as int == n
  {
    [('0' as int + n) as char] + "등급"
  }

  /** The tiers the maths tier selector offers, "1등급" to "9등급" in that order. */
  const MathLevelOptions: seq<string> := [
    MathLevelOption(1), MathLevelOption(2), MathLevelOption(3),
    MathLevelOption(4), MathLevelOption(5), MathLevelOption(6),
    MathLevelOption(7), MathLevelOption(8), MathLevelOption(9)]

  /** A profile every one of whose selector values is one the sidebar offers. */
  predicate Offered(p: StudentProfile) {
    p.grade in GradeOptions && p.mathLevel in MathLevelOptions
  }

  /** The three grades and the nine tier labels are each pairwise different; the n-th tier option is `MathLevelOption(n)`. */
  lemma SelectorOptionsDistinct()
    ensures |GradeOptions| == 3 && NoDuplicates(GradeOptions)
    ensures |MathLevelOptions| == 9 && NoDuplicates(MathLevelOptions)
    ensures forall n :: 1 <= n <= 9 ==> MathLevelOptions[n - 1] == MathLevelOption(n)
  {
    forall i, j | 0 <= i < j < 9 ensures MathLevelOptions[i] != MathLevelOptions[j] {
      assert MathLevelOptions[i][0] != MathLevelOptions[j][0];
    }
  }

  /**
   * The profile the application starts with only holds values the selectors
   * offer, and lists no university twice.
   */
  lemma InitialProfileOffered()
    ensures Offered(InitialProfile)
    ensures NoDuplicates(InitialProfile.targetUniversities)
  {
    assert MathLevelOptions[1] == "2등급";
  }

  /** Pairwise different entries. */
  predicate NoDuplicates(xs: seq<string>) {
    forall i, j :: 0 <= i < j < |xs| ==> xs[i] != xs[j]
  }

  /** `xs` keeps `a`'s elements in `a`'s order, possibly with others in between. */
  predicate IsSubsequence(a: seq<string>, xs: seq<string>)
    decreases |xs|
  {
    a == [] || (xs != [] && if a[0] == xs[0] then IsSubsequence(a[1..], xs[1..]) else IsSubsequence(a, xs[1..]))
  }

  /** `xs.filter(u => u !== x)`: no `x` is left and no new element appears. */
  function RemoveAll(xs: seq<string>, x: string): (r: seq<string>)
    ensures x !in r
    ensures forall y :: y in r ==> y in xs
  {
    if xs == [] then [] else (if xs[0] == x then [] else [xs[0]]) + RemoveAll(xs[1..], x)
  }

  /** Filtering commutes with concatenation. */
  lemma {:induction false} RemoveAllAppend(a: seq<string>, b: seq<string>, x: string)
    ensures RemoveAll(a + b, x) == RemoveAll(a, x) + RemoveAll(b, x)
    decreases |a|
  {
    if a != [] {
      var head := if a[0] == x then [] else [a[0]];
      assert (a + b)[0] == a[0] && (a + b)[1..] == a[1..] + b;
      assert RemoveAll(a + b, x) == head + RemoveAll(a[1..] + b, x);
      RemoveAllAppend(a[1..], b, x);
      assert RemoveAll(a, x) == head + RemoveAll(a[1..], x);
    } else {
      assert a + b == b;
    }
  }

  /** Filtering out an absent value changes nothing. */
  lemma {:induction false} RemoveAllAbsent(xs: seq<string>, x: string)
    requires x !in xs
    ensures RemoveAll(xs, x) == xs
    decreases |xs|
  {
    if xs != [] {
      RemoveAllAbsent(xs[1..], x);
    }
  }

  /** Every other value keeps its number of occurrences. */
  lemma {:induction false} RemoveAllKeepsCounts(xs: seq<string>, x: string)
    ensures forall y :: y != x ==> multiset(RemoveAll(xs, x))[y] == multiset(xs)[y]
    decreases |xs|
  {
    if xs != [] {
      RemoveAllKeepsCounts(xs[1..], x);
      assert xs == [xs[0]] + xs[1..];
    }
  }

  /** What is left keeps its original order. */
  lemma {:induction false} RemoveAllKeepsOrder(xs: seq<string>, x: string)
    ensures IsSubsequence(RemoveAll(xs, x), xs)
    decreases |xs|
  {
    if xs != [] {
      RemoveAllKeepsOrder(xs[1..], x);
      var r := RemoveAll(xs, x);
      if xs[0] != x {
        assert r[0] == xs[0] && r[1..] == RemoveAll(xs[1..], x);
      } else if r != [] {
        assert r == RemoveAll(xs[1..], x);
        assert r[0] in r && r[0] != xs[0];
      }
    }
  }

  /** Filtering keeps a duplicate-free list duplicate-free. */
  lemma {:induction false} RemoveAllNoDuplicates(xs: seq<string>, x: string)
    requires NoDuplicates(xs)
    ensures NoDuplicates(RemoveAll(xs, x))
    decreases |xs|
  {
    if xs != [] {
      RemoveAllNoDuplicates(xs[1..], x);
      var rest := RemoveAll(xs[1..], x);
      assert xs[0] !in xs[1..] by {
        forall j | 0 <= j < |xs[1..]| ensures xs[1..][j] != xs[0] {
          assert xs[1..][j] == xs[j + 1];
        }
      }
      assert xs[0] !in rest;
    }
  }

  /**
   * Ticking or unticking a university: a listed one is removed (every
   * occurrence), an unlisted one is appended. Membership flips and no other
   * field of the profile changes.
   */
  function ToggleUniversity(p: StudentProfile, uni: string): (r: StudentProfile)
    ensures r.name == p.name && r.grade == p.grade && r.mathLevel == p.mathLevel
    ensures uni in r.targetUniversities <==> uni !in p.targetUniversities
  {
    if uni in p.targetUniversities then
      p.(targetUniversities := RemoveAll(p.targetUniversities, uni))
    else
      p.(targetUniversities := p.targetUniversities + [uni])
  }

  /** Ticking an unlisted university puts it last and leaves the earlier entries as they were. */
  lemma ToggleAbsentAppends(p: StudentProfile, uni: string)
    requires uni !in p.targetUniversities
    ensures ToggleUniversity(p, uni).targetUniversities == p.targetUniversities + [uni]
  {
  }

  /**
   * Unticking a listed university removes every occurrence of it; each other
   * university keeps its number of occurrences and the relative order is kept.
   */
  lemma TogglePresentRemovesAll(p: StudentProfile, uni: string)
    requires uni in p.targetUniversities
    ensures var r := ToggleUniversity(p, uni).targetUniversities;
      && uni !in r
      && (forall y :: y != uni ==> multiset(r)[y] == multiset(p.targetUniversities)[y])
      && IsSubsequence(r, p.targetUniversities)
  {
    RemoveAllKeepsCounts(p.targetUniversities, uni);
    RemoveAllKeepsOrder(p.targetUniversities, uni);
  }

  /** Ticking and then unticking an unlisted university gives back the same profile. */
  lemma DoubleToggleAbsentRestores(p: StudentProfile, uni: string)
    requires uni !in p.targetUniversities
    ensures ToggleUniversity(ToggleUniversity(p, uni), uni) == p
  {
    var xs := p.targetUniversities;
    RemoveAllAppend(xs, [uni], uni);
    RemoveAllAbsent(xs, uni);
  }

  /** In a duplicate-free list, the element at `k` occurs neither before nor after `k`. */
  lemma OnlyAt(xs: seq<string>, k: nat)
    requires NoDuplicates(xs) && k < |xs|
    ensures xs[k] !in xs[..k] && xs[k] !in xs[k + 1..]
  {
    forall j | 0 <= j < k ensures xs[..k][j] != xs[k] { assert xs[..k][j] == xs[j]; }
    var after := xs[k + 1..];
    forall j | 0 <= j < |after| ensures after[j] != xs[k] { assert after[j] == xs[k + 1 + j]; }
  }

  /** Filtering out a value that occurs once just cuts it out. */
  lemma RemoveSingleOccurrence(a: seq<string>, b: seq<string>, x: string)
    requires x !in a && x !in b
    ensures RemoveAll(a + [x] + b, x) == a + b
  {
    RemoveAllAppend(a + [x], b, x);
    RemoveAllAppend(a, [x], x);
    assert RemoveAll([x], x) == [];
    RemoveAllAbsent(a, x);
    RemoveAllAbsent(b, x);
    assert RemoveAll(a + [x], x) == a;
  }

  /**
   * Unticking and then ticking a listed university of a duplicate-free list
   * moves it to the end; the list comes back unchanged only when it was last.
   */
  lemma DoubleTogglePresentMovesToEnd(p: StudentProfile, uni: string, k: nat)
    requires NoDuplicates(p.targetUniversities)
    requires k < |p.targetUniversities| && p.targetUniversities[k] == uni
    ensures ToggleUniversity(ToggleUniversity(p, uni), uni).targetUniversities
         == p.targetUniversities[..k] + p.targetUniversities[k + 1..] + [uni]
    ensures ToggleUniversity(ToggleUniversity(p, uni), uni) == p <==> k == |p.targetUniversities| - 1
  {
    var xs := p.targetUniversities;
    var a, b := xs[..k], xs[k + 1..];
    assert xs == a + [uni] + b;
    OnlyAt(xs, k);
    RemoveSingleOccurrence(a, b, uni);
    var twice := a + b + [uni];
    assert ToggleUniversity(ToggleUniversity(p, uni), uni).targetUniversities == twice;
    if k != |xs| - 1 {
      assert twice[k] == xs[k + 1] != uni;
    } else {
      assert b == [];
    }
  }

  /** A toggle never introduces a duplicate into a duplicate-free list. */
  lemma ToggleKeepsNoDuplicates(p: StudentProfile, uni: string)
    requires NoDuplicates(p.targetUniversities)
    ensures NoDuplicates(ToggleUniversity(p, uni).targetUniversities)
  {
    if uni in p.targetUniversities {
      RemoveAllNoDuplicates(p.targetUniversities, uni);
    }
  }

  /** Editing the name: the name is replaced, nothing else changes. */
  function SetName(p: StudentProfile, name: string): (r: StudentProfile)
    ensures r.name == name
    ensures r.grade == p.grade && r.mathLevel == p.mathLevel && r.targetUniversities == p.targetUniversities
  {
    p.(name := name)
  }

  /** Choosing a grade: the grade is replaced, nothing else changes. */
  function SetGrade(p: StudentProfile, grade: string): (r: StudentProfile)
    ensures r.grade == grade
    ensures r.name == p.name && r.mathLevel == p.mathLevel && r.targetUniversities == p.targetUniversities
  {
    p.(grade := grade)
  }

  /** Choosing a maths tier: the tier is replaced, nothing else changes. */
  function SetMathLevel(p: StudentProfile, mathLevel: string): (r: StudentProfile)
    ensures r.mathLevel == mathLevel
    ensures r.name == p.name && r.grade == p.grade && r.targetUniversities == p.targetUniversities
  {
    p.(mathLevel := mathLevel)
  }

  /** Each single-field edit is undone by writing the old value back. */
  lemma EditsUndo(p: StudentProfile, v: string)
    ensures SetName(SetName(p, v), p.name) == p
    ensures SetGrade(SetGrade(p, v), p.grade) == p
    ensures SetMathLevel(SetMathLevel(p, v), p.mathLevel) == p
  {
  }

  /** Edits through the sidebar's own controls keep every selector value one the sidebar offers. */
  lemma EditsKeepOffered(p: StudentProfile, name: string, g: nat, n: nat, uni: string)
    requires Offered(p)
    requires g < |GradeOptions| && 1 <= n <= 9
    ensures Offered(SetName(p, name))
    ensures Offered(SetGrade(p, GradeOptions[g]))
    ensures Offered(SetMathLevel(p, MathLevelOption(n)))
    ensures Offered(ToggleUniversity(p, uni))
  {
    assert MathLevelOptions[n - 1] == MathLevelOption(n);
  }
}
