/**
 * The JavaScript string and array built-ins the core relies on:
 * `String.prototype.trim`, `Array.prototype.join` and `String.prototype.split`
 * with a one-character separator.
 */
module JsText {

  /** White space and line terminators as `trim` strips them (ECMAScript WhiteSpace and LineTerminator). */
  predicate IsJsWhitespace(c: char) {
    c == '\t' || c == '\n' || c == '\U{0B}' || c == '\U{0C}' || c == '\r' || c == ' '
    || c == '\U{A0}' || c == '\U{1680}' || ('\U{2000}' <= c <= '\U{200A}')
    || c == '\U{2028}' || c == '\U{2029}' || c == '\U{202F}' || c == '\U{205F}'
    || c == '\U{3000}' || c == '\U{FEFF}'
  }

  predicate AllWhitespace(s: string) {
    forall i :: 0 <= i < |s| ==> IsJsWhitespace(s[i])
  }

  /** Drops leading white space: what is dropped is all white space, and what remains does not start with any. */
  function TrimStart(s: string): (r: string)
    ensures |r| <= |s| && r == s[|s| - |r|..]
    ensures forall i :: 0 <= i < |s| - |r| ==> IsJsWhitespace(s[i])
    ensures r == [] || !IsJsWhitespace(r[0])
  {
    if |s| > 0 && IsJsWhitespace(s[0]) then TrimStart(s[1..]) else s
  }

  /** Drops trailing white space: what is dropped is all white space, and what remains does not end with any. */
  function TrimEnd(s: string): (r: string)
    ensures |r| <= |s| && r == s[..|r|]
    ensures forall i :: |r| <= i < |s| ==> IsJsWhitespace(s[i])
    ensures r == [] || !IsJsWhitespace(r[|r| - 1])
  {
    if |s| > 0 && IsJsWhitespace(s[|s| - 1]) then TrimEnd(s[..|s| - 1]) else s
  }

  /**
   * `s.trim()`: neither starts nor ends with white space, and is empty
   * exactly when `s` is all white space.
   */
  function Trim(s: string): (r: string)
    ensures |r| <= |s|
    ensures r == [] || (!IsJsWhitespace(r[0]) && !IsJsWhitespace(r[|r| - 1]))
    ensures r == [] <==> AllWhitespace(s)
  {
    var t := TrimStart(s);
    if t != [] then assert t[0] == s[|s| - |t|]; TrimEnd(t) else TrimEnd(t)
  }

  /**
   * `trim` only cuts: the result is the piece of `s` starting at the returned
   * offset, and everything before and after that piece is white space.
   */
  lemma TrimKeepsMiddle(s: string) returns (k: nat)
    ensures k + |Trim(s)| <= |s| && s[k..k + |Trim(s)|] == Trim(s)
    ensures AllWhitespace(s[..k]) && AllWhitespace(s[k + |Trim(s)|..])
  {
    var t := TrimStart(s);
    var r := TrimEnd(t);
    k := |s| - |t|;
    PrefixOfSuffix(s, t, r);
    TrimCutsWhitespaceBefore(s);
    TrimCutsWhitespaceAfter(t);
  }

  /** A prefix `r` of a suffix `t` of `s` is the piece of `s` where `t` starts; what follows it in `s` follows it in `t`. */
  lemma PrefixOfSuffix(s: string, t: string, r: string)
    requires |t| <= |s| && t == s[|s| - |t|..]
    requires |r| <= |t| && r == t[..|r|]
    ensures var k := |s| - |t|; s[k..k + |r|] == r && s[k + |r|..] == t[|r|..]
  {
  }

  /** What `TrimStart` cuts off is white space. */
  lemma TrimCutsWhitespaceBefore(s: string)
    ensures AllWhitespace(s[..|s| - |TrimStart(s)|])
  {
    var before := s[..|s| - |TrimStart(s)|];
    forall i | 0 <= i < |before| ensures IsJsWhitespace(before[i]) {
      assert before[i] == s[i];
    }
  }

  /** What `TrimEnd` cuts off is white space. */
  lemma TrimCutsWhitespaceAfter(t: string)
    ensures AllWhitespace(t[|TrimEnd(t)|..])
  {
    var after := t[|TrimEnd(t)|..];
    forall i | 0 <= i < |after| ensures IsJsWhitespace(after[i]) {
      assert after[i] == t[|TrimEnd(t)| + i];
    }
  }

  /** `!s.trim()`: the trimmed string is the empty, falsy, string. */
  predicate IsBlank(s: string) {
    Trim(s) == []
  }

  /** `xs.join(sep)`: the elements with `sep` between neighbours, `""` for no elements. */
  function Join(xs: seq<string>, sep: string): (r: string)
    ensures xs == [] ==> r == []
    ensures |xs| == 1 ==> r == xs[0]
  {
    if |xs| == 0 then []
    else if |xs| == 1 then xs[0]
    else xs[0] + sep + Join(xs[1..], sep)
  }

  /** `t` occurs in `s` as a contiguous piece. */
  predicate Occurs(t: string, s: string)
    decreases |s|
  {
    t <= s || (|s| > 0 && Occurs(t, s[1..]))
  }

  lemma {:induction false} OccursAt(t: string, s: string, k: nat)
    requires k + |t| <= |s| && s[k..k + |t|] == t
    ensures Occurs(t, s)
    decreases k
  {
    if k == 0 {
      assert t == s[..|t|];
    } else {
      assert s[1..][k - 1..k - 1 + |t|] == s[k..k + |t|];
      OccursAt(t, s[1..], k - 1);
    }
  }

  /** Occurring in a piece means occurring in any string the piece is glued into. */
  lemma OccursInConcat(t: string, a: string, m: string, b: string)
    requires Occurs(t, m)
    ensures Occurs(t, a + m + b)
  {
    var k := OccursWitness(t, m);
    assert (a + m + b)[|a| + k..|a| + k + |t|] == m[k..k + |t|];
    OccursAt(t, a + m + b, |a| + k);
  }

  lemma {:induction false} OccursWitness(t: string, s: string) returns (k: nat)
    requires Occurs(t, s)
    ensures k + |t| <= |s| && s[k..k + |t|] == t
    decreases |s|
  {
    if t <= s {
      k := 0;
    } else {
      var k' := OccursWitness(t, s[1..]);
      k := k' + 1;
      assert s[1..][k'..k' + |t|] == s[k..k + |t|];
    }
  }

  /** Every element of a list shows up in its join, whatever the separator. */
  lemma {:induction false} JoinMentionsEach(xs: seq<string>, sep: string, k: nat)
    requires k < |xs|
    ensures Occurs(xs[k], Join(xs, sep))
    decreases |xs|
  {
    if |xs| == 1 {
      OccursAt(xs[0], xs[0], 0);
    } else if k == 0 {
      OccursAt(xs[0], Join(xs, sep), 0);
    } else {
      JoinMentionsEach(xs[1..], sep, k - 1);
      OccursInConcat(xs[k], xs[0] + sep, Join(xs[1..], sep), []);
      assert xs[0] + sep + Join(xs[1..], sep) + [] == Join(xs, sep);
    }
  }

  /** `s.split(c)`: the pieces between occurrences of `c`; there is always one piece, and more exactly when `c` occurs. */
  function Split(s: string, c: char): (r: seq<string>)
    ensures |r| >= 1
    ensures |r| == 1 <==> c !in s
    ensures forall i :: 0 <= i < |r| ==> c !in r[i]
  {
    if |s| == 0 then [[]]
    else
      var rest := Split(s[1..], c);
      if s[0] == c then [[]] + rest
      else [[s[0]] + rest[0]] + rest[1..]
  }

  /** Joining the pieces with the separator gives back the string. */
  lemma {:induction false} JoinSplit(s: string, c: char)
    ensures Join(Split(s, c), [c]) == s
    decreases |s|
  {
    if |s| > 0 {
      var rest := Split(s[1..], c);
      JoinSplit(s[1..], c);
      if s[0] == c {
        assert Split(s, c) == [[]] + rest;
        assert ([[]] + rest)[1..] == rest;
      } else {
        var r := [[s[0]] + rest[0]] + rest[1..];
        assert Split(s, c) == r;
        if |rest| == 1 {
          assert |r| == 1;
        } else {
          assert r[1..] == rest[1..];
          assert Join(rest, [c]) == rest[0] + [c] + Join(rest[1..], [c]);
        }
      }
    }
  }

  /** A string without the separator splits into itself alone. */
  lemma {:induction false} SplitWithout(a: string, c: char)
    requires c !in a
    ensures Split(a, c) == [a]
    decreases |a|
  {
    if |a| > 0 {
      SplitWithout(a[1..], c);
      assert [a[0]] + a[1..] == a;
    }
  }

  /** The first piece ends at the first separator, and the rest is split on its own. */
  lemma {:induction false} SplitAtFirst(a: string, b: string, c: char)
    requires c !in a
    ensures Split(a + [c] + b, c) == [a] + Split(b, c)
    decreases |a|
  {
    var s := a + [c] + b;
    if |a| == 0 {
      assert s[1..] == b;
    } else {
      assert s[1..] == a[1..] + [c] + b;
      SplitAtFirst(a[1..], b, c);
      assert [a[0]] + a[1..] == a;
    }
  }
}
