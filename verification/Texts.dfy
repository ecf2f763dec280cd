/** Splitting and joining of strings, as Python does it. */
module Texts {

  /** The separator stands at index i. */
  predicate At(s: string, i: int, sep: string) {
    0 <= i && i + |sep| <= |s| && s[i..i + |sep|] == sep
  }

  predicate Contains(s: string, sep: string) {
    exists i :: 0 <= i <= |s| && At(s, i, sep)
  }

  /** The first index from k on where the separator stands, or -1. */
  function FindFrom(s: string, sep: string, k: nat): (i: int)
    requires k <= |s|
    ensures i == -1 || (k <= i && At(s, i, sep))
    ensures forall j :: k <= j <= |s| && (i == -1 || j < i) ==> !At(s, j, sep)
    decreases |s| - k
  {
    if At(s, k, sep) then k else if k == |s| then -1 else FindFrom(s, sep, k + 1)
  }

  /** `split`: there is always at least one piece. */
  function Split(s: string, sep: string): (pieces: seq<string>)
    requires |sep| > 0
    ensures |pieces| > 0
    decreases |s|
  {
    var i := FindFrom(s, sep, 0);
    if i < 0 then [s] else [s[..i]] + Split(s[i + |sep|..], sep)
  }

  /** `join`. */
  function Join(pieces: seq<string>, sep: string): string {
    if pieces == [] then "" else if |pieces| == 1 then pieces[0] else pieces[0] + sep + Join(pieces[1..], sep)
  }

  // ------------------------------------------------------------------------------------------------ where it stands

  lemma AtLeft(a: string, b: string, i: int, sep: string)
    requires 0 <= i && i + |sep| <= |a|
    ensures At(a + b, i, sep) <==> At(a, i, sep)
  {
    assert (a + b)[i..i + |sep|] == a[i..i + |sep|];
  }

  lemma AtRight(a: string, b: string, i: int, sep: string)
    requires |a| <= i && i + |sep| <= |a + b|
    ensures At(a + b, i, sep) <==> At(b, i - |a|, sep)
  {
    assert (a + b)[i..i + |sep|] == b[i - |a|..i - |a| + |sep|];
  }

  /** The first separator in a + sep + b is the one in the middle exactly when it is not already in a and the beginning
      of the separator. */
  lemma FirstIsMiddle(a: string, sep: string, b: string)
    requires |sep| > 0
    ensures FindFrom(a + sep + b, sep, 0) == |a| <==> !Contains(a + sep[..|sep| - 1], sep)
  {
    var s, short := a + sep + b, a + sep[..|sep| - 1];
    var rest := sep[|sep| - 1..] + b;
    assert s == short + rest;
    assert s[|a|..|a| + |sep|] == sep;
    forall j | 0 <= j < |a| ensures At(s, j, sep) <==> At(short, j, sep) {
      AtLeft(short, rest, j, sep);
    }
    assert At(s, |a|, sep);
    var f := FindFrom(s, sep, 0);
    assert 0 <= f <= |a|;
    if Contains(short, sep) {
      var j :| 0 <= j <= |short| && At(short, j, sep);
      assert j < |a| && At(s, j, sep);
    } else {
      assert f < |a| ==> At(s, f, sep);
    }
  }

  /** A separator does not reach over a text that has no character of it. */
  lemma NotAcross(a: string, middle: string, b: string, sep: string)
    requires |sep| > 0 && |middle| > 0 && forall c :: c in middle ==> c !in sep
    ensures Contains(a + middle + b, sep) <==> Contains(a, sep) || Contains(b, sep)
  {
    var s := a + middle + b;
    if Contains(a, sep) {
      var i :| 0 <= i <= |a| && At(a, i, sep);
      AtLeft(a, middle + b, i, sep);
      assert a + (middle + b) == s && At(s, i, sep);
    }
    if Contains(b, sep) {
      var i :| 0 <= i <= |b| && At(b, i, sep);
      AtRight(a + middle, b, i + |a + middle|, sep);
      assert At(s, i + |a + middle|, sep);
    }
    if Contains(s, sep) {
      var i :| 0 <= i <= |s| && At(s, i, sep);
      if i + |sep| <= |a| {
        AtLeft(a, middle + b, i, sep);
        assert a + (middle + b) == s && At(a, i, sep);
      } else if i >= |a + middle| {
        AtRight(a + middle, b, i, sep);
        assert At(b, i - |a + middle|, sep);
      } else {
        Crossing(a, middle, b, sep, i);
      }
    }
  }

  lemma Crossing(a: string, middle: string, b: string, sep: string, i: int)
    requires At(a + middle + b, i, sep) && |sep| > 0 && |middle| > 0 && i + |sep| > |a| && i < |a + middle|
    ensures exists c :: c in middle && c in sep
  {
    var s := a + middle + b;
    var k := if i >= |a| then i else |a|;
    assert s[k] == middle[k - |a|];
    assert s[i..i + |sep|][k - i] == s[k] && sep[k - i] == s[k];
    assert middle[k - |a|] in middle && sep[k - i] in sep;
  }

  /** Appending the beginning of a separator in which no character repeats does not complete it. */
  lemma NoRepeat(s: string, sep: string)
    requires |sep| == 2 && sep[0] != sep[1]
    ensures Contains(s + sep[..1], sep) <==> Contains(s, sep)
  {
    var t := s + sep[..1];
    if Contains(t, sep) {
      var i :| 0 <= i <= |t| && At(t, i, sep);
      assert t[i..i + 2][1] == t[i + 1] && t[|s|] == sep[0];
      AtLeft(s, sep[..1], i, sep);
    }
    if Contains(s, sep) {
      var i :| 0 <= i <= |s| && At(s, i, sep);
      AtLeft(s, sep[..1], i, sep);
    }
  }

  // --------------------------------------------------------------------------------------------- split undoes join

  /** The pieces can be told apart in the joined text. */
  predicate Separable(pieces: seq<string>, sep: string)
    requires |sep| > 0
  {
    && |pieces| > 0 && !Contains(pieces[|pieces| - 1], sep)
    && forall i :: 0 <= i < |pieces| - 1 ==> !Contains(pieces[i] + sep[..|sep| - 1], sep)
  }

  lemma FindNone(s: string, sep: string)
    ensures FindFrom(s, sep, 0) == -1 <==> !Contains(s, sep)
  {
  }

  lemma {:induction false} SplitJoin(pieces: seq<string>, sep: string)
    requires |sep| > 0 && Separable(pieces, sep)
    ensures Split(Join(pieces, sep), sep) == pieces
    decreases |pieces|
  {
    if |pieces| == 1 {
      FindNone(pieces[0], sep);
    } else {
      var a, rest := pieces[0], Join(pieces[1..], sep);
      var s := a + sep + rest;
      FirstIsMiddle(a, sep, rest);
      assert !Contains(a + sep[..|sep| - 1], sep);
      assert s[..|a|] == a && s[|a| + |sep|..] == rest;
      SplitJoin(pieces[1..], sep);
      assert pieces == [a] + pieces[1..];
    }
  }

  /** The two steps of a split. */
  lemma SplitStep(s: string, sep: string)
    requires |sep| > 0
    ensures var i := FindFrom(s, sep, 0);
      if i < 0 then !Contains(s, sep) && Split(s, sep) == [s]
      else s == s[..i] + sep + s[i + |sep|..] && Split(s, sep) == [s[..i]] + Split(s[i + |sep|..], sep)
           && !Contains(s[..i] + sep[..|sep| - 1], sep)
  {
    var i := FindFrom(s, sep, 0);
    if i < 0 {
      FindNone(s, sep);
    } else {
      assert s == s[..i] + sep + s[i + |sep|..];
      FirstIsMiddle(s[..i], sep, s[i + |sep|..]);
    }
  }

  /** Joining the pieces gives the text back. */
  lemma {:induction false} JoinSplit(s: string, sep: string)
    requires |sep| > 0
    ensures Join(Split(s, sep), sep) == s
    decreases |s|
  {
    SplitStep(s, sep);
    var i := FindFrom(s, sep, 0);
    if i >= 0 {
      JoinSplit(s[i + |sep|..], sep);
      assert Split(s, sep)[1..] == Split(s[i + |sep|..], sep);
    }
  }

  /** The pieces of a split are separable. */
  lemma {:induction false} SplitSeparates(s: string, sep: string)
    requires |sep| > 0
    ensures Separable(Split(s, sep), sep)
    decreases |s|
  {
    SplitStep(s, sep);
    var i := FindFrom(s, sep, 0);
    if i >= 0 {
      var rest := Split(s[i + |sep|..], sep);
      SplitSeparates(s[i + |sep|..], sep);
      assert Split(s, sep) == [s[..i]] + rest;
      SeparableMore(s[..i], rest, sep);
    }
  }

  lemma SeparableMore(a: string, rest: seq<string>, sep: string)
    requires |sep| > 0 && Separable(rest, sep) && !Contains(a + sep[..|sep| - 1], sep)
    ensures Separable([a] + rest, sep)
  {
    var pieces := [a] + rest;
    forall k | 0 <= k < |pieces| - 1 ensures !Contains(pieces[k] + sep[..|sep| - 1], sep) {
      assert k > 0 ==> pieces[k] == rest[k - 1];
    }
  }
}
