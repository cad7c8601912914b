/** The few functions of Go's `strings` package that the locator parser uses
    (`Index`, `Contains`, `Split`), over strings taken as character sequences,
    together with `Join`, the inverse that `Split` is proved against. */
module GoStrings {

  /** `sep` occurs in `s` at position `k`. */
  predicate OccursAt(s: string, sep: string, k: int)
  {
    0 <= k && k + |sep| <= |s| && s[k..k + |sep|] == sep
  }

  /** An occurrence at position 0 is a prefix, and moving one character into
      the string shifts every later occurrence by one. */
  lemma OccursAtTail(s: string, sep: string)
    requires |s| > 0
    ensures OccursAt(s, sep, 0) <==> sep <= s
    ensures forall k :: 1 <= k ==> (OccursAt(s, sep, k) <==> OccursAt(s[1..], sep, k - 1))
  {
    forall k | 1 <= k
      ensures OccursAt(s, sep, k) <==> OccursAt(s[1..], sep, k - 1)
    {
      if k + |sep| <= |s| {
        var x, y := s[k..k + |sep|], s[1..][k - 1..k - 1 + |sep|];
        assert |x| == |y|;
        forall j | 0 <= j < |x| ensures x[j] == y[j] {
          assert x[j] == s[k + j];
          assert y[j] == s[1..][k - 1 + j];
        }
        assert x == y;
      }
    }
  }

  /** An occurrence inside a prefix is an occurrence in the whole string
      that ends within the prefix. */
  lemma OccursInPrefix(s: string, sep: string, n: int, k: int)
    requires 0 <= n <= |s|
    requires OccursAt(s[..n], sep, k)
    ensures OccursAt(s, sep, k) && k + |sep| <= n
  {
    assert s[..n][k..k + |sep|] == s[k..k + |sep|];
  }

  /** `strings.Index(s, sep)`: the position of the first occurrence of `sep`
      in `s`, or -1 when there is none. */
  function Index(s: string, sep: string): (i: int)
    ensures i == -1 || OccursAt(s, sep, i)
    ensures forall k :: 0 <= k && (i == -1 || k < i) ==> !OccursAt(s, sep, k)
    decreases |s|
  {
    if sep <= s then 0
    else if |s| == 0 then -1
    else
      OccursAtTail(s, sep);
      var j := Index(s[1..], sep);
      if j == -1 then -1 else j + 1
  }

  /** `strings.Contains(s, sep)`, which Go defines as `Index(s, sep) >= 0`. */
  predicate Contains(s: string, sep: string)
  {
    Index(s, sep) >= 0
  }

  /** Containment is the existence of an occurrence. */
  lemma ContainsIff(s: string, sep: string)
    ensures Contains(s, sep) <==> exists k :: OccursAt(s, sep, k)
  {
    if !Contains(s, sep) {
      forall k ensures !OccursAt(s, sep, k) { }
    }
  }

  /** `strings.Split(s, sep)` for a non-empty separator: the pieces of `s`
      between the successive non-overlapping occurrences of `sep`, found
      from left to right. */
  function Split(s: string, sep: string): (parts: seq<string>)
    requires |sep| > 0
    ensures |parts| >= 1
    ensures |parts| > 1 <==> Contains(s, sep)
    ensures forall p :: p in parts ==> !Contains(p, sep)
    decreases |s|
  {
    var i := Index(s, sep);
    if i < 0 then [s]
    else
      var head := s[..i];
      assert !Contains(head, sep) by {
        if Contains(head, sep) {
          OccursInPrefix(s, sep, i, Index(head, sep));
          assert false;
        }
      }
      [head] + Split(s[i + |sep|..], sep)
  }

  /** `strings.Join(parts, sep)`. */
  function Join(parts: seq<string>, sep: string): (s: string)
  {
    if |parts| == 0 then ""
    else if |parts| == 1 then parts[0]
    else parts[0] + sep + Join(parts[1..], sep)
  }

  /** Joining a piece in front of at least one more puts a separator between. */
  lemma JoinCons(head: string, tail: seq<string>, sep: string)
    requires |tail| >= 1
    ensures Join([head] + tail, sep) == head + sep + Join(tail, sep)
  {
    assert ([head] + tail)[1..] == tail;
  }

  /** A string is its three consecutive slices put together. */
  lemma Reassemble(s: string, i: int, j: int)
    requires 0 <= i <= j <= |s|
    ensures s == s[..i] + s[i..j] + s[j..]
  {
  }

  /** Joining the pieces back with the separator gives the original string. */
  lemma {:induction false} JoinSplit(s: string, sep: string)
    requires |sep| > 0
    ensures Join(Split(s, sep), sep) == s
    decreases |s|
  {
    var i := Index(s, sep);
    if i >= 0 {
      var head, rest := s[..i], s[i + |sep|..];
      var tail := Split(rest, sep);
      JoinSplit(rest, sep);
      JoinCons(head, tail, sep);
      Reassemble(s, i, i + |sep|);
    }
  }

  /** The first piece is the prefix of `s` before the first separator: no
      separator starts inside it, and it either is all of `s` or stops where
      a separator starts. */
  lemma FirstPiece(s: string, sep: string)
    requires |sep| > 0
    ensures var p := Split(s, sep)[0];
      && p <= s
      && (forall k :: 0 <= k < |p| ==> !OccursAt(s, sep, k))
      && (|p| == |s| || OccursAt(s, sep, |p|))
  {
  }

  /** The second piece, when there is one, is the first piece of what
      follows the first separator. */
  lemma SecondPiece(s: string, sep: string)
    requires |sep| > 0
    requires Contains(s, sep)
    ensures Split(s, sep)[1] == Split(s[Index(s, sep) + |sep|..], sep)[0]
  {
  }

  /** `r` is the prefix of `s` up to the first place where `a` or `b` starts
      (all of `s` when neither occurs). */
  predicate CutBefore(r: string, s: string, a: string, b: string)
  {
    && r <= s
    && (forall k :: 0 <= k < |r| ==> !OccursAt(s, a, k) && !OccursAt(s, b, k))
    && (|r| == |s| || OccursAt(s, a, |r|) || OccursAt(s, b, |r|))
  }

  /** The cut is determined by the string and the two separators. */
  lemma CutUnique(r1: string, r2: string, s: string, a: string, b: string)
    requires CutBefore(r1, s, a, b) && CutBefore(r2, s, a, b)
    ensures r1 == r2
  {
    assert r1 == s[..|r1|] && r2 == s[..|r2|];
  }

  /** Neither separator occurs inside the cut. */
  lemma CutAvoids(r: string, s: string, a: string, b: string)
    requires |a| > 0 && |b| > 0
    requires CutBefore(r, s, a, b)
    ensures !Contains(r, a) && !Contains(r, b)
  {
    assert r == s[..|r|];
    if Contains(r, a) {
      OccursInPrefix(s, a, |r|, Index(r, a));
      assert false;
    }
    if Contains(r, b) {
      OccursInPrefix(s, b, |r|, Index(r, b));
      assert false;
    }
  }

  /** Splitting at `outer`, keeping the first piece, then splitting that at a
      one-character `inner` and keeping the first piece, cuts `s` before the
      first place where either separator starts. */
  lemma TwoCuts(s: string, outer: string, inner: string)
    requires |outer| > 0 && |inner| == 1
    ensures CutBefore(Split(Split(s, outer)[0], inner)[0], s, outer, inner)
  {
    var q := Split(s, outer)[0];
    var r := Split(q, inner)[0];
    FirstPiece(s, outer);
    FirstPiece(q, inner);
    assert q == s[..|q|];
    assert r == q[..|r|];
    forall k | 0 <= k < |r|
      ensures !OccursAt(s, inner, k)
    {
      assert s[k..k + |inner|] == q[k..k + |inner|];
      assert OccursAt(s, inner, k) == OccursAt(q, inner, k);
    }
    if |r| < |q| {
      assert OccursAt(q, inner, |r|);
      assert s[|r|..|r| + 1] == q[|r|..|r| + 1];
    }
  }
}
