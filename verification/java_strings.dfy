/**
 Java's String.split(regex) for a regex that matches exactly one character
 from a fixed set (",", "=", "\\.|\\[", "\\]"). When nothing matches the
 result is the whole string; otherwise it is every piece between matches,
 leading empty piece included, with the trailing empty pieces removed.
 */
module JavaStrings {

  /** `s` holds no character of `delims`. */
  predicate Plain(s: string, delims: set<char>) {
    forall i :: 0 <= i < |s| ==> s[i] !in delims
  }

  /** Every piece between delimiters, empty ones included, in order. */
  function Pieces(s: string, delims: set<char>): (ps: seq<string>)
    ensures |ps| >= 1
    ensures forall k :: 0 <= k < |ps| ==> Plain(ps[k], delims)
    decreases |s|
  {
    if |s| == 0 then [""]
    else
      var rest := Pieces(s[1..], delims);
      if s[0] in delims then [""] + rest
      else [[s[0]] + rest[0]] + rest[1..]
  }

  /** Drops the empty strings at the end of `ps`. */
  function DropTrailingEmpty(ps: seq<string>): (r: seq<string>)
    ensures |r| <= |ps| && r == ps[..|r|]
    ensures r == [] || r[|r| - 1] != ""
    ensures forall k :: |r| <= k < |ps| ==> ps[k] == ""
    decreases |ps|
  {
    if ps == [] then []
    else if ps[|ps| - 1] == "" then DropTrailingEmpty(ps[..|ps| - 1])
    else ps
  }

  /** `s.split(regex)` where the regex matches one character of `delims`. */
  function Split(s: string, delims: set<char>): (r: seq<string>)
    ensures Plain(s, delims) ==> r == [s]
    ensures forall k :: 0 <= k < |r| ==> Plain(r[k], delims)
    ensures !Plain(s, delims) ==> |r| <= |Pieces(s, delims)| && r == Pieces(s, delims)[..|r|]
    ensures !Plain(s, delims) ==> forall k :: |r| <= k < |Pieces(s, delims)| ==> Pieces(s, delims)[k] == ""
    ensures !Plain(s, delims) ==> r == [] || r[|r| - 1] != ""
  {
    if Plain(s, delims) then [s] else DropTrailingEmpty(Pieces(s, delims))
  }

  /** The pieces written back with `d` between each two. */
  function Join(ps: seq<string>, d: char): string
    requires |ps| >= 1
    decreases |ps|
  {
    if |ps| == 1 then ps[0] else ps[0] + [d] + Join(ps[1..], d)
  }

  /** `n` copies of `d`. */
  function Repeat(d: char, n: nat): string
    decreases n
  {
    if n == 0 then [] else Repeat(d, n - 1) + [d]
  }

  // ---------------------------------------------------------------- lemmas

  /** Joining the pieces on their one delimiter gives back the string. */
  lemma {:induction false} PiecesJoin(s: string, d: char)
    ensures Join(Pieces(s, {d}), d) == s
    decreases |s|
  {
    if |s| > 0 {
      var rest := Pieces(s[1..], {d});
      PiecesJoin(s[1..], d);
      if s[0] == d {
        assert Pieces(s, {d}) == [""] + rest;
        assert ([""] + rest)[1..] == rest;
        assert [d] + s[1..] == s;
      } else {
        var ps := Pieces(s, {d});
        assert ps == [[s[0]] + rest[0]] + rest[1..];
        if |rest| == 1 {
          assert Join(ps, d) == [s[0]] + rest[0];
        } else {
          assert ps[1..] == rest[1..];
          assert Join(rest, d) == rest[0] + [d] + Join(rest[1..], d);
          assert Join(ps, d) == [s[0]] + rest[0] + [d] + Join(rest[1..], d);
        }
        assert [s[0]] + s[1..] == s;
      }
    }
  }

  lemma PlainConcat(a: string, b: string, delims: set<char>)
    ensures Plain(a + b, delims) <==> Plain(a, delims) && Plain(b, delims)
  {
    if Plain(a, delims) && Plain(b, delims) {
      forall i | 0 <= i < |a + b|
        ensures (a + b)[i] !in delims
      {
        if i >= |a| {
          assert (a + b)[i] == b[i - |a|];
        }
      }
    }
    if Plain(a + b, delims) {
      forall i | 0 <= i < |a|
        ensures a[i] !in delims
      {
        assert (a + b)[i] == a[i];
      }
      forall i | 0 <= i < |b|
        ensures b[i] !in delims
      {
        assert (a + b)[|a| + i] == b[i];
      }
    }
  }

  /** A string without delimiters is a single piece. */
  lemma {:induction false} PiecesOfPlain(a: string, delims: set<char>)
    requires Plain(a, delims)
    ensures Pieces(a, delims) == [a]
    decreases |a|
  {
    if |a| > 0 {
      PiecesOfPlain(a[1..], delims);
      assert [a[0]] + a[1..] == a;
    }
  }

  /** Pieces after a first delimiter: the plain head, then the tail's pieces. */
  lemma {:induction false} PiecesAfter(a: string, c: char, b: string, delims: set<char>)
    requires Plain(a, delims) && c in delims
    ensures Pieces(a + [c] + b, delims) == [a] + Pieces(b, delims)
    decreases |a|
  {
    if |a| == 0 {
      assert a + [c] + b == [c] + b;
      assert ([c] + b)[1..] == b;
    } else {
      var s := a + [c] + b;
      assert s[0] == a[0];
      assert s[1..] == a[1..] + [c] + b;
      PiecesAfter(a[1..], c, b, delims);
      assert [a[0]] + a[1..] == a;
    }
  }

  /** The pieces of a string free of `other` are free of `other` too. */
  lemma {:induction false} PiecesInherit(s: string, delims: set<char>, other: set<char>)
    requires Plain(s, other)
    ensures forall k :: 0 <= k < |Pieces(s, delims)| ==> Plain(Pieces(s, delims)[k], other)
    decreases |s|
  {
    if |s| > 0 {
      PiecesInherit(s[1..], delims, other);
      var rest := Pieces(s[1..], delims);
      if s[0] !in delims {
        PlainConcat([s[0]], rest[0], other);
      }
    }
  }

  /** Split pieces of a string free of `other` are free of `other` too. */
  lemma SplitInherits(s: string, delims: set<char>, other: set<char>)
    requires Plain(s, other)
    ensures forall k :: 0 <= k < |Split(s, delims)| ==> Plain(Split(s, delims)[k], other)
  {
    if !Plain(s, delims) {
      PiecesInherit(s, delims, other);
    }
  }

  /** `a ⟨c⟩ b` with both sides plain and `b` non-empty splits into [a, b]. */
  lemma SplitTwo(a: string, c: char, b: string, delims: set<char>)
    requires Plain(a, delims) && Plain(b, delims) && c in delims && b != ""
    ensures Split(a + [c] + b, delims) == [a, b]
  {
    var s := a + [c] + b;
    assert s[|a|] == c;
    PiecesAfter(a, c, b, delims);
    PiecesOfPlain(b, delims);
  }

  /** `a ⟨c⟩` with `a` plain and non-empty splits into [a]. */
  lemma SplitTrailing(a: string, c: char, delims: set<char>)
    requires Plain(a, delims) && c in delims && a != ""
    ensures Split(a + [c], delims) == [a]
  {
    var s := a + [c];
    assert s[|a|] == c;
    assert s == a + [c] + "";
    PiecesAfter(a, c, "", delims);
    assert Pieces(s, delims) == [a, ""];
    assert DropTrailingEmpty([a, ""]) == DropTrailingEmpty([a]);
  }

  /** `a ⟨c⟩ b ⟨d⟩ e`, all three plain and `e` non-empty, splits into [a, b, e]. */
  lemma SplitThree(a: string, c: char, b: string, d: char, e: string, delims: set<char>)
    requires Plain(a, delims) && Plain(b, delims) && Plain(e, delims)
    requires c in delims && d in delims && e != ""
    ensures Split(a + [c] + b + [d] + e, delims) == [a, b, e]
  {
    var s := a + [c] + b + [d] + e;
    assert s == a + [c] + (b + [d] + e);
    assert s[|a|] == c;
    PiecesAfter(a, c, b + [d] + e, delims);
    PiecesAfter(b, d, e, delims);
    PiecesOfPlain(e, delims);
  }

  lemma {:induction false} JoinAppendEmpty(ps: seq<string>, d: char)
    requires |ps| >= 1
    ensures Join(ps + [""], d) == Join(ps, d) + [d]
    decreases |ps|
  {
    if |ps| == 1 {
      assert (ps + [""])[1..] == [""];
    } else {
      assert (ps + [""])[1..] == ps[1..] + [""];
      JoinAppendEmpty(ps[1..], d);
    }
  }

  /** Dropping the trailing empty pieces drops one delimiter per piece. */
  lemma {:induction false} JoinDropped(ps: seq<string>, d: char)
    requires |ps| >= 1
    ensures DropTrailingEmpty(ps) != [] ==>
      Join(ps, d) == Join(DropTrailingEmpty(ps), d) + Repeat(d, |ps| - |DropTrailingEmpty(ps)|)
    ensures DropTrailingEmpty(ps) == [] ==> Join(ps, d) == Repeat(d, |ps| - 1)
    decreases |ps|
  {
    if ps[|ps| - 1] == "" && |ps| > 1 {
      var q := ps[..|ps| - 1];
      assert ps == q + [""];
      JoinDropped(q, d);
      JoinAppendEmpty(q, d);
    }
  }

  /**
   The split pieces, joined on their delimiter, give back the string up to
   the run of delimiters at its end that produced the dropped empty pieces.
   */
  lemma SplitJoin(s: string, d: char)
    ensures Split(s, {d}) != [] ==>
      s == Join(Split(s, {d}), d) + Repeat(d, |Pieces(s, {d})| - |Split(s, {d})|)
    ensures Split(s, {d}) == [] ==> s == Repeat(d, |Pieces(s, {d})| - 1)
  {
    if Plain(s, {d}) {
      PiecesOfPlain(s, {d});
    } else {
      PiecesJoin(s, d);
      JoinDropped(Pieces(s, {d}), d);
    }
  }
}
