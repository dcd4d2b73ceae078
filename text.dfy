/**
 * The two string operations the record index is persisted with:
 * `Array.prototype.join` and `String.prototype.split`, both with a
 * one-character separator.
 */
module Text {

  /** `s.split(d)`: the pieces of `s` between occurrences of `d`, in order. */
  function Split(s: string, d: char): (r: seq<string>)
    ensures |r| >= 1
    ensures FreeOf(r, d)
  {
    if |s| == 0 then [""]
    else
      var rest := Split(s[1..], d);
      if s[0] == d then [""] + rest
      else [[s[0]] + rest[0]] + rest[1..]
  }

  /** `xs.join(d)`: the elements of `xs` with `d` between neighbours. */
  function Join(xs: seq<string>, d: char): (r: string)
    ensures |xs| >= 1 ==> |r| >= |xs[0]| && r[..|xs[0]|] == xs[0]
    ensures |xs| >= 2 ==> |r| > |xs[0]| && r[|xs[0]|] == d
  {
    if |xs| == 0 then ""
    else if |xs| == 1 then xs[0]
    else xs[0] + [d] + Join(xs[1..], d)
  }

  /** No element of `xs` contains the separator `d`. */
  predicate FreeOf(xs: seq<string>, d: char)
  {
    forall i :: 0 <= i < |xs| ==> d !in xs[i]
  }

  lemma {:induction false} SplitWithoutSeparator(a: string, d: char)
    requires d !in a
    ensures Split(a, d) == [a]
  {
    if |a| > 0 {
      SplitWithoutSeparator(a[1..], d);
      assert [a[0]] + a[1..] == a;
    }
  }

  /** Splitting `a + [d] + b` yields the piece `a` followed by the pieces of `b`. */
  lemma {:induction false} SplitAfterPiece(a: string, d: char, b: string)
    requires d !in a
    ensures Split(a + [d] + b, d) == [a] + Split(b, d)
  {
    var s := a + [d] + b;
    if |a| == 0 {
      assert s[0] == d && s[1..] == b;
    } else {
      assert s[0] == a[0] && s[0] != d;
      assert s[1..] == a[1..] + [d] + b;
      SplitAfterPiece(a[1..], d, b);
      assert [a[0]] + a[1..] == a;
    }
  }

  /**
   * Join then split is the identity exactly on the non-empty lists whose
   * elements do not contain the separator.
   */
  lemma {:induction false} SplitJoin(xs: seq<string>, d: char)
    ensures Split(Join(xs, d), d) == xs <==> |xs| >= 1 && FreeOf(xs, d)
  {
    if |xs| >= 1 && FreeOf(xs, d) {
      if |xs| == 1 {
        SplitWithoutSeparator(xs[0], d);
      } else {
        SplitJoin(xs[1..], d);
        SplitAfterPiece(xs[0], d, Join(xs[1..], d));
        assert [xs[0]] + xs[1..] == xs;
      }
    }
  }

  /** Split then join is the identity on every string. */
  lemma {:induction false} JoinSplit(s: string, d: char)
    ensures Join(Split(s, d), d) == s
  {
    if |s| > 0 {
      var rest := Split(s[1..], d);
      JoinSplit(s[1..], d);
      if s[0] == d {
        var r := [""] + rest;
        assert r[1..] == rest;
        assert Join(r, d) == "" + [d] + Join(rest, d);
        assert [s[0]] + s[1..] == s;
      } else {
        var r := [[s[0]] + rest[0]] + rest[1..];
        if |rest| == 1 {
          assert Join(r, d) == [s[0]] + rest[0];
        } else {
          assert r[1..] == rest[1..];
          assert Join(rest, d) == rest[0] + [d] + Join(rest[1..], d);
          assert Join(r, d) == [s[0]] + rest[0] + [d] + Join(rest[1..], d);
        }
        assert [s[0]] + s[1..] == s;
      }
    }
  }

  /** The joined text is empty exactly for `[]` and `[""]`. */
  lemma JoinEmpty(xs: seq<string>, d: char)
    ensures Join(xs, d) == "" <==> xs == [] || xs == [""]
  {
    if |xs| == 1 {
      assert xs == [xs[0]];
    }
  }
}
