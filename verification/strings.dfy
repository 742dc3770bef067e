/** The string operations the gateway performs: Python's `str.split` with a
    one-character separator and `str.lower` on query parameters, and the joining of
    pieces with a separator that its formatted strings perform when building URLs. */
module Strings {

  /** Number of occurrences of `d` in `s`. */
  function Count(s: string, d: char): nat
  {
    if |s| == 0 then 0 else (if s[0] == d then 1 else 0) + Count(s[1..], d)
  }

  /** `s.split(d)`: the maximal separator-free pieces of `s`, empty pieces included,
      so `"".split(d)` is `[""]` and there is one more piece than there are separators. */
  function Split(s: string, d: char): (r: seq<string>)
    ensures |r| == Count(s, d) + 1
    ensures forall i :: 0 <= i < |r| ==> d !in r[i]
  {
    if |s| == 0 then [""]
    else
      var rest := Split(s[1..], d);
      if s[0] == d then [""] + rest
      else [[s[0]] + rest[0]] + rest[1..]
  }

  /** The pieces written one after another with `d` between them. */
  function Join(ps: seq<string>, d: char): string
    requires |ps| > 0
  {
    if |ps| == 1 then ps[0] else ps[0] + [d] + Join(ps[1..], d)
  }

  /** Joining the pieces of a split with the same separator gives back the string. */
  lemma {:induction false} JoinOfSplit(s: string, d: char)
    ensures Join(Split(s, d), d) == s
  {
    if |s| > 0 {
      var rest := Split(s[1..], d);
      JoinOfSplit(s[1..], d);
      if s[0] == d {
        assert Split(s, d) == [""] + rest;
        assert ([""] + rest)[1..] == rest;
        assert Join(Split(s, d), d) == [d] + s[1..];
      } else {
        var ps := [[s[0]] + rest[0]] + rest[1..];
        assert Split(s, d) == ps;
        if |rest| == 1 {
          assert Join(ps, d) == [s[0]] + Join(rest, d);
        } else {
          assert ps[1..] == rest[1..];
          assert Join(ps, d) == [s[0]] + (rest[0] + [d] + Join(rest[1..], d));
          assert Join(ps, d) == [s[0]] + Join(rest, d);
        }
        assert s == [s[0]] + s[1..];
      }
    }
  }

  /** A separator-free string splits into itself alone. */
  lemma {:induction false} SplitOfPiece(p: string, d: char)
    requires d !in p
    ensures Split(p, d) == [p]
  {
    if |p| > 0 {
      assert d !in p[1..] by {
        forall k | 0 <= k < |p[1..]| ensures p[1..][k] != d {
          assert p[1..][k] == p[k + 1];
        }
      }
      SplitOfPiece(p[1..], d);
      assert p == [p[0]] + p[1..];
    }
  }

  /** A separator-free piece followed by the separator splits off as the first piece. */
  lemma {:induction false} SplitAfterPiece(p: string, rest: string, d: char)
    requires d !in p
    ensures Split(p + [d] + rest, d) == [p] + Split(rest, d)
  {
    var s := p + [d] + rest;
    if |p| == 0 {
      assert s == [d] + rest;
      assert s[1..] == rest;
    } else {
      assert s[1..] == p[1..] + [d] + rest;
      assert d !in p[1..] by {
        forall k | 0 <= k < |p[1..]| ensures p[1..][k] != d {
          assert p[1..][k] == p[k + 1];
        }
      }
      SplitAfterPiece(p[1..], rest, d);
      assert s[0] == p[0];
      assert [p[0]] + p[1..] == p;
    }
  }

  /** Splitting a join of separator-free pieces gives back the pieces. */
  lemma {:induction false} SplitOfJoin(ps: seq<string>, d: char)
    requires |ps| > 0
    requires forall i :: 0 <= i < |ps| ==> d !in ps[i]
    ensures Split(Join(ps, d), d) == ps
  {
    if |ps| == 1 {
      SplitOfPiece(ps[0], d);
    } else {
      SplitOfJoin(ps[1..], d);
      SplitAfterPiece(ps[0], Join(ps[1..], d), d);
      assert [ps[0]] + ps[1..] == ps;
    }
  }

  /** Lower case for the ASCII letters; every other character is left as it is. */
  function LowerChar(c: char): char
  {
    if 'A' <= c <= 'Z' then (c as int - 'A' as int + 'a' as int) as char else c
  }

  /** Python's lower-casing of a string, character by character. */
  function Lower(s: string): (r: string)
    ensures |r| == |s|
    ensures forall i :: 0 <= i < |s| ==> r[i] == LowerChar(s[i])
  {
    seq(|s|, i requires 0 <= i < |s| => LowerChar(s[i]))
  }

  /** `s` spells the word "true" with each letter in either case. */
  predicate SpellsTrue(s: string)
  {
    |s| == 4 && forall i :: 0 <= i < 4 ==> s[i] == "true"[i] || s[i] == "TRUE"[i]
  }

  /** Lower-casing yields "true" exactly for the sixteen case variants of "true". */
  lemma LowerIsTrueIff(s: string)
    ensures Lower(s) == "true" <==> SpellsTrue(s)
  {
    if Lower(s) == "true" {
      forall i | 0 <= i < 4 ensures s[i] == "true"[i] || s[i] == "TRUE"[i] {
        assert LowerChar(s[i]) == "true"[i];
      }
    }
    if SpellsTrue(s) {
      assert forall i :: 0 <= i < 4 ==> Lower(s)[i] == "true"[i];
    }
  }
}
