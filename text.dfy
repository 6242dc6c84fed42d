/** The pieces of Go's `strings` package that the gateway and its configuration use. */
module Text {

  /** `sub` occurs in `s` starting at index `i`. */
  predicate OccursAt(s: string, sub: string, i: int)
  {
    0 <= i && i + |sub| <= |s| && s[i..i + |sub|] == sub
  }

  /** Scans `s` from index `k` for an occurrence of `sub`. */
  function ContainsFrom(s: string, sub: string, k: nat): bool
    decreases |s| - k
  {
    if k + |sub| > |s| then false
    else if s[k..k + |sub|] == sub then true
    else ContainsFrom(s, sub, k + 1)
  }

  /** `strings.Contains(s, sub)`. */
  function Contains(s: string, sub: string): bool
  {
    ContainsFrom(s, sub, 0)
  }

  lemma {:induction false} ContainsFromMeansOccurs(s: string, sub: string, k: nat)
    ensures ContainsFrom(s, sub, k) <==> exists i :: k <= i && OccursAt(s, sub, i)
    decreases |s| - k
  {
    if k + |sub| > |s| {
    } else if s[k..k + |sub|] == sub {
      assert OccursAt(s, sub, k);
    } else {
      ContainsFromMeansOccurs(s, sub, k + 1);
      assert !OccursAt(s, sub, k);
      assert forall i :: k <= i && OccursAt(s, sub, i) ==> k + 1 <= i;
    }
  }

  /** `Contains` is exactly "occurs somewhere", in both directions. */
  lemma ContainsMeansOccurs(s: string, sub: string)
    ensures Contains(s, sub) <==> exists i :: OccursAt(s, sub, i)
  {
    ContainsFromMeansOccurs(s, sub, 0);
  }

  /** Number of occurrences of character `c` in `s`. */
  function Count(s: string, c: char): (n: nat)
    ensures n > 0 <==> c in s
  {
    if s == [] then 0
    else (if s[0] == c then 1 else 0) + Count(s[1..], c)
  }

  /**
   * `strings.Split(s, string(c))`: the pieces of `s` between occurrences of `c`;
   * an empty `s` gives one empty piece.
   */
  function Split(s: string, c: char): (pieces: seq<string>)
    ensures |pieces| == Count(s, c) + 1
  {
    if s == [] then [""]
    else
      var rest := Split(s[1..], c);
      if s[0] == c then [""] + rest
      else [[s[0]] + rest[0]] + rest[1..]
  }

  /** No piece contains the separator. */
  lemma {:induction false} SplitPiecesLackSeparator(s: string, c: char)
    ensures forall k :: 0 <= k < |Split(s, c)| ==> c !in Split(s, c)[k]
  {
    if s != [] {
      SplitPiecesLackSeparator(s[1..], c);
    }
  }

  /** `strings.Join(pieces, string(c))`, the inverse of `Split`. */
  function Join(pieces: seq<string>, c: char): string
    requires |pieces| > 0
  {
    if |pieces| == 1 then pieces[0]
    else pieces[0] + [c] + Join(pieces[1..], c)
  }

  /** Joining the pieces back together with the separator restores the string. */
  lemma {:induction false} JoinSplit(s: string, c: char)
    ensures Join(Split(s, c), c) == s
  {
    if s != [] {
      var rest := Split(s[1..], c);
      JoinSplit(s[1..], c);
      if s[0] == c {
        assert Join([""] + rest, c) == "" + [c] + Join(rest, c);
      } else {
        var pieces := [[s[0]] + rest[0]] + rest[1..];
        if |rest| == 1 {
          assert Join(pieces, c) == [s[0]] + rest[0];
        } else {
          assert pieces[1..] == rest[1..];
          assert Join(rest, c) == rest[0] + [c] + Join(rest[1..], c);
          assert Join(pieces, c) == [s[0]] + rest[0] + [c] + Join(rest[1..], c);
        }
      }
    }
  }

  /** A string without the separator is a single piece. */
  lemma {:induction false} SplitWithoutSeparator(s: string, c: char)
    requires c !in s
    ensures Split(s, c) == [s]
  {
    if s != [] {
      SplitWithoutSeparator(s[1..], c);
      assert [s[0]] + s[1..] == s;
    }
  }

  /** Splitting `a + [c] + b`, where `a` has no separator, yields `a` and then the pieces of `b`. */
  lemma {:induction false} SplitAfterFirst(a: string, b: string, c: char)
    requires c !in a
    ensures Split(a + [c] + b, c) == [a] + Split(b, c)
  {
    if a == [] {
      assert a + [c] + b == [c] + b;
      assert ([c] + b)[1..] == b;
    } else {
      assert (a + [c] + b)[1..] == a[1..] + [c] + b;
      SplitAfterFirst(a[1..], b, c);
      assert [a[0]] + a[1..] == a;
    }
  }

  /** The first piece of `a + b` is `a` when `a` has no separator and `b` is empty or starts with one. */
  lemma FirstPiece(a: string, b: string, c: char)
    requires c !in a
    requires b == [] || b[0] == c
    ensures Split(a + b, c)[0] == a
  {
    if b == [] {
      assert a + b == a;
      SplitWithoutSeparator(a, c);
    } else {
      assert a + b == a + [c] + b[1..];
      SplitAfterFirst(a, b[1..], c);
    }
  }

  lemma {:induction false} CountAppend(a: string, b: string, c: char)
    ensures Count(a + b, c) == Count(a, c) + Count(b, c)
  {
    if a == [] {
      assert a + b == b;
    } else {
      assert (a + b)[1..] == a[1..] + b;
      CountAppend(a[1..], b, c);
    }
  }

  /** Index of the first occurrence of `c` in `s`. */
  function IndexOf(s: string, c: char): (i: nat)
    requires c in s
    ensures i < |s| && s[i] == c && c !in s[..i]
  {
    if s[0] == c then 0
    else
      var i := 1 + IndexOf(s[1..], c);
      assert s[..i] == [s[0]] + s[1..][..i - 1];
      i
  }
}
