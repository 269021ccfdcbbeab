/**
 * The handful of Python string operations the modelled code relies on, written out:
 * substring test (`w in s`), `str.strip()`, `str.replace(w, '')`, `sep.join(xs)` and
 * the tail slice `xs[-n:]`.
 */
module Text {
  import opened Prelude

  /** The code points of the characters for which Python's `str.isspace()` holds. */
  const SpaceCodes: set<int> :=
    {9, 10, 11, 12, 13, 28, 29, 30, 31, 32, 0x85, 0xA0, 0x1680,
     0x2000, 0x2001, 0x2002, 0x2003, 0x2004, 0x2005, 0x2006, 0x2007, 0x2008, 0x2009, 0x200A,
     0x2028, 0x2029, 0x202F, 0x205F, 0x3000}

  /** `str.isspace()` for one character. */
  predicate IsSpace(c: char)
  {
    c as int in SpaceCodes
  }

  /** `w` occurs in `s` starting at index `i`. */
  predicate OccursAt(s: string, w: string, i: int)
  {
    0 <= i && i + |w| <= |s| && s[i..i + |w|] == w
  }

  /** Python's `w in s`: scan `s` from the left for a prefix equal to `w`. */
  predicate Contains(s: string, w: string)
    decreases |s|
  {
    w <= s || (|s| > 0 && Contains(s[1..], w))
  }

  /** Every hit of the scan is a position where `w` occurs. */
  lemma {:induction false} ContainsWitness(s: string, w: string) returns (i: int)
    requires Contains(s, w)
    ensures OccursAt(s, w, i)
    decreases |s|
  {
    if w <= s {
      i := 0;
    } else {
      var j := ContainsWitness(s[1..], w);
      assert s[1..][j..j + |w|] == s[j + 1..j + 1 + |w|];
      i := j + 1;
    }
  }

  /** Every position where `w` occurs is found by the scan. */
  lemma {:induction false} OccursContains(s: string, w: string, i: int)
    requires OccursAt(s, w, i)
    ensures Contains(s, w)
    decreases i
  {
    if i == 0 {
      assert s[..|w|] == w;
    } else {
      assert s[1..][i - 1..i - 1 + |w|] == s[i..i + |w|];
      OccursContains(s[1..], w, i - 1);
    }
  }

  /** The scan agrees with the positional definition of a substring. */
  lemma ContainsIffOccurs(s: string, w: string)
    ensures Contains(s, w) <==> exists i :: OccursAt(s, w, i)
  {
    if Contains(s, w) {
      var i := ContainsWitness(s, w);
    }
    if exists i :: OccursAt(s, w, i) {
      var i :| OccursAt(s, w, i);
      OccursContains(s, w, i);
    }
  }

  /** A substring of a substring is a substring. */
  lemma ContainsTransitive(s: string, w: string, v: string)
    requires Contains(s, w) && Contains(w, v)
    ensures Contains(s, v)
  {
    var i := ContainsWitness(s, w);
    var j := ContainsWitness(w, v);
    assert forall k :: 0 <= k < |v| ==> v[k] == w[j + k] == s[i + j + k];
    assert s[i + j..i + j + |v|] == v;
    OccursContains(s, v, i + j);
  }

  /** A word holding a character the text lacks does not occur in the text. */
  lemma MissingCharNotContained(s: string, w: string, c: char)
    requires c in w && c !in s
    ensures !Contains(s, w)
  {
    if Contains(s, w) {
      var i := ContainsWitness(s, w);
    }
  }

  /** Python's `any(w in s for w in ws)`. */
  predicate ContainsAny(s: string, ws: seq<string>)
  {
    exists k :: 0 <= k < |ws| && Contains(s, ws[k])
  }

  /** The first index at or after `i` that does not hold whitespace, or `|s|`. */
  function LeadEnd(s: string, i: nat): (r: nat)
    requires i <= |s|
    ensures i <= r <= |s|
    decreases |s| - i
  {
    if i < |s| && IsSpace(s[i]) then LeadEnd(s, i + 1) else i
  }

  /** Everything `LeadEnd` skipped is whitespace, and it stops at a non-space or at the end. */
  lemma {:induction false} LeadEndSpec(s: string, i: nat)
    requires i <= |s|
    ensures forall k :: i <= k < LeadEnd(s, i) ==> IsSpace(s[k])
    ensures LeadEnd(s, i) == |s| || !IsSpace(s[LeadEnd(s, i)])
    decreases |s| - i
  {
    if i < |s| && IsSpace(s[i]) {
      LeadEndSpec(s, i + 1);
    }
  }

  /** Moving down from `j`, the first index above `lo` whose left neighbour is not whitespace, or `lo`. */
  function TrailStart(s: string, lo: nat, j: nat): (r: nat)
    requires lo <= j <= |s|
    ensures lo <= r <= j
    decreases j
  {
    if j > lo && IsSpace(s[j - 1]) then TrailStart(s, lo, j - 1) else j
  }

  /** Everything `TrailStart` skipped is whitespace, and it stops after a non-space or at `lo`. */
  lemma {:induction false} TrailStartSpec(s: string, lo: nat, j: nat)
    requires lo <= j <= |s|
    ensures forall k :: TrailStart(s, lo, j) <= k < j ==> IsSpace(s[k])
    ensures TrailStart(s, lo, j) == lo || !IsSpace(s[TrailStart(s, lo, j) - 1])
    decreases j
  {
    if j > lo && IsSpace(s[j - 1]) {
      TrailStartSpec(s, lo, j - 1);
    }
  }

  /** `r` is `s` with the first `i` and the last `|s| - i - |r|` characters, all whitespace, removed. */
  predicate StrippedAt(s: string, r: string, i: int)
  {
    0 <= i && i + |r| <= |s| && r == s[i..i + |r|]
    && (forall k :: 0 <= k < i ==> IsSpace(s[k]))
    && (forall k :: i + |r| <= k < |s| ==> IsSpace(s[k]))
  }

  /** Python's `s.strip()`: skip whitespace from the left, then from the right, keep the middle. */
  function Strip(s: string): (r: string)
    ensures |r| <= |s|
  {
    var start := LeadEnd(s, 0);
    s[start..TrailStart(s, start, |s|)]
  }

  /**
   * `strip` removes exactly a whitespace prefix and a whitespace suffix, and what remains
   * neither starts nor ends with whitespace.
   */
  lemma StripSpec(s: string)
    ensures var r := Strip(s);
            && (r == [] || (!IsSpace(r[0]) && !IsSpace(r[|r| - 1])))
            && exists i :: StrippedAt(s, r, i)
  {
    var start := LeadEnd(s, 0);
    var end := TrailStart(s, start, |s|);
    LeadEndSpec(s, 0);
    TrailStartSpec(s, start, |s|);
    assert StrippedAt(s, s[start..end], start);
  }

  /** Python's `s.replace(w, '')`: left-to-right, non-overlapping removal of every `w`. */
  function RemoveAll(s: string, w: string): (r: string)
    requires |w| > 0
    ensures |r| <= |s|
    decreases |s|
  {
    if |s| == 0 then s
    else if w <= s then RemoveAll(s[|w|..], w)
    else [s[0]] + RemoveAll(s[1..], w)
  }

  /** Removing `w` changes `s` exactly when `w` occurs in `s`. */
  lemma {:induction false} RemoveAllUnchangedIff(s: string, w: string)
    requires |w| > 0
    ensures RemoveAll(s, w) == s <==> !Contains(s, w)
    decreases |s|
  {
    if |s| > 0 && !(w <= s) {
      RemoveAllUnchangedIff(s[1..], w);
      assert [s[0]] + s[1..] == s;
      if RemoveAll(s, w) == s {
        assert RemoveAll(s[1..], w) == ([s[0]] + RemoveAll(s[1..], w))[1..];
      }
    }
  }

  /** Python's `sep.join(xs)`. */
  function Join(xs: seq<string>, sep: string): string
  {
    if |xs| == 0 then "" else if |xs| == 1 then xs[0] else xs[0] + sep + Join(xs[1..], sep)
  }

  /** Joining one more element appends the separator and that element. */
  lemma {:induction false} JoinSnoc(xs: seq<string>, x: string, sep: string)
    ensures Join(xs + [x], sep) == if xs == [] then x else Join(xs, sep) + sep + x
  {
    if |xs| >= 2 {
      assert (xs + [x])[1..] == xs[1..] + [x];
      JoinSnoc(xs[1..], x, sep);
    } else if |xs| == 1 {
      assert xs + [x] == [xs[0], x];
      assert [xs[0], x][1..] == [x];
    }
  }

  predicate EndsWith(s: string, suffix: string)
  {
    |suffix| <= |s| && s[|s| - |suffix|..] == suffix
  }

  /**
   * Python's `xs[-n:] if len(xs) > n else xs` for a positive `n`: the last `min(n, |xs|)`
   * elements. (At `n = 0` Python's `xs[-0:]` is all of `xs`; no caller uses that case.)
   */
  function LastN<T>(xs: seq<T>, n: nat): (r: seq<T>)
    requires n > 0
    ensures |r| == Min(n, |xs|) && r == xs[|xs| - |r|..]
  {
    if |xs| > n then xs[|xs| - n..] else xs
  }
}
