/** Small building blocks shared by the scoring engine and the ingestion side:
    an Option type, counting and summing over sequences, and the parts of
    Python's `str` behaviour the source relies on (`strip`, `lower`, and `in`
    between two strings). */
module Common {

  datatype Option<T> = None | Some(value: T)

  // ---------------------------------------------------------------------------
  // Mapping

  /** The list `[f(x) for x in xs]`. */
  function Map<A, B>(xs: seq<A>, f: A -> B): (ys: seq<B>)
    ensures |ys| == |xs|
  {
    seq(|xs|, k requires 0 <= k < |xs| => f(xs[k]))
  }

  /** A `for` loop that appends `f(x)` for each `x` of `xs`, in order. */
  method MapInOrder<A, B>(xs: seq<A>, f: A -> B) returns (ys: seq<B>)
    ensures ys == Map(xs, f)
  {
    ys := [];
    for i := 0 to |xs|
      invariant |ys| == i
      invariant forall m :: 0 <= m < i ==> ys[m] == f(xs[m])
    {
      ys := ys + [f(xs[i])];
    }
  }

  // ---------------------------------------------------------------------------
  // Counting and summing

  /** Number of elements of `s` that satisfy `p` (a generator `sum(1 for ...)`,
      or `len` of a filtered list). */
  function CountWhere<T>(s: seq<T>, p: T -> bool): (n: nat)
    ensures n <= |s|
  {
    if |s| == 0 then 0 else (if p(s[0]) then 1 else 0) + CountWhere(s[1..], p)
  }

  lemma {:induction false} CountWhereAppend<T>(s: seq<T>, t: seq<T>, p: T -> bool)
    ensures CountWhere(s + t, p) == CountWhere(s, p) + CountWhere(t, p)
  {
    if |s| == 0 {
      assert s + t == t;
    } else {
      assert (s + t)[1..] == s[1..] + t;
      CountWhereAppend(s[1..], t, p);
    }
  }

  /** Counting is monotone in the predicate. */
  lemma {:induction false} CountWhereMono<T>(s: seq<T>, p: T -> bool, q: T -> bool)
    requires forall i :: 0 <= i < |s| && p(s[i]) ==> q(s[i])
    ensures CountWhere(s, p) <= CountWhere(s, q)
  {
    if |s| > 0 { CountWhereMono(s[1..], p, q); }
  }

  /** Counting by two disjoint predicates adds up to counting by their union. */
  lemma {:induction false} CountWhereSplit<T>(s: seq<T>, p: T -> bool, q: T -> bool, pq: T -> bool)
    requires forall i :: 0 <= i < |s| ==> (pq(s[i]) <==> p(s[i]) || q(s[i]))
    requires forall i :: 0 <= i < |s| ==> !(p(s[i]) && q(s[i]))
    ensures CountWhere(s, pq) == CountWhere(s, p) + CountWhere(s, q)
  {
    if |s| > 0 { CountWhereSplit(s[1..], p, q, pq); }
  }

  /** A predicate that holds of every element counts everything. */
  lemma {:induction false} CountWhereAll<T>(s: seq<T>, p: T -> bool)
    requires forall i :: 0 <= i < |s| ==> p(s[i])
    ensures CountWhere(s, p) == |s|
  {
    if |s| > 0 { CountWhereAll(s[1..], p); }
  }

  function SumReals(s: seq<real>): real
  {
    if |s| == 0 then 0.0 else s[0] + SumReals(s[1..])
  }

  lemma {:induction false} SumRealsAppend(s: seq<real>, t: seq<real>)
    ensures SumReals(s + t) == SumReals(s) + SumReals(t)
  {
    if |s| == 0 {
      assert s + t == t;
    } else {
      assert (s + t)[1..] == s[1..] + t;
      SumRealsAppend(s[1..], t);
    }
  }

  /** `int(x)`: truncation toward zero. */
  function TruncateToInt(x: real): (n: int)
    ensures 0.0 <= x ==> n as real <= x < n as real + 1.0
    ensures x < 0.0 ==> n as real - 1.0 < x <= n as real
  {
    if x >= 0.0 then x.Floor else -((-x).Floor)
  }

  function MinReal(a: real, b: real): real
  {
    if a <= b then a else b
  }

  // ---------------------------------------------------------------------------
  // Text

  /** The characters Python's `str.isspace` accepts, which is what `str.strip()`
      without arguments removes. */
  predicate IsSpace(c: char)
  {
    c == ' ' || ('\U{9}' <= c <= '\U{D}') || ('\U{1C}' <= c <= '\U{1F}')
    || c == '\U{85}' || c == '\U{A0}' || c == '\U{1680}' || ('\U{2000}' <= c <= '\U{200A}')
    || c == '\U{2028}' || c == '\U{2029}' || c == '\U{202F}' || c == '\U{205F}' || c == '\U{3000}'
  }

  /** Index of the first character of `s` that is not a space (|s| if none). */
  function LeadingSpaces(s: string): (n: nat)
    ensures n <= |s|
    ensures forall j :: 0 <= j < n ==> IsSpace(s[j])
    ensures n < |s| ==> !IsSpace(s[n])
  {
    if |s| == 0 || !IsSpace(s[0]) then 0 else 1 + LeadingSpaces(s[1..])
  }

  /** One past the index of the last character of `s` that is not a space
      (0 if none). */
  function TrailingStart(s: string): (n: nat)
    ensures n <= |s|
    ensures forall j :: n <= j < |s| ==> IsSpace(s[j])
    ensures n > 0 ==> !IsSpace(s[n - 1])
  {
    if |s| == 0 || !IsSpace(s[|s| - 1]) then |s| else TrailingStart(s[..|s| - 1])
  }

  /** Python's `s.strip()`. */
  function Strip(s: string): (r: string)
    ensures |r| <= |s|
    ensures r != [] ==> !IsSpace(r[0]) && !IsSpace(r[|r| - 1])
  {
    var lo, hi := LeadingSpaces(s), TrailingStart(s);
    if lo < hi then s[lo..hi] else []
  }

  /** `s.lower()` restricted to ASCII letters; every other character is kept. */
  function Lower(s: string): (r: string)
    ensures |r| == |s|
    ensures forall i :: 0 <= i < |s| ==> ('A' <= s[i] <= 'Z' ==> r[i] == (s[i] as int + 32) as char)
    ensures forall i :: 0 <= i < |s| ==> (!('A' <= s[i] <= 'Z') ==> r[i] == s[i])
  {
    if |s| == 0 then []
    else [if 'A' <= s[0] <= 'Z' then (s[0] as int + 32) as char else s[0]] + Lower(s[1..])
  }

  /** `k` occurs in `s` starting at index `i`. */
  ghost predicate OccursAt(s: string, k: string, i: int)
  {
    0 <= i && i + |k| <= |s| && s[i..i + |k|] == k
  }

  /** Python's `k in s` for two strings. */
  predicate Contains(s: string, k: string)
  {
    k <= s || (|s| > 0 && Contains(s[1..], k))
  }

  /** `Contains` finds exactly the occurrences of `k` in `s`. */
  lemma {:induction false} ContainsIff(s: string, k: string)
    ensures Contains(s, k) <==> exists i :: OccursAt(s, k, i)
  {
    if k <= s {
      assert OccursAt(s, k, 0);
    } else if |s| == 0 {
      forall i | OccursAt(s, k, i) ensures false {
      }
    } else {
      ContainsIff(s[1..], k);
      if exists i :: OccursAt(s[1..], k, i) {
        var i :| OccursAt(s[1..], k, i);
        assert s[1..][i..i + |k|] == s[i + 1..i + 1 + |k|];
        assert OccursAt(s, k, i + 1);
      }
      if exists i :: OccursAt(s, k, i) {
        var i :| OccursAt(s, k, i);
        assert i != 0;
        assert s[1..][i - 1..i - 1 + |k|] == s[i..i + |k|];
        assert OccursAt(s[1..], k, i - 1);
      }
    }
  }

  /** An occurrence of a non-empty, space-free string lies inside the part
      `strip` keeps. */
  lemma OccurrenceWithinStrip(s: string, k: string, i: int)
    requires |k| > 0
    requires forall j :: 0 <= j < |k| ==> !IsSpace(k[j])
    requires OccursAt(s, k, i)
    ensures LeadingSpaces(s) <= i && i + |k| <= TrailingStart(s)
  {
    assert s[i] == s[i..i + |k|][0] == k[0];
    assert s[i + |k| - 1] == s[i..i + |k|][|k| - 1] == k[|k| - 1];
  }

  lemma OccurrenceInStrip(s: string, k: string, i: int)
    requires |k| > 0
    requires forall j :: 0 <= j < |k| ==> !IsSpace(k[j])
    requires OccursAt(s, k, i)
    ensures OccursAt(Strip(s), k, i - LeadingSpaces(s))
  {
    OccurrenceWithinStrip(s, k, i);
    var lo, hi := LeadingSpaces(s), TrailingStart(s);
    assert lo <= i < i + |k| <= hi;
    var r := s[lo..hi];
    assert Strip(s) == r;
    var piece := r[i - lo..i - lo + |k|];
    assert |piece| == |k|;
    forall j | 0 <= j < |k| ensures piece[j] == k[j] {
      calc {
        piece[j];
        r[i - lo + j];
        s[i + j];
        s[i..i + |k|][j];
      }
    }
    assert piece == k;
  }

  lemma OccurrenceFromStrip(s: string, k: string, i: int)
    requires OccursAt(Strip(s), k, i)
    requires |k| > 0
    ensures OccursAt(s, k, i + LeadingSpaces(s))
  {
    var lo, hi := LeadingSpaces(s), TrailingStart(s);
    var r := Strip(s);
    assert lo < hi && r == s[lo..hi];
    var piece := s[lo + i..lo + i + |k|];
    forall j | 0 <= j < |k| ensures piece[j] == k[j] {
      assert piece[j] == r[i + j] == r[i..i + |k|][j];
    }
    assert piece == k;
  }

  /** Stripping surrounding whitespace never changes whether a non-empty,
      space-free string occurs inside another. */
  lemma StripKeepsOccurrences(s: string, k: string)
    requires |k| > 0
    requires forall j :: 0 <= j < |k| ==> !IsSpace(k[j])
    ensures Contains(Strip(s), k) <==> Contains(s, k)
  {
    ContainsIff(s, k);
    ContainsIff(Strip(s), k);
    if exists i :: OccursAt(s, k, i) {
      var i :| OccursAt(s, k, i);
      OccurrenceInStrip(s, k, i);
    }
    if exists i :: OccursAt(Strip(s), k, i) {
      var i :| OccursAt(Strip(s), k, i);
      OccurrenceFromStrip(s, k, i);
    }
  }

  /** `r` is `s` at the strictly increasing positions `idx`. */
  predicate SubsequenceAt<T(==)>(r: seq<T>, s: seq<T>, idx: seq<nat>)
  {
    |idx| == |r|
    && (forall i | 0 <= i < |r| :: idx[i] < |s| && r[i] == s[idx[i]])
    && (forall i, j | 0 <= i < j < |r| :: idx[i] < idx[j])
  }

  /** A subsequence of a tail is one of the whole list, shifted by one
      position, with or without the head in front. */
  lemma SubsequenceOfTail<T>(r: seq<T>, s: seq<T>, idx: seq<nat>)
    requires |s| > 0 && SubsequenceAt(r, s[1..], idx)
    ensures var shifted := seq(|idx|, i requires 0 <= i < |idx| => idx[i] + 1);
      SubsequenceAt(r, s, shifted) && SubsequenceAt([s[0]] + r, s, [0] + shifted)
  {
    var shifted := seq(|idx|, i requires 0 <= i < |idx| => idx[i] + 1);
    forall i | 0 <= i < |r|
      ensures shifted[i] < |s| && r[i] == s[shifted[i]]
    {
      assert s[1..][idx[i]] == s[idx[i] + 1];
    }
  }
}
