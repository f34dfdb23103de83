/** Value-level vocabulary shared by every module of the model: optional values,
    results, identifiers, instants, Foundation's whitespace trimming, and the
    sequence helpers (`first(where:)`, `removeAll(where:)`) the Swift code leans on. */
module Basics {

  datatype Option<+T> = None | Some(value: T)

  datatype Result<+T, +E> = Ok(value: T) | Err(error: E)
  {
    predicate IsFailure() { Err? }

    function PropagateFailure<U>(): Result<U, E>
      requires Err?
    {
      Err(error)
    }

    function Extract(): T
      requires Ok?
    {
      value
    }
  }

  /** A UUID is an abstract identifier: only equality and freshness matter. */
  type Uuid = nat

  /** A `Date` is an abstract instant; only its order is ever used. */
  type Date = int

  function Min(a: int, b: int): int { if a <= b then a else b }

  /** `(200..<300).contains(statusCode)`. */
  predicate IsSuccessStatus(status: int) {
    200 <= status < 300
  }

  // ---------------------------------------------------------------------------
  // Trimming with CharacterSet.whitespacesAndNewlines

  /** The members of Foundation's `whitespacesAndNewlines`: the Unicode space
      separators, tab, the line and paragraph separators and the control
      characters U+000A through U+000D and U+0085. */
  predicate IsWhitespace(c: char) {
    || c == ' ' || c == '\t' || c == '\n' || c == '\r'
    || c == '\U{B}' || c == '\U{C}' || c == '\U{85}' || c == '\U{A0}'
    || c == '\U{1680}' || ('\U{2000}' <= c <= '\U{200A}')
    || c == '\U{2028}' || c == '\U{2029}' || c == '\U{202F}'
    || c == '\U{205F}' || c == '\U{3000}'
  }

  predicate AllWhitespace(s: string) {
    forall i :: 0 <= i < |s| ==> IsWhitespace(s[i])
  }

  /** Drops the leading whitespace: what is left is a suffix of `s` that starts
      with a non-whitespace character, and everything dropped was whitespace. */
  function TrimStart(s: string): (r: string)
    ensures |r| <= |s| && r == s[|s| - |r|..]
    ensures r != [] ==> !IsWhitespace(r[0])
    ensures AllWhitespace(s[..|s| - |r|])
  {
    if s != [] && IsWhitespace(s[0]) then TrimStart(s[1..]) else s
  }

  /** Drops the trailing whitespace: what is left is a prefix of `s` that ends
      with a non-whitespace character, and everything dropped was whitespace. */
  function TrimEnd(s: string): (r: string)
    ensures |r| <= |s| && r == s[..|r|]
    ensures r != [] ==> !IsWhitespace(r[|r| - 1])
    ensures AllWhitespace(s[|r|..])
  {
    if s != [] && IsWhitespace(s[|s| - 1]) then TrimEnd(s[..|s| - 1]) else s
  }

  /** `trimmingCharacters(in: .whitespacesAndNewlines)`. */
  function Trim(s: string): (r: string)
    ensures |r| <= |s|
    ensures r != [] ==> !IsWhitespace(r[0]) && !IsWhitespace(r[|r| - 1])
  {
    TrimEnd(TrimStart(s))
  }

  /** A string trims to nothing exactly when it consists of whitespace only. */
  lemma TrimEmptyIff(s: string)
    ensures Trim(s) == [] <==> AllWhitespace(s)
  {
    var t := TrimStart(s);
    if Trim(s) == [] {
      assert AllWhitespace(t[0..]);
      assert t == [];
      assert s[..|s| - |t|] == s;
    }
  }

  /** Trimming keeps a string that neither starts nor ends with whitespace. */
  lemma TrimKeepsTrimmed(s: string)
    requires s != [] ==> !IsWhitespace(s[0]) && !IsWhitespace(s[|s| - 1])
    ensures Trim(s) == s
  {
  }

  /** Trimming twice is trimming once. */
  lemma TrimIdempotent(s: string)
    ensures Trim(Trim(s)) == Trim(s)
  {
    TrimKeepsTrimmed(Trim(s));
  }

  // ---------------------------------------------------------------------------
  // Sequence helpers

  /** `firstIndex(where:)`: the index of the first element satisfying `p`. */
  function FirstIndex<T>(s: seq<T>, p: T -> bool): (r: Option<nat>)
    ensures r.Some? ==> r.value < |s| && p(s[r.value])
    ensures r.Some? ==> forall k :: 0 <= k < r.value ==> !p(s[k])
    ensures r.None? <==> forall k :: 0 <= k < |s| ==> !p(s[k])
  {
    if s == [] then None
    else if p(s[0]) then Some(0)
    else match FirstIndex(s[1..], p)
      case None => None
      case Some(k) => Some(k + 1)
  }

  /** `filter` / `removeAll(where: !keep)`: the elements satisfying `keep`, in order. */
  function Filter<T>(s: seq<T>, keep: T -> bool): (r: seq<T>)
    ensures |r| <= |s|
    ensures forall x :: x in r ==> x in s && keep(x)
    ensures forall x :: x in s && keep(x) ==> x in r
  {
    if s == [] then []
    else (if keep(s[0]) then [s[0]] else []) + Filter(s[1..], keep)
  }

  /** Filtering preserves relative order: it distributes over concatenation. */
  lemma {:induction false} FilterConcat<T>(a: seq<T>, b: seq<T>, keep: T -> bool)
    ensures Filter(a + b, keep) == Filter(a, keep) + Filter(b, keep)
  {
    if a == [] {
      assert a + b == b;
    } else {
      assert (a + b)[1..] == a[1..] + b;
      FilterConcat(a[1..], b, keep);
    }
  }

  /** Filtering a sequence whose every element is kept changes nothing. */
  lemma {:induction false} FilterKeepsAll<T>(s: seq<T>, keep: T -> bool)
    requires forall x :: x in s ==> keep(x)
    ensures Filter(s, keep) == s
  {
    if s != [] {
      FilterKeepsAll(s[1..], keep);
    }
  }

  /** Filtering out one dropped element between two kept runs leaves the runs. */
  lemma FilterDropsOne<T>(before: seq<T>, x: T, after: seq<T>, keep: T -> bool)
    requires forall y :: y in before ==> keep(y)
    requires forall y :: y in after ==> keep(y)
    requires !keep(x)
    ensures Filter(before + [x] + after, keep) == before + after
  {
    var single := [x];
    assert Filter(single, keep) == [] by {
      assert single[1..] == [];
    }
    FilterConcat(before, single, keep);
    FilterKeepsAll(before, keep);
    assert Filter(before + single, keep) == before;
    FilterConcat(before + single, after, keep);
    FilterKeepsAll(after, keep);
  }

  /** Filtering is idempotent. */
  lemma FilterIdempotent<T>(s: seq<T>, keep: T -> bool)
    ensures Filter(Filter(s, keep), keep) == Filter(s, keep)
  {
    FilterKeepsAll(Filter(s, keep), keep);
  }

  // ---------------------------------------------------------------------------
  // Decimal rendering of integers (Swift string interpolation of an Int)

  function DigitChar(d: nat): (c: char)
    requires d < 10
    ensures '0' <= c <= '9' && (c as int) - ('0' as int) == d
  {
    "0123456789"[d]
  }

  predicate IsDigits(s: string) {
    forall i :: 0 <= i < |s| ==> '0' <= s[i] <= '9'
  }

  function NatToString(n: nat): (r: string)
    ensures r != [] && IsDigits(r)
    ensures n < 10 <==> |r| == 1
  {
    if n < 10 then [DigitChar(n)] else NatToString(n / 10) + [DigitChar(n % 10)]
  }

  /** `"\(i)"` for an `Int`: an optional minus sign followed by the digits of `|i|`. */
  function IntToString(i: int): (r: string)
    ensures r != []
    ensures i < 0 <==> r[0] == '-'
    ensures IsDigits(r[1..]) && (i >= 0 ==> IsDigits(r))
  {
    if i < 0 then "-" + NatToString(-i) else NatToString(i)
  }

  /** Reads a digit string back as a natural number. */
  function ParseNat(s: string): nat
    requires IsDigits(s)
  {
    if s == [] then 0
    else ParseNat(s[..|s| - 1]) * 10 + ((s[|s| - 1] as int) - ('0' as int))
  }

  /** The decimal rendering is faithful: parsing it gives the number back. */
  lemma {:induction false} ParseNatToString(n: nat)
    ensures ParseNat(NatToString(n)) == n
  {
    var r := NatToString(n);
    if n >= 10 {
      ParseNatToString(n / 10);
      assert r[..|r| - 1] == NatToString(n / 10);
    }
  }

  /** Distinct integers render differently. */
  lemma IntToStringInjective(i: int, j: int)
    requires IntToString(i) == IntToString(j)
    ensures i == j
  {
    assert i < 0 <==> j < 0;
    var a := if i < 0 then -i else i;
    var b := if j < 0 then -j else j;
    assert NatToString(a) == NatToString(b) by {
      if i < 0 {
        assert IntToString(i)[1..] == NatToString(a);
        assert IntToString(j)[1..] == NatToString(b);
      }
    }
    ParseNatToString(a);
    ParseNatToString(b);
  }
}
