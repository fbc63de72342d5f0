/** The string operations of Rust's standard library that the measurement-line
    parser relies on: `str::split` with a one-character pattern, `str::trim`,
    `u64::from_str` and `f64::from_str`. Floating-point reading itself is not
    modelled: it is an uninterpreted partial function handed in by the caller. */
module Text {

  datatype Option<+T> = None | Some(value: T)

  datatype Result<+T, +E> = Ok(value: T) | Err(error: E) {
    predicate IsFailure() { Err? }

    function PropagateFailure<U>(): Result<U, E>
      requires Err?
    {
      Err(error)
    }

    function Extract(): T
      requires Ok?
    {
      value
    }
  }

  // ---------------------------------------------------------------------------
  // Splitting

  /** The pieces of `s` between occurrences of `sep`, as `str::split` yields
      them for a one-character pattern: every occurrence separates, so empty
      pieces are kept and n separators give n + 1 pieces. */
  function Split(s: string, sep: char): (pieces: seq<string>)
    ensures |pieces| >= 1
    ensures forall i :: 0 <= i < |pieces| ==> sep !in pieces[i]
    decreases |s|
  {
    if s == [] then [[]]
    else
      var rest := Split(s[1..], sep);
      if s[0] == sep then [[]] + rest
      else [[s[0]] + rest[0]] + rest[1..]
  }

  /** n separators give n + 1 pieces. */
  lemma {:induction false} SplitCount(s: string, sep: char)
    ensures |Split(s, sep)| == multiset(s)[sep] + 1
    decreases |s|
  {
    if s != [] {
      SplitCount(s[1..], sep);
      assert s == [s[0]] + s[1..];
    }
  }

  /** The pieces with `sep` between consecutive ones; the inverse of Split. */
  function Join(pieces: seq<string>, sep: char): string
  {
    if |pieces| == 0 then []
    else if |pieces| == 1 then pieces[0]
    else pieces[0] + [sep] + Join(pieces[1..], sep)
  }

  /** Splitting loses nothing: joining the pieces back gives the input. */
  lemma {:induction false} JoinSplit(s: string, sep: char)
    ensures Join(Split(s, sep), sep) == s
    decreases |s|
  {
    if s != [] {
      var rest := Split(s[1..], sep);
      var pieces := Split(s, sep);
      JoinSplit(s[1..], sep);
      assert s == [s[0]] + s[1..];
      if s[0] == sep {
        assert pieces == [[]] + rest;
        JoinCons([], rest, sep);
      } else {
        assert pieces == [[s[0]] + rest[0]] + rest[1..];
        JoinCons(rest[0], rest[1..], sep);
        assert [rest[0]] + rest[1..] == rest;
        JoinCons([s[0]] + rest[0], rest[1..], sep);
      }
    }
  }

  /** Join of a piece in front of at least one more piece. */
  lemma JoinCons(x: string, more: seq<string>, sep: char)
    ensures Join([x] + more, sep) == if more == [] then x else x + [sep] + Join(more, sep)
  {
    assert ([x] + more)[1..] == more;
  }

  /** A string without the separator is a single piece. */
  lemma {:induction false} SplitWithout(x: string, sep: char)
    requires sep !in x
    ensures Split(x, sep) == [x]
    decreases |x|
  {
    if x != [] {
      SplitWithout(x[1..], sep);
      assert x == [x[0]] + x[1..];
    }
  }

  /** A separator-free piece followed by the separator is split off whole. */
  lemma {:induction false} SplitFirst(x: string, sep: char, t: string)
    requires sep !in x
    ensures Split(x + [sep] + t, sep) == [x] + Split(t, sep)
    decreases |x|
  {
    var s := x + [sep] + t;
    if x == [] {
      assert s[1..] == t;
    } else {
      assert s[1..] == x[1..] + [sep] + t;
      SplitFirst(x[1..], sep, t);
      assert x == [x[0]] + x[1..];
    }
  }

  /** Pieces without the separator come back unchanged from Join then Split. */
  lemma {:induction false} SplitJoin(pieces: seq<string>, sep: char)
    requires |pieces| >= 1
    requires forall i :: 0 <= i < |pieces| ==> sep !in pieces[i]
    ensures Split(Join(pieces, sep), sep) == pieces
    decreases |pieces|
  {
    if |pieces| == 1 {
      SplitWithout(pieces[0], sep);
    } else {
      SplitJoin(pieces[1..], sep);
      SplitFirst(pieces[0], sep, Join(pieces[1..], sep));
      assert pieces == [pieces[0]] + pieces[1..];
    }
  }

  // ---------------------------------------------------------------------------
  // Trimming

  /** `char::is_whitespace`: the characters with the Unicode White_Space property. */
  predicate IsWhitespace(c: char)
  {
    || ('\t' <= c <= '\r')
    || c == ' '
    || c == '\U{85}'
    || c == '\U{A0}'
    || c == '\U{1680}'
    || ('\U{2000}' <= c <= '\U{200A}')
    || c == '\U{2028}'
    || c == '\U{2029}'
    || c == '\U{202F}'
    || c == '\U{205F}'
    || c == '\U{3000}'
  }

  predicate AllWhitespace(s: string)
  {
    forall i :: 0 <= i < |s| ==> IsWhitespace(s[i])
  }

  /** The index of the first character at or after `i` that is not
      whitespace, or |s| when there is none. */
  function SkipStart(s: string, i: nat): (n: nat)
    requires i <= |s|
    ensures i <= n <= |s|
    ensures forall k :: i <= k < n ==> IsWhitespace(s[k])
    ensures n < |s| ==> !IsWhitespace(s[n])
    decreases |s| - i
  {
    if i < |s| && IsWhitespace(s[i]) then SkipStart(s, i + 1) else i
  }

  /** The index just after the last character before `j` that is not
      whitespace, searching back no further than `lo`. */
  function SkipEnd(s: string, lo: nat, j: nat): (n: nat)
    requires lo <= j <= |s|
    ensures lo <= n <= j
    ensures forall k :: n <= k < j ==> IsWhitespace(s[k])
    ensures n > lo ==> !IsWhitespace(s[n - 1])
    decreases j
  {
    if j > lo && IsWhitespace(s[j - 1]) then SkipEnd(s, lo, j - 1) else j
  }

  /** `str::trim`: the first character that is not whitespace is searched
      from the front, then the last one from the back over what remains; the
      result is the slice between them, empty when there is none. */
  function Trim(s: string): (r: string)
    ensures |r| <= |s|
    ensures r == [] <==> AllWhitespace(s)
    ensures r != [] ==> !IsWhitespace(r[0]) && !IsWhitespace(r[|r| - 1])
  {
    var i := SkipStart(s, 0);
    var j := SkipEnd(s, i, |s|);
    assert AllWhitespace(s) <== i == j;
    s[i..j]
  }

  /** Trim is characterised by its result: whenever `s` is whitespace, then
      `r`, then whitespace, and `r` is empty or neither starts nor ends with
      whitespace, Trim(s) is `r`. */
  lemma TrimUnique(a: string, r: string, b: string)
    requires AllWhitespace(a) && AllWhitespace(b)
    requires r != [] ==> !IsWhitespace(r[0]) && !IsWhitespace(r[|r| - 1])
    ensures Trim(a + r + b) == r
  {
    var s := a + r + b;
    var i := SkipStart(s, 0);
    var j := SkipEnd(s, i, |s|);
    if r == [] {
      assert forall k :: 0 <= k < |s| ==> IsWhitespace(s[k]) by {
        forall k | 0 <= k < |s| ensures IsWhitespace(s[k]) {
          if k < |a| { assert s[k] == a[k]; } else { assert s[k] == b[k - |a|]; }
        }
      }
    } else {
      assert s[|a|] == r[0];
      assert s[|a| + |r| - 1] == r[|r| - 1];
      assert forall k :: 0 <= k < |a| ==> s[k] == a[k];
      assert forall k :: |a| + |r| <= k < |s| ==> s[k] == b[k - |a| - |r|];
      assert i == |a|;
      assert j == |a| + |r|;
      assert s[i..j] == r;
    }
  }

  /** Trim(x) is x with some whitespace removed before and after it. */
  lemma TrimParts(x: string) returns (a: string, b: string)
    ensures AllWhitespace(a) && AllWhitespace(b)
    ensures x == a + Trim(x) + b
  {
    var i := SkipStart(x, 0);
    var j := SkipEnd(x, i, |x|);
    a, b := x[..i], x[j..];
    assert x == a + x[i..j] + b;
  }

  lemma AllWhitespaceAppend(a: string, b: string)
    requires AllWhitespace(a) && AllWhitespace(b)
    ensures AllWhitespace(a + b)
  {
    forall k | 0 <= k < |a + b| ensures IsWhitespace((a + b)[k]) {
      if k >= |a| { assert (a + b)[k] == b[k - |a|]; }
    }
  }

  /** Whitespace around a string does not change what Trim returns. */
  lemma TrimPadded(w1: string, x: string, w2: string)
    requires AllWhitespace(w1) && AllWhitespace(w2)
    ensures Trim(w1 + x + w2) == Trim(x)
  {
    var a, b := TrimParts(x);
    AllWhitespaceAppend(w1, a);
    AllWhitespaceAppend(b, w2);
    Regroup(w1, a, Trim(x), b, w2);
    TrimUnique(w1 + a, Trim(x), b + w2);
  }

  lemma Regroup(w1: string, a: string, r: string, b: string, w2: string)
    ensures w1 + (a + r + b) + w2 == (w1 + a) + r + (b + w2)
  {
  }

  // ---------------------------------------------------------------------------
  // Unsigned decimal parsing

  const U64_MAX: nat := 0xFFFF_FFFF_FFFF_FFFF

  type U64 = n: nat | n <= U64_MAX

  /** The kinds of `ParseIntError` an unsigned parse can report. */
  datatype IntErrorKind = Empty | InvalidDigit | PosOverflow

  predicate IsDigit(c: char)
  {
    '0' <= c <= '9'
  }

  predicate AllDigits(s: string)
  {
    forall i :: 0 <= i < |s| ==> IsDigit(s[i])
  }

  function DigitValue(c: char): nat
    requires IsDigit(c)
  {
    (c as int) - ('0' as int)
  }

  /** The number the decimal digits `ds` denote, most significant first. */
  function Value(ds: string): nat
    requires AllDigits(ds)
  {
    if ds == [] then 0 else Value(ds[..|ds| - 1]) * 10 + DigitValue(ds[|ds| - 1])
  }

  /** Appending a digit shifts the value one decimal place. */
  lemma ValueSnoc(ds: string, c: char)
    requires AllDigits(ds) && IsDigit(c)
    ensures AllDigits(ds + [c]) && Value(ds + [c]) == Value(ds) * 10 + DigitValue(c)
  {
    assert (ds + [c])[..|ds|] == ds;
  }

  /** The digits `u64::from_str` reads: the input without one leading `+`. */
  function Digits(s: string): string
  {
    if s != [] && s[0] == '+' then s[1..] else s
  }

  /** The digit loop of `u64::from_str`, left to right: each character must be a
      digit, and ten times the running value plus that digit must fit in 64
      bits. The first character that fails decides the error. */
  function Accumulate(ds: string): (r: Result<U64, IntErrorKind>)
    ensures r.Ok? <==> AllDigits(ds) && Value(ds) <= U64_MAX
    ensures r.Ok? ==> r.value == Value(ds)
    ensures r.Err? ==> r.error != IntErrorKind.Empty
    ensures r.Err? && AllDigits(ds) ==> r.error == PosOverflow
  {
    if ds == [] then Ok(0)
    else
      var acc :- Accumulate(ds[..|ds| - 1]);
      var c := ds[|ds| - 1];
      if !IsDigit(c) then Err(InvalidDigit)
      else if acc * 10 + DigitValue(c) > U64_MAX then Err(PosOverflow)
      else Ok(acc * 10 + DigitValue(c))
  }

  /** A character that is not a digit, reached while the digits before it
      still fit in 64 bits, ends the loop with InvalidDigit whatever follows. */
  lemma {:induction false} FirstBadDigit(ds: string, i: nat)
    requires i < |ds| && !IsDigit(ds[i])
    requires AllDigits(ds[..i]) && Value(ds[..i]) <= U64_MAX
    ensures Accumulate(ds) == Err(InvalidDigit)
    decreases |ds|
  {
    var init := ds[..|ds| - 1];
    if i == |ds| - 1 {
      assert init == ds[..i];
    } else {
      assert init[..i] == ds[..i];
      assert init[i] == ds[i];
      FirstBadDigit(init, i);
    }
  }

  /** `u64::from_str`: the empty string is Empty, a lone sign is InvalidDigit,
      a leading `+` is skipped (a `-` is not: it is an invalid digit), and the
      rest must be decimal digits whose value fits in 64 bits. */
  function ParseU64(s: string): (r: Result<U64, IntErrorKind>)
    ensures r.Ok? <==> Digits(s) != [] && AllDigits(Digits(s)) && Value(Digits(s)) <= U64_MAX
    ensures r.Ok? ==> r.value == Value(Digits(s))
    ensures r.Err? ==> (r.error == IntErrorKind.Empty <==> s == [])
  {
    if s == [] then Err(IntErrorKind.Empty)
    else if s == "+" || s == "-" then Err(InvalidDigit)
    else Accumulate(Digits(s))
  }

  function DigitChar(d: nat): (c: char)
    requires d < 10
    ensures IsDigit(c) && DigitValue(c) == d
  {
    (('0' as int) + d) as char
  }

  /** The shortest decimal spelling of `n`. */
  function Decimal(n: nat): (r: string)
    ensures r != [] && AllDigits(r) && Value(r) == n
    ensures r[0] != '+'
  {
    if n < 10 then [DigitChar(n)]
    else
      var r := Decimal(n / 10) + [DigitChar(n % 10)];
      assert r[..|r| - 1] == Decimal(n / 10);
      r
  }

  /** Reading back the decimal spelling of a 64-bit value gives that value. */
  lemma ParseDecimal(n: U64)
    ensures ParseU64(Decimal(n)) == Ok(n)
  {
  }

  // ---------------------------------------------------------------------------
  // Floating-point parsing

  /** The kinds of `ParseFloatError`. */
  datatype FloatErrorKind = Empty | Invalid

  /** `f64::from_str` over an uninterpreted reading `read` of non-empty text:
      the empty string fails with kind Empty before `read` is consulted, and
      text that `read` rejects fails with kind Invalid. */
  function ParseF64<F>(read: string -> Option<F>, s: string): (r: Result<F, FloatErrorKind>)
    ensures r.Ok? <==> s != [] && read(s).Some?
    ensures r.Ok? ==> read(s) == Some(r.value)
    ensures r.Err? ==> (r.error == FloatErrorKind.Empty <==> s == [])
  {
    if s == [] then Err(FloatErrorKind.Empty)
    else
      match read(s)
      case None => Err(Invalid)
      case Some(f) => Ok(f)
  }
}
