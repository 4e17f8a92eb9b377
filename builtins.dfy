/**
 * The few Python 2 built-ins the newzbin client relies on, stated over Dafny
 * strings (a Python 2 `str` is a byte string; it is modelled as `seq<char>`):
 * truthiness, `a in b` on strings, `startswith`, `split(sep)`,
 * `split(sep, 2)`, `strip(chars)`, what `int(s)` accepts, and `list.remove`.
 */
module Builtins {

  datatype Option<+T> = None | Some(value: T)

  /** Python truthiness of an optional string: `None` and `""` are false. */
  predicate Truthy(s: Option<string>)
  {
    s.Some? && s.value != ""
  }

  function Max(a: int, b: int): int
  {
    if a >= b then a else b
  }

  function Min(a: int, b: int): int
  {
    if a <= b then a else b
  }

  /** `s.startswith(prefix)` */
  predicate StartsWith(s: string, prefix: string)
  {
    |prefix| <= |s| && s[..|prefix|] == prefix
  }

  /** `s.endswith(suffix)` */
  predicate EndsWith(s: string, suffix: string)
  {
    |suffix| <= |s| && s[|s| - |suffix|..] == suffix
  }

  /** `a in b` for two strings: `a` occurs in `b` as a contiguous substring. */
  predicate IsSubstring(a: string, b: string)
    decreases |b|
  {
    StartsWith(b, a) || (|b| > 0 && IsSubstring(a, b[1..]))
  }

  lemma {:induction false} SubstringNoLonger(a: string, b: string)
    requires IsSubstring(a, b)
    ensures |a| <= |b|
    decreases |b|
  {
    if !StartsWith(b, a) {
      SubstringNoLonger(a, b[1..]);
    }
  }

  /**
   * On strings of the same length, `a in b` is plain equality: for three-digit
   * status codes `rcode in ('402')` behaves like `rcode == '402'`.
   */
  lemma {:induction false} SubstringOfSameLength(a: string, b: string)
    requires |a| == |b|
    ensures IsSubstring(a, b) <==> a == b
  {
    if IsSubstring(a, b) && !StartsWith(b, a) {
      SubstringNoLonger(a, b[1..]);
      assert false;
    }
  }

  /** No value occurs twice in `s`. */
  predicate NoDups<T(==)>(s: seq<T>)
  {
    forall i, j :: 0 <= i < j < |s| ==> s[i] != s[j]
  }

  // ---------------------------------------------------------------------------
  // str.strip(chars)
  // ---------------------------------------------------------------------------

  /** The first position at or after `i` whose character is not one of `chars`, or `|s|`. */
  function SkipForward(s: string, chars: set<char>, i: nat): (j: nat)
    requires i <= |s|
    ensures i <= j <= |s|
    ensures forall k :: i <= k < j ==> s[k] in chars
    ensures j < |s| ==> s[j] !in chars
    decreases |s| - i
  {
    if i < |s| && s[i] in chars then SkipForward(s, chars, i + 1) else i
  }

  /** The end of `s[lo..hi]` once the characters of `chars` at its end are dropped. */
  function SkipBackward(s: string, chars: set<char>, lo: nat, hi: nat): (e: nat)
    requires lo <= hi <= |s|
    ensures lo <= e <= hi
    ensures forall k :: e <= k < hi ==> s[k] in chars
    ensures e > lo ==> s[e - 1] !in chars
    decreases hi - lo
  {
    if hi > lo && s[hi - 1] in chars then SkipBackward(s, chars, lo, hi - 1) else hi
  }

  /** Where `s.strip(chars)` starts in `s`. */
  function StripStart(s: string, chars: set<char>): nat
  {
    SkipForward(s, chars, 0)
  }

  /**
   * `s.strip(chars)`: `s` is a run of `chars`, then the result, then another
   * run of `chars`; the result neither starts nor ends with one of `chars`.
   */
  function Strip(s: string, chars: set<char>): (r: string)
    ensures var a := StripStart(s, chars);
      a + |r| <= |s| && r == s[a..a + |r|]
      && (forall k :: 0 <= k < a ==> s[k] in chars)
      && (forall k :: a + |r| <= k < |s| ==> s[k] in chars)
    ensures r == [] || (r[0] !in chars && r[|r| - 1] !in chars)
  {
    var a := SkipForward(s, chars, 0);
    s[a..SkipBackward(s, chars, a, |s|)]
  }

  /** Stripping a string that has no stripped character at either end changes nothing. */
  lemma StripIdempotent(s: string, chars: set<char>)
    ensures Strip(Strip(s, chars), chars) == Strip(s, chars)
  {
    var r := Strip(s, chars);
    if r != [] {
      assert StripStart(r, chars) == 0;
      assert SkipBackward(r, chars, 0, |r|) == |r|;
      assert r[0..|r|] == r;
    }
  }

  // ---------------------------------------------------------------------------
  // str.split(sep) and str.split(sep, 2)
  // ---------------------------------------------------------------------------

  /** Position of the first `c` in `s`. */
  function IndexOf(s: string, c: char): (i: nat)
    requires c in s
    ensures i < |s| && s[i] == c && c !in s[..i]
  {
    if s[0] == c then 0
    else
      var i := IndexOf(s[1..], c);
      assert s[..i + 1] == [s[0]] + s[1..][..i];
      1 + i
  }

  /** `sep.join(parts)` */
  function Join(parts: seq<string>, sep: char): string
    requires |parts| >= 1
    decreases |parts|
  {
    if |parts| == 1 then parts[0] else parts[0] + [sep] + Join(parts[1..], sep)
  }

  /**
   * `s.split(sep)` with a one-character separator: the unique list of pieces
   * that contain no `sep` and that `sep.join` glues back into `s`.
   */
  function Split(s: string, sep: char): (parts: seq<string>)
    ensures |parts| >= 1
    ensures forall k :: 0 <= k < |parts| ==> sep !in parts[k]
    ensures Join(parts, sep) == s
    ensures |parts| == 1 <==> sep !in s
    decreases |s|
  {
    if sep !in s then [s]
    else
      var i := IndexOf(s, sep);
      var rest := Split(s[i + 1..], sep);
      var parts := [s[..i]] + rest;
      assert parts[1..] == rest;
      assert s == s[..i] + [sep] + s[i + 1..];
      parts
  }

  /**
   * `s.split(sep, 2)` unpacked into three names: `Some((a, b, c))` exactly when
   * `s` holds at least two separators, with `a` and `b` free of them.
   * Python raises on the unpacking otherwise, which is `None` here.
   */
  function SplitThree(s: string, sep: char): (r: Option<(string, string, string)>)
    ensures r.Some? ==> s == r.value.0 + [sep] + r.value.1 + [sep] + r.value.2
    ensures r.Some? ==> sep !in r.value.0 && sep !in r.value.1
    ensures r.None? <==> (sep !in s || sep !in s[IndexOf(s, sep) + 1..])
  {
    var parts := Split(s, sep);
    if |parts| >= 3 then
      assert parts[1..][1..] == parts[2..];
      Some((parts[0], parts[1], Join(parts[2..], sep)))
    else
      None
  }

  // ---------------------------------------------------------------------------
  // int(s)
  // ---------------------------------------------------------------------------

  predicate IsDigit(c: char)
  {
    '0' <= c <= '9'
  }

  predicate AllDigits(s: string)
  {
    forall i :: 0 <= i < |s| ==> IsDigit(s[i])
  }

  /** The characters `int()` ignores around a number. */
  const Whitespace: set<char> := {' ', '\t', '\n', '\r', '\U{0B}', '\U{0C}'}

  /** Where a left-to-right scan of `int(s)`'s argument is: before the number, after its sign, in its digits, after it. */
  datatype IntScan = BeforeNumber | AfterSign | InDigits | AfterNumber

  /** The rest `s` of the argument is accepted from scan state `st`. */
  predicate ScanInt(s: string, st: IntScan)
    decreases |s|
  {
    if s == [] then st == InDigits || st == AfterNumber
    else
      var c := s[0];
      match st
      case BeforeNumber =>
        if c in Whitespace then ScanInt(s[1..], BeforeNumber)
        else if c == '+' || c == '-' then ScanInt(s[1..], AfterSign)
        else IsDigit(c) && ScanInt(s[1..], InDigits)
      // the digits may come after whitespace that follows the sign: `int('- 5') == -5`
      case AfterSign =>
        if IsDigit(c) then ScanInt(s[1..], InDigits) else c in Whitespace && ScanInt(s[1..], AfterSign)
      case InDigits =>
        if IsDigit(c) then ScanInt(s[1..], InDigits) else c in Whitespace && ScanInt(s[1..], AfterNumber)
      case AfterNumber => c in Whitespace && ScanInt(s[1..], AfterNumber)
  }

  /**
   * `int(s)` on a byte string succeeds: surrounding whitespace, an optional
   * sign, whitespace again, then one or more decimal digits.
   */
  predicate IsPyInt(s: string)
  {
    ScanInt(s, BeforeNumber)
  }

  /**
   * Whitespace may follow the sign, as in `int('- 5')`; a sign alone, or two
   * numbers, is no number.
   */
  lemma IntExamples()
    ensures IsPyInt("- 5") && IsPyInt(" +7\n") && IsPyInt("0042")
    ensures !IsPyInt("-") && !IsPyInt("- ") && !IsPyInt("5 5") && !IsPyInt("")
  {
  }

  /** A string that ends in a character that is neither a digit nor whitespace is no number. */
  lemma {:induction false} IntCharsOnly(s: string, st: IntScan)
    requires |s| > 0 && !IsDigit(s[|s| - 1]) && s[|s| - 1] !in Whitespace
    ensures !ScanInt(s, st)
    decreases |s|
  {
    if |s| > 1 {
      assert s[1..][|s[1..]| - 1] == s[|s| - 1];
      IntCharsOnly(s[1..], BeforeNumber);
      IntCharsOnly(s[1..], AfterSign);
      IntCharsOnly(s[1..], InDigits);
      IntCharsOnly(s[1..], AfterNumber);
    }
  }

  /** A run of one or more decimal digits is a number. */
  lemma {:induction false} DigitsAreInt(ds: string)
    requires |ds| > 0 && AllDigits(ds)
    ensures IsPyInt(ds)
  {
    DigitsScan(ds[1..]);
  }

  lemma {:induction false} DigitsScan(ds: string)
    requires AllDigits(ds)
    ensures ScanInt(ds, InDigits)
    decreases |ds|
  {
    if ds != [] {
      DigitsScan(ds[1..]);
    }
  }

  /** The number a run of decimal digits denotes. */
  function DecimalValue(ds: string): nat
    requires AllDigits(ds)
  {
    if ds == [] then 0
    else DecimalValue(ds[..|ds| - 1]) * 10 + (ds[|ds| - 1] as int - '0' as int)
  }

  // ---------------------------------------------------------------------------
  // list.remove(x)
  // ---------------------------------------------------------------------------

  /** Position of the first `x` in `s`. */
  function FirstIndex<T(==)>(s: seq<T>, x: T): (i: nat)
    requires x in s
    ensures i < |s| && s[i] == x && x !in s[..i]
  {
    if s[0] == x then 0
    else
      var i := FirstIndex(s[1..], x);
      assert s[..i + 1] == [s[0]] + s[1..][..i];
      1 + i
  }

  /**
   * `s.remove(x)`: `s` without its first occurrence of `x`, the other elements
   * in their order (Python raises when `x` is absent).
   */
  function RemoveFirst<T(==)>(s: seq<T>, x: T): (r: seq<T>)
    requires x in s
    ensures exists i :: 0 <= i < |s| && s[i] == x && x !in s[..i] && r == s[..i] + s[i + 1..]
    ensures |r| == |s| - 1
    ensures multiset(r) == multiset(s) - multiset{x}
    ensures NoDups(s) ==> x !in r && NoDups(r)
  {
    var i := FirstIndex(s, x);
    var r := s[..i] + s[i + 1..];
    assert s == s[..i] + [x] + s[i + 1..];
    RemoveAtKeepsNoDups(s, i);
    r
  }

  lemma RemoveAtKeepsNoDups<T>(s: seq<T>, i: nat)
    requires i < |s|
    ensures NoDups(s) ==> s[i] !in s[..i] + s[i + 1..] && NoDups(s[..i] + s[i + 1..])
  {
    var r := s[..i] + s[i + 1..];
    if NoDups(s) {
      forall k | 0 <= k < |r| ensures r[k] == s[if k < i then k else k + 1] { }
      forall k | 0 <= k < |r| ensures r[k] != s[i] {
        assert r[k] == s[if k < i then k else k + 1];
      }
      forall a, b | 0 <= a < b < |r| ensures r[a] != r[b] {
        assert r[a] == s[if a < i then a else a + 1];
        assert r[b] == s[if b < i then b else b + 1];
      }
    }
  }
}
