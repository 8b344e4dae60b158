/** String operations of JavaScript that the API client relies on, and the
    Option/Result wrappers used for `undefined` values and thrown errors. */
module Strings {

  datatype Option<+T> = None | Some(value: T)

  /** A completed promise: a value, or the error it was rejected with. */
  datatype Result<+T, +E> = Ok(value: T) | Err(error: E)

  /** `s.startsWith(p)` */
  predicate StartsWith(s: string, p: string) {
    |p| <= |s| && s[..|p|] == p
  }

  /** `s.endsWith(p)`; every string ends with "". */
  predicate EndsWith(s: string, p: string) {
    |p| <= |s| && s[|s| - |p|..] == p
  }

  /** `s.includes(sub)` */
  predicate Contains(s: string, sub: string)
    decreases |s|
  {
    StartsWith(s, sub) || (|s| > 0 && Contains(s[1..], sub))
  }

  /** `s.substring(n)` for `0 <= n <= s.length`. */
  function Drop(s: string, n: nat): string
    requires n <= |s|
  {
    s[n..]
  }

  /** Number of occurrences of `c` in `s`. */
  function Count(s: string, c: char): nat {
    if s == [] then 0 else (if s[0] == c then 1 else 0) + Count(s[1..], c)
  }

  /** `s.split(sep)` for a one-character separator: the pieces between
      separators, "" included, so that `"".split(",")` is `[""]`. */
  function Split(s: string, sep: char): (parts: seq<string>)
    ensures |parts| >= 1
  {
    if s == [] then [""]
    else
      var rest := Split(s[1..], sep);
      if s[0] == sep then [""] + rest else [[s[0]] + rest[0]] + rest[1..]
  }

  /** `parts.join(sep)` */
  function Join(parts: seq<string>, sep: char): string
    requires |parts| >= 1
  {
    if |parts| == 1 then parts[0] else parts[0] + [sep] + Join(parts[1..], sep)
  }

  /** Splitting at `sep` loses nothing: joining the pieces gives `s` back,
      no piece holds a separator, and there is one piece more than there are
      separators. */
  lemma {:induction false} SplitJoin(s: string, sep: char)
    ensures Join(Split(s, sep), sep) == s
    ensures |Split(s, sep)| == Count(s, sep) + 1
    ensures forall k :: 0 <= k < |Split(s, sep)| ==> sep !in Split(s, sep)[k]
  {
    if s != [] {
      SplitJoin(s[1..], sep);
      var rest := Split(s[1..], sep);
      if s[0] == sep {
        assert Split(s, sep) == [""] + rest;
        assert ([""] + rest)[1..] == rest;
      } else {
        var parts := Split(s, sep);
        assert parts == [[s[0]] + rest[0]] + rest[1..];
        if |rest| > 1 {
          assert parts[1..] == rest[1..];
          assert Join(rest, sep) == rest[0] + [sep] + Join(rest[1..], sep);
        }
        forall k | 0 <= k < |parts| ensures sep !in parts[k] {
          if k > 0 { assert parts[k] == rest[k]; }
        }
      }
    }
  }

  /** `s.split(sep).pop()` */
  function LastSplit(s: string, sep: char): string {
    var parts := Split(s, sep);
    parts[|parts| - 1]
  }

  /** `last` is the text after the last `sep` in `s`: it holds no separator,
      ends `s`, and what precedes it is either empty or ends with `sep`. */
  predicate IsLastPiece(s: string, sep: char, last: string) {
    sep !in last && EndsWith(s, last) &&
    (|last| == |s| || s[|s| - |last| - 1] == sep)
  }

  /** The last piece of a split is the text after the last separator. */
  lemma {:induction false} LastPiece(s: string, sep: char)
    ensures IsLastPiece(s, sep, LastSplit(s, sep))
  {
    if s != [] {
      var rest := Split(s[1..], sep);
      LastPiece(s[1..], sep);
      LastOfSplitCons(s, sep);
      if s[0] != sep && |rest| == 1 {
        WholeLastPiece(s, sep);
      } else {
        if s[0] != sep {
          SplitJoin(s[1..], sep);
          CountedIsIn(s[1..], sep);
        }
        LastPieceCons(s, sep, LastSplit(s[1..], sep));
      }
    }
  }

  /** The inductive step of `LastPiece` when the last piece of `s` is the
      last piece of `s[1..]`. */
  lemma LastPieceCons(s: string, sep: char, last: string)
    requires s != [] && IsLastPiece(s[1..], sep, last)
    requires s[0] == sep || sep in s[1..]
    ensures IsLastPiece(s, sep, last)
  {
    SuffixCons(s, last);
    if s[0] != sep {
      assert last != s[1..];
    }
    SepBeforeSuffix(s, last, sep);
  }

  lemma SepBeforeSuffix(s: string, p: string, sep: char)
    requires s != [] && |p| <= |s| - 1
    requires |p| == |s| - 1 ==> s[0] == sep
    requires |p| < |s| - 1 ==> s[1..][|s[1..]| - |p| - 1] == sep
    ensures s[|s| - |p| - 1] == sep
  {
  }

  /** A split of `s` into one piece more than `s[1..]` has: the last piece
      is `s` itself, which then holds no separator. */
  lemma WholeLastPiece(s: string, sep: char)
    requires s != [] && s[0] != sep && |Split(s[1..], sep)| == 1
    ensures IsLastPiece(s, sep, s)
  {
    SplitJoin(s[1..], sep);
    assert s == [s[0]] + Split(s[1..], sep)[0];
    assert s[0..] == s;
  }

  lemma {:induction false} CountedIsIn(s: string, c: char)
    requires Count(s, c) > 0
    ensures c in s
  {
    if s[0] != c {
      CountedIsIn(s[1..], c);
    }
  }

  /** The last piece of a split of `s` in terms of the split of `s[1..]`. */
  lemma LastOfSplitCons(s: string, sep: char)
    requires s != []
    ensures LastSplit(s, sep) == if s[0] != sep && |Split(s[1..], sep)| == 1 then s else LastSplit(s[1..], sep)
  {
    var rest := Split(s[1..], sep);
    var parts := Split(s, sep);
    if s[0] == sep {
      assert parts == [""] + rest;
    } else if |rest| > 1 {
      assert parts == [[s[0]] + rest[0]] + rest[1..];
    } else {
      SplitJoin(s[1..], sep);
      assert parts == [[s[0]] + rest[0]];
    }
  }

  /** A suffix of `s[1..]` is a suffix of `s`, preceded by the same
      character. */
  lemma SuffixCons(s: string, p: string)
    requires s != [] && EndsWith(s[1..], p)
    ensures EndsWith(s, p)
    ensures |p| < |s| - 1 ==> s[|s| - |p| - 1] == s[1..][|s| - 1 - |p| - 1]
    ensures |p| == |s| - 1 ==> s[|s| - |p| - 1] == s[0]
  {
    assert s[|s| - |p|..] == s[1..][|s| - 1 - |p|..];
  }

  predicate IsJsSpace(c: char) {
    c == ' ' || c == '\t' || c == '\n' || c == '\r' || c == '\U{B}' || c == '\U{C}' ||
    c == '\U{A0}' || c == '\U{1680}' || ('\U{2000}' <= c <= '\U{200A}') || c == '\U{2028}' ||
    c == '\U{2029}' || c == '\U{202F}' || c == '\U{205F}' || c == '\U{3000}' || c == '\U{FEFF}'
  }

  function TrimStart(s: string): (r: string)
    ensures |r| <= |s|
  {
    if s != [] && IsJsSpace(s[0]) then TrimStart(s[1..]) else s
  }

  function TrimEnd(s: string): (r: string)
    ensures |r| <= |s|
  {
    if s != [] && IsJsSpace(s[|s| - 1]) then TrimEnd(s[..|s| - 1]) else s
  }

  /** `s.trim()` */
  function Trim(s: string): string {
    TrimEnd(TrimStart(s))
  }

  lemma {:induction false} TrimStartSpec(s: string)
    ensures EndsWith(s, TrimStart(s))
    ensures forall k :: 0 <= k < |s| - |TrimStart(s)| ==> IsJsSpace(s[k])
    ensures TrimStart(s) == [] || !IsJsSpace(TrimStart(s)[0])
  {
    if s != [] && IsJsSpace(s[0]) {
      var t := TrimStart(s[1..]);
      TrimStartSpec(s[1..]);
      assert TrimStart(s) == t;
      SuffixCons(s, t);
      forall k | 0 <= k < |s| - |t| ensures IsJsSpace(s[k]) {
        if k > 0 { assert s[k] == s[1..][k - 1]; }
      }
    } else {
      assert s[0..] == s;
    }
  }

  lemma {:induction false} TrimEndSpec(s: string)
    ensures StartsWith(s, TrimEnd(s))
    ensures forall k :: |TrimEnd(s)| <= k < |s| ==> IsJsSpace(s[k])
    ensures TrimEnd(s) == [] || !IsJsSpace(TrimEnd(s)[|TrimEnd(s)| - 1])
  {
    if s != [] && IsJsSpace(s[|s| - 1]) {
      var front := s[..|s| - 1];
      var t := TrimEnd(front);
      TrimEndSpec(front);
      assert TrimEnd(s) == t;
      assert s[..|t|] == front[..|t|];
      forall k | |t| <= k < |s| ensures IsJsSpace(s[k]) {
        if k < |s| - 1 { assert s[k] == front[k]; }
      }
    } else {
      assert s[..|s|] == s;
    }
  }

  /** Trimming removes white space from both ends and nothing else: the
      result sits inside `s` between runs of white space, and neither starts
      nor ends with white space. */
  lemma TrimSpec(s: string)
    ensures var lead := |s| - |TrimStart(s)|;
      lead + |Trim(s)| <= |s| && s[lead..lead + |Trim(s)|] == Trim(s) &&
      (forall k :: 0 <= k < lead ==> IsJsSpace(s[k])) &&
      (forall k :: lead + |Trim(s)| <= k < |s| ==> IsJsSpace(s[k]))
    ensures Trim(s) == [] || (!IsJsSpace(Trim(s)[0]) && !IsJsSpace(Trim(s)[|Trim(s)| - 1]))
  {
    var t := TrimStart(s);
    TrimStartSpec(s);
    TrimEndSpec(t);
    var lead := |s| - |t|;
    var r := Trim(s);
    assert t == s[lead..];
    assert r == t[..|r|];
    assert s[lead..lead + |r|] == r;
    forall k | lead + |r| <= k < |s| ensures IsJsSpace(s[k]) {
      assert s[k] == t[k - lead];
    }
    if r != [] { assert r[0] == t[0]; }
  }

  /** The decimal digits of `n`, as `String(n)` writes a non-negative
      integer. */
  function NatToString(n: nat): (r: string)
    ensures |r| >= 1
    ensures forall k :: 0 <= k < |r| ==> '0' <= r[k] <= '9'
  {
    var d := [(('0' as int) + n % 10) as char];
    if n < 10 then d else NatToString(n / 10) + d
  }

  /** Reading the digits back gives the number: `NatToString` is injective,
      so distinct sizes give distinct query strings. */
  function DigitsValue(r: string): int {
    if r == [] then 0 else DigitsValue(r[..|r| - 1]) * 10 + (r[|r| - 1] as int - '0' as int)
  }

  lemma {:induction false} NatToStringValue(n: nat)
    ensures DigitsValue(NatToString(n)) == n
  {
    var d := [(('0' as int) + n % 10) as char];
    if n >= 10 {
      NatToStringValue(n / 10);
      var r := NatToString(n / 10) + d;
      assert r[..|r| - 1] == NatToString(n / 10);
    }
  }
}
