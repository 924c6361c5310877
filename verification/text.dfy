/** The few JavaScript string primitives the components rely on, over `seq<char>`:
    `String(n)` for integers, `Number.parseInt` without a radix argument,
    `String.prototype.trim`, `startsWith` and `replace` of a one-character pattern. */
module Text {
  import opened Common

  /** ECMAScript WhiteSpace and LineTerminator code points: the set `trim` strips and
      `parseInt` skips. */
  predicate IsJsWhitespace(c: char) {
    || c == '\t' || c == '\n' || c == '\U{000B}' || c == '\U{000C}' || c == '\r' || c == ' '
    || c == '\U{00A0}' || c == '\U{1680}' || ('\U{2000}' <= c <= '\U{200A}')
    || c == '\U{2028}' || c == '\U{2029}' || c == '\U{202F}' || c == '\U{205F}'
    || c == '\U{3000}' || c == '\U{FEFF}'
  }

  predicate IsDecimalDigit(c: char) { '0' <= c <= '9' }

  predicate IsHexDigit(c: char) {
    IsDecimalDigit(c) || ('a' <= c <= 'f') || ('A' <= c <= 'F')
  }

  /** Digits of radix 16 when `hex` holds, of radix 10 otherwise. */
  predicate IsRadixDigit(c: char, hex: bool) {
    if hex then IsHexDigit(c) else IsDecimalDigit(c)
  }

  function DigitValue(c: char): (d: nat)
    requires IsHexDigit(c)
    ensures d < 16
    ensures IsDecimalDigit(c) ==> d < 10
  {
    if IsDecimalDigit(c) then (c as int) - ('0' as int)
    else if 'a' <= c <= 'f' then (c as int) - ('a' as int) + 10
    else (c as int) - ('A' as int) + 10
  }

  function DigitChar(d: nat): (c: char)
    requires d < 10
    ensures IsDecimalDigit(c) && DigitValue(c) == d
  {
    ('0' as int + d) as char
  }

  /** Value of a string of digits, most significant first. */
  function RadixValue(s: string, hex: bool): nat
    requires forall i :: 0 <= i < |s| ==> IsRadixDigit(s[i], hex)
  {
    if |s| == 0 then 0
    else
      assert IsRadixDigit(s[|s| - 1], hex);
      var high := RadixValue(s[..|s| - 1], hex);
      (if hex then 16 * high else 10 * high) + DigitValue(s[|s| - 1])
  }

  /** The value of a string's leading part, read inside a longer text. */
  lemma RadixValueOfPrefix(a: string, b: string, c: string, hex: bool)
    requires forall i :: 0 <= i < |a| ==> IsRadixDigit(a[i], hex)
    ensures (a + b + c)[..|a|] == a
    ensures RadixValue((a + b + c)[..|a|], hex) == RadixValue(a, hex)
  {
    assert (a + b + c)[..|a|] == a;
  }

  /** `String(n)` for a natural number: decimal digits without leading zeros. */
  function NatToString(n: nat): (r: string)
    ensures |r| >= 1
    ensures forall i :: 0 <= i < |r| ==> IsDecimalDigit(r[i])
    ensures r[0] == '0' ==> n == 0 && |r| == 1
  {
    if n < 10 then [DigitChar(n)] else NatToString(n / 10) + [DigitChar(n % 10)]
  }

  /** `String(i)` (and `${i}`) for an integer. */
  function IntToString(i: int): (r: string)
    ensures |r| >= 1
    ensures forall k :: 0 <= k < |r| ==> IsDecimalDigit(r[k]) || r[k] == '-'
    ensures i >= 0 <==> IsDecimalDigit(r[0])
  {
    if i < 0 then "-" + NatToString(-i) else NatToString(i)
  }

  /** Reading back the digits `NatToString` writes gives the number again. */
  lemma {:induction false} NatToStringValue(n: nat)
    ensures RadixValue(NatToString(n), false) == n
  {
    if n >= 10 {
      var s := NatToString(n);
      assert s[..|s| - 1] == NatToString(n / 10);
      NatToStringValue(n / 10);
    }
  }

  /** `trimStart`: drops the leading JavaScript whitespace and keeps the rest. */
  function TrimStart(s: string): (r: string)
    ensures |r| <= |s| && r == s[|s| - |r|..]
    ensures forall i :: 0 <= i < |s| - |r| ==> IsJsWhitespace(s[i])
    ensures |r| > 0 ==> !IsJsWhitespace(r[0])
  {
    if |s| > 0 && IsJsWhitespace(s[0]) then
      var r := TrimStart(s[1..]);
      assert r == s[|s| - |r|..];
      assert forall i :: 1 <= i < |s| - |r| ==> s[i] == s[1..][i - 1];
      r
    else s
  }

  /** `trimEnd`: drops the trailing JavaScript whitespace and keeps the rest. */
  function TrimEnd(s: string): (r: string)
    ensures |r| <= |s| && r == s[..|r|]
    ensures forall i :: |r| <= i < |s| ==> IsJsWhitespace(s[i])
    ensures |r| > 0 ==> !IsJsWhitespace(r[|r| - 1])
  {
    if |s| > 0 && IsJsWhitespace(s[|s| - 1]) then
      var r := TrimEnd(s[..|s| - 1]);
      assert r == s[..|r|];
      assert forall i :: |r| <= i < |s| - 1 ==> s[i] == s[..|s| - 1][i];
      r
    else s
  }

  /** `String.prototype.trim`. */
  function Trim(s: string): string {
    TrimEnd(TrimStart(s))
  }

  /** A string trims to the empty string exactly when every character is whitespace,
      which is when JavaScript treats `s.trim()` as falsy. */
  lemma TrimEmptyIff(s: string)
    ensures Trim(s) == "" <==> forall i :: 0 <= i < |s| ==> IsJsWhitespace(s[i])
  {
    if Trim(s) == "" {
      assert TrimStart(s) == "";
    }
  }

  predicate StartsWith(s: string, prefix: string) {
    |prefix| <= |s| && s[..|prefix|] == prefix
  }

  /** `s.replace(c, "")` with a one-character string pattern: only the first occurrence
      is removed. */
  function RemoveFirst(s: string, c: char): (r: string)
    ensures c !in s ==> r == s
    ensures c in s ==> exists i :: 0 <= i < |s| && s[i] == c && c !in s[..i] && r == s[..i] + s[i + 1..]
  {
    var k := FindIndex(s, c);
    if k == -1 then s
    else
      PrefixBeforeFirst(s, c, k);
      var r := s[..k] + s[k + 1..];
      assert s[k] == c && c !in s[..k] && r == s[..k] + s[k + 1..];
      r
  }

  /** Nothing before the first occurrence is that character. */
  lemma PrefixBeforeFirst(s: string, c: char, k: nat)
    requires k <= |s| && forall j :: 0 <= j < k ==> s[j] != c
    ensures c !in s[..k]
  {
    forall j | 0 <= j < k ensures s[..k][j] != c {
      assert s[..k][j] == s[j];
    }
  }

  /** The length of the longest prefix of `s` made of digits of the radix. */
  function DigitRun(s: string, hex: bool): (n: nat)
    ensures n <= |s|
  {
    if |s| > 0 && IsRadixDigit(s[0], hex) then 1 + DigitRun(s[1..], hex) else 0
  }

  /** The run is made of digits and is maximal. */
  lemma {:induction false} DigitRunIsLongest(s: string, hex: bool)
    ensures forall i :: 0 <= i < DigitRun(s, hex) ==> IsRadixDigit(s[i], hex)
    ensures DigitRun(s, hex) < |s| ==> !IsRadixDigit(s[DigitRun(s, hex)], hex)
    decreases |s|
  {
    if |s| > 0 && IsRadixDigit(s[0], hex) {
      DigitRunIsLongest(s[1..], hex);
    }
  }

  /** The unsigned part of `Number.parseInt`: a `0x`/`0X` prefix selects hexadecimal,
      and the longest run of digits that follows is the value; `None` without digits. */
  function ParseUnsigned(u: string): Option<nat> {
    var hex := |u| >= 2 && u[0] == '0' && (u[1] == 'x' || u[1] == 'X');
    var body := if hex then u[2..] else u;
    var n := DigitRun(body, hex);
    DigitRunIsLongest(body, hex);
    if n == 0 then None else Some(RadixValue(body[..n], hex))
  }

  /** `Number.parseInt(s)` with no radix argument, `None` standing for NaN: leading
      whitespace is skipped and one sign is read before the unsigned part. */
  function ParseInt(s: string): Option<int> {
    var t := TrimStart(s);
    var signed := |t| > 0 && (t[0] == '-' || t[0] == '+');
    var magnitude := ParseUnsigned(if signed then t[1..] else t);
    if magnitude.None? then None
    else if signed && t[0] == '-' then Some(-(magnitude.value as int))
    else Some(magnitude.value)
  }

  /** A run of decimal digits that does not start with `0x` is read as decimal. */
  lemma ParseUnsignedOfDigits(digits: string)
    requires |digits| >= 1
    requires forall i :: 0 <= i < |digits| ==> IsDecimalDigit(digits[i])
    requires digits[0] == '0' ==> |digits| == 1
    ensures ParseUnsigned(digits) == Some(RadixValue(digits, false))
  {
    DigitRunOfDigits(digits, false);
    assert digits[..|digits|] == digits;
  }

  /** A string with no decimal digit in it parses to NaN. */
  lemma ParseIntWithoutDigits(s: string)
    requires forall i :: 0 <= i < |s| ==> !IsDecimalDigit(s[i])
    ensures ParseInt(s) == None
  {
    var t := TrimStart(s);
    var signed := |t| > 0 && (t[0] == '-' || t[0] == '+');
    var u := if signed then t[1..] else t;
    assert |u| > 0 ==> !IsDecimalDigit(u[0]) by {
      if |u| > 0 {
        var d := if signed then 1 else 0;
        assert u[0] == t[d] == s[|s| - |t| + d];
      }
    }
    ParseUnsignedWithoutDigit(u);
  }

  /** Text that does not start with a digit has no number. */
  lemma ParseUnsignedWithoutDigit(u: string)
    requires |u| > 0 ==> !IsDecimalDigit(u[0])
    ensures ParseUnsigned(u) == None
  {
  }

  /** Parsing what `String(n)` prints gives `n` back, for every natural number. */
  lemma ParseIntOfNatToString(n: nat)
    ensures ParseInt(NatToString(n)) == Some(n)
  {
    NatToStringValue(n);
    ParseIntOfDigits(NatToString(n));
  }

  /** A run of decimal digits that does not start with `0x` parses to its decimal
      value. */
  lemma ParseIntOfDigits(digits: string)
    requires |digits| >= 1
    requires forall i :: 0 <= i < |digits| ==> IsDecimalDigit(digits[i])
    requires digits[0] == '0' ==> |digits| == 1
    ensures ParseInt(digits) == Some(RadixValue(digits, false) as int)
  {
    ParseUnsignedOfDigits(digits);
    assert !IsJsWhitespace(digits[0]);
    assert TrimStart(digits) == digits;
  }

  lemma {:induction false} DigitRunOfDigits(s: string, hex: bool)
    requires forall i :: 0 <= i < |s| ==> IsRadixDigit(s[i], hex)
    ensures DigitRun(s, hex) == |s|
  {
    if |s| > 0 {
      DigitRunOfDigits(s[1..], hex);
    }
  }


  /** `s.split(sep)` with a one-character separator: the pieces between occurrences, so
      there is always at least one piece and none contains the separator. */
  function Split(s: string, sep: char): (r: seq<string>)
    ensures |r| >= 1
    decreases |s|
  {
    var k := FindIndex(s, sep);
    if k == -1 then [s] else [s[..k]] + Split(s[k + 1..], sep)
  }

  /** `parts.join(sep)`. */
  function Join(parts: seq<string>, sep: char): string
    requires |parts| >= 1
    decreases |parts|
  {
    if |parts| == 1 then parts[0] else parts[0] + [sep] + Join(parts[1..], sep)
  }

  /** A string is the part before a position, the character there and the rest. */
  lemma Around(s: string, k: int)
    requires 0 <= k < |s|
    ensures s == s[..k] + [s[k]] + s[k + 1..]
  {
  }

  lemma JoinCons(head: string, tail: seq<string>, sep: char)
    requires |tail| >= 1
    ensures Join([head] + tail, sep) == head + [sep] + Join(tail, sep)
  {
    assert ([head] + tail)[1..] == tail;
  }

  /** Joining the pieces of a split gives the string back. */
  lemma {:induction false} JoinSplit(s: string, sep: char)
    ensures Join(Split(s, sep), sep) == s
    decreases |s|
  {
    var k := FindIndex(s, sep);
    if k != -1 {
      var head, rest := s[..k], s[k + 1..];
      assert Split(s, sep) == [head] + Split(rest, sep);
      JoinCons(head, Split(rest, sep), sep);
      JoinSplit(rest, sep);
      Around(s, k);
    }
  }

  /** Splitting a join of pieces free of the separator gives the pieces back. */
  lemma {:induction false} SplitJoin(parts: seq<string>, sep: char)
    requires |parts| >= 1
    requires forall i :: 0 <= i < |parts| ==> sep !in parts[i]
    ensures Split(Join(parts, sep), sep) == parts
    decreases |parts|
  {
    var p := parts[0];
    if |parts| == 1 {
      assert FindIndex(p, sep) == -1;
    } else {
      var tail := parts[1..];
      assert parts == [p] + tail;
      JoinCons(p, tail, sep);
      SplitCons(p, Join(tail, sep), sep);
      SplitJoin(tail, sep);
    }
  }

  /** No part of a split holds the separator. */
  lemma {:induction false} SplitPartsLackSeparator(s: string, sep: char)
    ensures forall i :: 0 <= i < |Split(s, sep)| ==> sep !in Split(s, sep)[i]
    decreases |s|
  {
    var k := FindIndex(s, sep);
    if k != -1 {
      PrefixBeforeFirst(s, sep, k);
      SplitPartsLackSeparator(s[k + 1..], sep);
      assert Split(s, sep) == [s[..k]] + Split(s[k + 1..], sep);
    }
  }

  /** The first separator of `p + [sep] + rest` is the one after `p` when `p` has none. */
  lemma SplitCons(p: string, rest: string, sep: char)
    requires sep !in p
    ensures Split(p + [sep] + rest, sep) == [p] + Split(rest, sep)
  {
    var s := p + [sep] + rest;
    assert FindIndex(s, sep) == |p| by {
      assert s[|p|] == sep;
      forall j | 0 <= j < |p| ensures s[j] != sep {
        assert s[j] == p[j];
      }
    }
    assert s[..|p|] == p;
    assert s[|p| + 1..] == rest;
  }

}
