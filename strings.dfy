/** The string operations of JavaScript that the core relies on, over
    `seq<char>`: prefix and suffix tests, `includes`, `split(' ')` and
    `join(' ')`, decimal rendering of a number and `parseInt`, and the code
    point order that sorts names. */
module Strings {
  import opened Common
  import Sorting

  predicate StartsWith(s: string, prefix: string) {
    |prefix| <= |s| && s[..|prefix|] == prefix
  }

  predicate EndsWith(s: string, suffix: string) {
    |suffix| <= |s| && s[|s| - |suffix|..] == suffix
  }

  /** `s.includes(p)`, scanning from the left. */
  predicate Contains(s: string, p: string)
    decreases |s|
  {
    StartsWith(s, p) || (|s| > 0 && Contains(s[1..], p))
  }

  /** `p` occurs in `s` at position `i`. */
  predicate OccursAt(s: string, p: string, i: int) {
    0 <= i && i + |p| <= |s| && s[i..i + |p|] == p
  }

  /** `includes` holds exactly when the needle occurs at some position. */
  lemma {:induction false} ContainsIff(s: string, p: string)
    ensures Contains(s, p) <==> exists i :: OccursAt(s, p, i)
    decreases |s|
  {
    if |s| == 0 {
      if p == [] {
        assert OccursAt(s, p, 0);
      }
    } else {
      ContainsIff(s[1..], p);
      if StartsWith(s, p) {
        assert s[0..|p|] == s[..|p|];
        assert OccursAt(s, p, 0);
      } else if Contains(s[1..], p) {
        var i :| OccursAt(s[1..], p, i);
        assert s[1..][i..i + |p|] == s[i + 1..i + 1 + |p|];
        assert OccursAt(s, p, i + 1);
      }
      forall i | OccursAt(s, p, i) ensures Contains(s, p) {
        if i == 0 {
          assert s[..|p|] == s[0..|p|];
        } else {
          assert s[1..][i - 1..i - 1 + |p|] == s[i..i + |p|];
          assert OccursAt(s[1..], p, i - 1);
        }
      }
    }
  }

  // ---------------------------------------------------------------------
  // split(' ') and join(' ')

  /** `s.split(c)`: the pieces between the occurrences of `c`; never empty. */
  function Split(s: string, c: char): (r: seq<string>)
    ensures |r| >= 1
  {
    if s == [] then [""]
    else if s[0] == c then [""] + Split(s[1..], c)
    else
      var rest := Split(s[1..], c);
      [[s[0]] + rest[0]] + rest[1..]
  }

  /** `parts.join(c)`; the join of no parts is "". */
  function Join(parts: seq<string>, c: char): string {
    if parts == [] then ""
    else if |parts| == 1 then parts[0]
    else parts[0] + [c] + Join(parts[1..], c)
  }

  /** The index of the first occurrence of `c`. */
  function IndexOf(s: string, c: char): (r: Option<nat>)
    ensures r.Some? ==> r.value < |s| && s[r.value] == c && c !in s[..r.value]
    ensures r.None? <==> c !in s
  {
    if s == [] then None
    else if s[0] == c then Some(0)
    else
      match IndexOf(s[1..], c)
      case None => None
      case Some(k) =>
        assert s[..k + 1] == [s[0]] + s[1..][..k];
        Some(k + 1)
  }

  /** A split of a string that does not start with the separator: the first
      character joins the first piece of the rest. */
  lemma SplitCons(s: string, c: char)
    requires s != [] && s[0] != c
    ensures Split(s, c)[0] == [s[0]] + Split(s[1..], c)[0]
    ensures Split(s, c)[1..] == Split(s[1..], c)[1..]
  {
  }

  /** The first piece of a split runs up to the first separator, and the
      others, joined back, are what follows it. */
  lemma {:induction false} SplitAtFirst(s: string, c: char)
    ensures IndexOf(s, c).None? ==> Split(s, c) == [s]
    ensures IndexOf(s, c).Some? ==>
      var k := IndexOf(s, c).value;
      Split(s, c)[0] == s[..k] && Join(Split(s, c)[1..], c) == s[k + 1..]
  {
    if s == [] {
    } else if s[0] == c {
      JoinSplit(s[1..], c);
      SplitAtHead(s, c);
    } else {
      SplitAtFirst(s[1..], c);
      SplitCons(s, c);
      if IndexOf(s[1..], c).None? {
        SplitNone(s, c);
      } else {
        SplitAtLater(s, c, IndexOf(s[1..], c).value);
      }
    }
  }

  /** The step of `SplitAtFirst` when the string starts with the separator. */
  lemma SplitAtHead(s: string, c: char)
    requires s != [] && s[0] == c
    requires Join(Split(s[1..], c), c) == s[1..]
    ensures IndexOf(s, c) == Some(0)
    ensures Split(s, c)[0] == s[..0] && Join(Split(s, c)[1..], c) == s[1..]
  {
    assert Split(s, c)[1..] == Split(s[1..], c);
  }

  /** The step of `SplitAtFirst` when there is no separator. */
  lemma SplitNone(s: string, c: char)
    requires s != [] && s[0] != c
    requires IndexOf(s[1..], c).None? && Split(s[1..], c) == [s[1..]]
    requires Split(s, c)[0] == [s[0]] + Split(s[1..], c)[0]
    requires Split(s, c)[1..] == Split(s[1..], c)[1..]
    ensures IndexOf(s, c).None? && Split(s, c) == [s]
  {
    assert Split(s, c) == [Split(s, c)[0]] + Split(s, c)[1..];
    assert s == [s[0]] + s[1..];
  }

  /** The step of `SplitAtFirst` when the separator comes later. */
  lemma SplitAtLater(s: string, c: char, k: nat)
    requires s != [] && s[0] != c
    requires IndexOf(s[1..], c) == Some(k)
    requires Split(s[1..], c)[0] == s[1..][..k] && Join(Split(s[1..], c)[1..], c) == s[1..][k + 1..]
    requires Split(s, c)[0] == [s[0]] + Split(s[1..], c)[0]
    requires Split(s, c)[1..] == Split(s[1..], c)[1..]
    ensures IndexOf(s, c) == Some(k + 1)
    ensures Split(s, c)[0] == s[..k + 1] && Join(Split(s, c)[1..], c) == s[k + 2..]
  {
    assert [s[0]] + s[1..][..k] == s[..k + 1];
    assert s[1..][k + 1..] == s[k + 2..];
  }

  /** Joining the pieces of a split gives back the string. */
  lemma {:induction false} JoinSplit(s: string, c: char)
    ensures Join(Split(s, c), c) == s
  {
    if s == [] {
    } else if s[0] == c {
      JoinSplit(s[1..], c);
      assert s == [c] + s[1..];
    } else {
      JoinSplit(s[1..], c);
      var rest := Split(s[1..], c);
      var r := Split(s, c);
      assert r[0] == [s[0]] + rest[0];
      assert r[1..] == rest[1..];
      if |rest| == 1 {
        assert s == [s[0]] + rest[0];
      } else {
        assert Join(rest, c) == rest[0] + [c] + Join(rest[1..], c);
        assert s == [s[0]] + s[1..];
      }
    }
  }

  // ---------------------------------------------------------------------
  // Decimal numbers

  predicate IsDigit(ch: char) {
    '0' <= ch <= '9'
  }

  predicate AllDigits(s: string) {
    forall i :: 0 <= i < |s| ==> IsDigit(s[i])
  }

  function DigitChar(d: nat): char
    requires d < 10
  {
    ('0' as int + d) as char
  }

  /** `String(n)` for a non-negative integer: its decimal digits. */
  function NatToString(n: nat): (r: string)
    ensures |r| >= 1 && AllDigits(r)
  {
    if n < 10 then [DigitChar(n)] else NatToString(n / 10) + [DigitChar(n % 10)]
  }

  /** The value of a string of decimal digits. */
  function DigitsValue(s: string): nat
    requires AllDigits(s)
  {
    if s == [] then 0
    else DigitsValue(s[..|s| - 1]) * 10 + (s[|s| - 1] as int - '0' as int)
  }

  lemma {:induction false} DigitsValueOfNatToString(n: nat)
    ensures DigitsValue(NatToString(n)) == n
  {
    if n >= 10 {
      var s := NatToString(n);
      assert s[..|s| - 1] == NatToString(n / 10);
      DigitsValueOfNatToString(n / 10);
    }
  }

  /** The length of the run of digits at the front of `s`. */
  function DigitRun(s: string): (k: nat)
    ensures k <= |s| && AllDigits(s[..k])
    ensures k < |s| ==> !IsDigit(s[k])
  {
    if s == [] || !IsDigit(s[0]) then 0
    else
      var k := DigitRun(s[1..]);
      assert s[..k + 1] == [s[0]] + s[1..][..k];
      k + 1
  }

  /** The characters `parseInt` skips before the number: ECMAScript's
      WhiteSpace and LineTerminator productions. */
  predicate IsSpace(ch: char) {
    || ch == '\t' || ch == '\n' || ch == '\U{000B}' || ch == '\U{000C}' || ch == '\r' || ch == ' '
    || ch == '\U{00A0}' || ch == '\U{1680}' || '\U{2000}' <= ch <= '\U{200A}'
    || ch == '\U{2028}' || ch == '\U{2029}' || ch == '\U{202F}' || ch == '\U{205F}'
    || ch == '\U{3000}' || ch == '\U{FEFF}'
  }

  function TrimStart(s: string): (r: string)
    ensures |r| <= |s|
    ensures r == s[|s| - |r|..]
    ensures forall i :: 0 <= i < |s| - |r| ==> IsSpace(s[i])
    ensures r != [] ==> !IsSpace(r[0])
  {
    if s != [] && IsSpace(s[0]) then TrimStart(s[1..]) else s
  }

  predicate IsHexDigit(ch: char) {
    IsDigit(ch) || 'a' <= ch <= 'f' || 'A' <= ch <= 'F'
  }

  predicate AllHexDigits(s: string) {
    forall i :: 0 <= i < |s| ==> IsHexDigit(s[i])
  }

  function HexDigitValue(ch: char): (d: nat)
    requires IsHexDigit(ch)
    ensures d < 16
  {
    if IsDigit(ch) then ch as int - '0' as int
    else if 'a' <= ch <= 'f' then ch as int - 'a' as int + 10
    else ch as int - 'A' as int + 10
  }

  /** The length of the run of hexadecimal digits at the front of `s`. */
  function HexRun(s: string): (k: nat)
    ensures k <= |s| && AllHexDigits(s[..k])
    ensures k < |s| ==> !IsHexDigit(s[k])
  {
    if s == [] || !IsHexDigit(s[0]) then 0
    else
      var k := HexRun(s[1..]);
      assert s[..k + 1] == [s[0]] + s[1..][..k];
      k + 1
  }

  /** The value of a string of hexadecimal digits. */
  function HexValue(s: string): nat
    requires AllHexDigits(s)
  {
    if s == [] then 0
    else HexValue(s[..|s| - 1]) * 16 + HexDigitValue(s[|s| - 1])
  }

  /** `0x` or `0X`: the prefix that makes `parseInt` without a radix read
      base sixteen. */
  predicate HasHexPrefix(s: string) {
    |s| >= 2 && s[0] == '0' && (s[1] == 'x' || s[1] == 'X')
  }

  /** `parseInt(s)` without a radix: leading white space, an optional sign,
      then the longest run of hexadecimal digits after a `0x` prefix, or
      else of decimal digits; `None` stands for NaN. */
  function ParseInt(s: string): Option<int> {
    ParseSigned(TrimStart(s))
  }

  /** `parseInt` after the white space. */
  function ParseSigned(t: string): Option<int> {
    var negative := t != [] && t[0] == '-';
    var body := if t != [] && (t[0] == '-' || t[0] == '+') then t[1..] else t;
    if HasHexPrefix(body) then
      var k := HexRun(body[2..]);
      if k == 0 then None
      else
        var v: int := HexValue(body[2..][..k]);
        Some(if negative then -v else v)
    else
      var k := DigitRun(body);
      if k == 0 then None
      else
        var v: int := DigitsValue(body[..k]);
        Some(if negative then -v else v)
  }

  /** `parseInt(String(n)) === n`. */
  lemma ParseIntOfNatToString(n: nat)
    ensures ParseInt(NatToString(n)) == Some(n)
  {
    ParseIntOfDigits(NatToString(n));
    DigitsValueOfNatToString(n);
  }

  /** A string made only of digits is never NaN. */
  lemma ParseIntOfDigits(s: string)
    requires |s| >= 1 && AllDigits(s)
    ensures ParseInt(s) == Some(DigitsValue(s))
  {
    assert IsDigit(s[0]) && !IsSpace(s[0]);
    assert TrimStart(s) == s;
    assert s[0] != '-' && s[0] != '+';
    assert !HasHexPrefix(s) by {
      if |s| >= 2 { assert IsDigit(s[1]); }
    }
    var k := DigitRun(s);
    assert k == |s| by {
      assert forall i :: 0 <= i < |s| ==> IsDigit(s[i]);
    }
    assert s[..k] == s;
  }

  /** A leading white-space character changes nothing. */
  lemma ParseIntSkipsSpace(c: char, s: string)
    requires IsSpace(c)
    ensures ParseInt([c] + s) == ParseInt(s)
  {
    assert ([c] + s)[1..] == s;
    assert TrimStart([c] + s) == TrimStart(s);
  }

  /** After `0x`, a run of hexadecimal digits is read in base sixteen. */
  lemma ParseIntOfHex(s: string)
    requires |s| >= 1 && AllHexDigits(s)
    ensures ParseInt("0x" + s) == Some(HexValue(s))
  {
    var t := "0x" + s;
    assert !IsSpace(t[0]);
    assert TrimStart(t) == t;
    assert t[0] != '-' && t[0] != '+';
    assert HasHexPrefix(t) && t[2..] == s;
    var k := HexRun(s);
    assert k == |s| by {
      assert forall i :: 0 <= i < |s| ==> IsHexDigit(s[i]);
    }
    assert s[..k] == s;
  }

  // ---------------------------------------------------------------------
  // Code point order

  /** `a` sorts no later than `b` in lexicographic code point order. */
  predicate StrLe(a: string, b: string) {
    a == [] || (b != [] && (a[0] < b[0] || (a[0] == b[0] && StrLe(a[1..], b[1..]))))
  }

  lemma {:induction false} StrLeTotal(a: string, b: string)
    ensures StrLe(a, b) || StrLe(b, a)
  {
    if a != [] && b != [] && a[0] == b[0] {
      StrLeTotal(a[1..], b[1..]);
    }
  }

  lemma {:induction false} StrLeTransitive(a: string, b: string, c: string)
    requires StrLe(a, b) && StrLe(b, c)
    ensures StrLe(a, c)
  {
    if a != [] && b != [] && c != [] && a[0] == b[0] && b[0] == c[0] {
      StrLeTransitive(a[1..], b[1..], c[1..]);
    }
  }

  lemma StrLeIsTotalPreorder()
    ensures Sorting.TotalPreorder(StrLe)
  {
    forall a, b ensures StrLe(a, b) || StrLe(b, a) {
      StrLeTotal(a, b);
    }
    forall a, b, c | StrLe(a, b) && StrLe(b, c) ensures StrLe(a, c) {
      StrLeTransitive(a, b, c);
    }
  }
}
