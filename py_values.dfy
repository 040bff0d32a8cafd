/**
 * The Python values that flow through the job configuration: what a JSON document decodes to
 * (None, booleans, integers, strings, lists and dictionaries), with the three Python built-ins
 * the modelled code applies to them: truthiness (`if x:`, `x or y`), `str(x)` and
 * `str.split(".")`; plus the decimal parse the launcher applies to integer options.
 */
module PyValues {
  import opened Wrappers

  datatype Value =
    | VNone
    | VBool(b: bool)
    | VInt(i: int)
    | VStr(s: string)
    | VList(items: seq<Value>)
    | VDict(entries: seq<Entry>)

  /** One key/value pair of a Python dict; a dict is the sequence of its pairs in insertion order. */
  datatype Entry = Entry(key: string, val: Value)

  /** Python truthiness: None, False, 0, "" and empty containers are false. */
  predicate Truthy(v: Value) {
    match v
    case VNone => false
    case VBool(b) => b
    case VInt(i) => i != 0
    case VStr(s) => s != ""
    case VList(xs) => xs != []
    case VDict(es) => es != []
  }

  /** `d.get(key)`: the value stored under `key`, or None. */
  function Get(entries: seq<Entry>, key: string): (r: Option<Value>)
    ensures r.Some? <==> exists i :: 0 <= i < |entries| && entries[i].key == key
    ensures r.Some? ==> exists i :: 0 <= i < |entries| && entries[i] == Entry(key, r.value)
  {
    if entries == [] then None
    else if entries[0].key == key then Some(entries[0].val)
    else
      var r := Get(entries[1..], key);
      assert forall i :: 0 < i < |entries| ==> entries[i] == entries[1..][i - 1];
      assert r.Some? ==> entries[1 + 0] == entries[1..][0];
      r
  }

  /** `d.get(key)` with Python's None for a missing key. */
  function GetValue(entries: seq<Entry>, key: string): Value {
    Get(entries, key).GetOr(VNone)
  }

  // ---------------------------------------------------------------------------------------------
  // Decimal integers: `str(n)` and `int(s)`

  function DigitChar(d: nat): (c: char)
    requires d < 10
    ensures '0' <= c <= '9'
  {
    "0123456789"[d]
  }

  predicate IsDigit(c: char) { '0' <= c <= '9' }

  function DigitValue(c: char): (d: nat)
    requires IsDigit(c)
    ensures d < 10
  {
    (c as int) - ('0' as int)
  }

  /** `str(n)` for a non-negative integer: its decimal digits, most significant first. */
  function NatToString(n: nat): (s: string)
    ensures |s| > 0
    ensures forall i :: 0 <= i < |s| ==> IsDigit(s[i])
  {
    if n < 10 then [DigitChar(n)] else NatToString(n / 10) + [DigitChar(n % 10)]
  }

  /** `str(i)` for any integer: a leading '-' for negative values. */
  function IntToString(i: int): (s: string)
    ensures |s| > 0
  {
    if i < 0 then "-" + NatToString(-i) else NatToString(i)
  }

  /** The digits of `s` read as a decimal number; None unless `s` is a non-empty run of digits. */
  function ParseNat(s: string): (r: Option<nat>)
    ensures r.Some? <==> |s| > 0 && forall i :: 0 <= i < |s| ==> IsDigit(s[i])
  {
    if s == [] || !IsDigit(s[|s| - 1]) then None
    else if |s| == 1 then Some(DigitValue(s[0]))
    else
      match ParseNat(s[..|s| - 1])
      case None => None
      case Some(p) => Some(10 * p + DigitValue(s[|s| - 1]))
  }

  /** `int(s)` on an optionally signed decimal numeral. */
  function ParseInt(s: string): Option<int> {
    if |s| > 0 && s[0] == '-' then
      match ParseNat(s[1..])
      case None => None
      case Some(n) => var k: int := n; Some(-k)
    else
      match ParseNat(s)
      case None => None
      case Some(n) => var k: int := n; Some(k)
  }

  lemma {:induction false} ParseNatToString(n: nat)
    ensures ParseNat(NatToString(n)) == Some(n)
  {
    if n >= 10 {
      var s := NatToString(n);
      var prefix := NatToString(n / 10);
      assert s[..|s| - 1] == prefix;
      ParseNatToString(n / 10);
      assert DigitValue(DigitChar(n % 10)) == n % 10;
    } else {
      assert DigitValue(DigitChar(n)) == n;
    }
  }

  /** Reading back what `str` wrote for an integer gives the integer again. */
  lemma {:induction false} ParseIntToString(i: int)
    ensures ParseInt(IntToString(i)) == Some(i)
  {
    var s := IntToString(i);
    if i < 0 {
      assert s[0] == '-' && s[1..] == NatToString(-i);
      ParseNatToString(-i);
    } else {
      assert IsDigit(s[0]);
      ParseNatToString(i);
    }
  }

  // ---------------------------------------------------------------------------------------------
  // `str(v)` and `repr(v)`

  /** `str(v)`: a string is itself; containers show the `repr` of their elements. */
  function Str(v: Value): string
    decreases v, 1
  {
    match v
    case VNone => "None"
    case VBool(b) => if b then "True" else "False"
    case VInt(i) => IntToString(i)
    case VStr(s) => s
    case VList(xs) => "[" + ReprItems(xs) + "]"
    case VDict(es) => "{" + ReprEntries(es) + "}"
  }

  /** `repr(v)`: as `str`, except that a string is quoted. */
  function Repr(v: Value): string
    decreases v, 2
  {
    if v.VStr? then "'" + v.s + "'" else Str(v)
  }

  /** `", ".join(repr(x) for x in xs)`. */
  function ReprItems(xs: seq<Value>): string
    decreases xs, 0
  {
    if xs == [] then ""
    else if |xs| == 1 then Repr(xs[0])
    else ReprItems(xs[..|xs| - 1]) + ", " + Repr(xs[|xs| - 1])
  }

  /** `", ".join(f"{repr(k)}: {repr(v)}" for k, v in d.items())`. */
  function ReprEntries(es: seq<Entry>): string
    decreases es, 0
  {
    if es == [] then ""
    else
      var last := "'" + es[|es| - 1].key + "': " + Repr(es[|es| - 1].val);
      if |es| == 1 then last else ReprEntries(es[..|es| - 1]) + ", " + last
  }

  /** `str` of an integer is a numeral, which `int` reads back. */
  lemma StrIntParses(i: int)
    ensures Str(VInt(i)) == IntToString(i)
    ensures ParseInt(Str(VInt(i))) == Some(i)
  {
    ParseIntToString(i);
  }

  // ---------------------------------------------------------------------------------------------
  // `s.split(".")`

  function DotCount(s: string): nat {
    if s == [] then 0 else (if s[0] == '.' then 1 else 0) + DotCount(s[1..])
  }

  /** `s.split(".")`: the pieces between the dots, in order; "" when two dots are adjacent. */
  function SplitDots(s: string): (parts: seq<string>)
    ensures |parts| > 0
  {
    if s == [] then [""]
    else
      var rest := SplitDots(s[1..]);
      if s[0] == '.' then [""] + rest else [[s[0]] + rest[0]] + rest[1..]
  }

  /** `".".join(parts)`. */
  function JoinDots(parts: seq<string>): string
    requires |parts| > 0
  {
    if |parts| == 1 then parts[0] else parts[0] + "." + JoinDots(parts[1..])
  }

  /** Splitting on '.' yields one piece more than there are dots, none holding a dot. */
  lemma {:induction false} SplitDotsCount(s: string)
    ensures |SplitDots(s)| == DotCount(s) + 1
    ensures forall k :: 0 <= k < |SplitDots(s)| ==> '.' !in SplitDots(s)[k]
  {
    if s != [] {
      SplitDotsCount(s[1..]);
      var rest := SplitDots(s[1..]);
      if s[0] != '.' {
        assert forall k :: 0 < k < |SplitDots(s)| ==> SplitDots(s)[k] == rest[k];
        assert SplitDots(s)[0] == [s[0]] + rest[0];
      }
    }
  }

  /** Joining the pieces back with '.' gives the original string. */
  lemma {:induction false} JoinSplitDots(s: string)
    ensures JoinDots(SplitDots(s)) == s
  {
    if s != [] {
      JoinSplitDots(s[1..]);
      var rest := SplitDots(s[1..]);
      if s[0] != '.' {
        var parts := SplitDots(s);
        if |rest| == 1 {
          assert parts == [[s[0]] + rest[0]];
        } else {
          assert parts[1..] == rest[1..];
          assert JoinDots(rest) == rest[0] + "." + JoinDots(rest[1..]);
        }
        assert [s[0]] + s[1..] == s;
      }
    }
  }

  /** A string without a dot has no dots to count. */
  lemma {:induction false} DotCountZero(s: string)
    ensures DotCount(s) == 0 <==> '.' !in s
  {
    if s != [] {
      DotCountZero(s[1..]);
      assert s == [s[0]] + s[1..];
    }
  }
}
