/**
  The slice of JavaScript value semantics the auction pages rely on:
  numbers (restricted to integers, plus NaN), spreadsheet cell values,
  truthiness, the `||` operator, `Number(...)` coercion and the decimal
  rendering of a non-negative integer inside a template string.
 */
module JsValues {

  /** A JavaScript number as far as this model needs one: an integer or NaN. */
  datatype Num = Int(v: int) | NaN

  /** A decoded spreadsheet cell: text, a number, a boolean, or a missing column. */
  datatype Value = Text(s: string) | Number(n: int) | Bool(b: bool) | Undefined

  /** JavaScript `a + b` on numbers: NaN absorbs. */
  function Add(a: Num, b: Num): (r: Num)
    ensures r.Int? <==> a.Int? && b.Int?
    ensures r.Int? ==> r.v - b.v == a.v
  {
    if a.Int? && b.Int? then Int(a.v + b.v) else NaN
  }

  /** JavaScript truthiness: "", 0, false and undefined are falsy. */
  predicate Truthy(x: Value)
  {
    match x
    case Text(s) => s != ""
    case Number(n) => n != 0
    case Bool(b) => b
    case Undefined => false
  }

  /** JavaScript `a || b`: the left operand when it is truthy, else the right one. */
  function Or(a: Value, b: Value): Value
  {
    if Truthy(a) then a else b
  }

  /** `v0 || v1 || ... || vn`, grouped to the left as JavaScript parses it. */
  function OrChain(vs: seq<Value>): Value
    requires |vs| > 0
  {
    if |vs| == 1 then vs[0] else Or(OrChain(vs[..|vs| - 1]), vs[|vs| - 1])
  }

  /** Reference reading of an `||` chain: the first truthy operand, or the last one. */
  function FirstTruthy(vs: seq<Value>): (r: Value)
    requires |vs| > 0
    ensures r in vs
    ensures Truthy(r) || r == vs[|vs| - 1]
    ensures exists k :: 0 <= k < |vs| && vs[k] == r && (Truthy(r) || k == |vs| - 1) && FalsyBefore(vs, k)
  {
    if |vs| == 1 || Truthy(vs[0]) then
      vs[0]
    else
      var r := FirstTruthy(vs[1..]);
      assert exists k :: 0 <= k < |vs| && vs[k] == r && (Truthy(r) || k == |vs| - 1) && FalsyBefore(vs, k) by {
        var k :| 0 <= k < |vs[1..]| && vs[1..][k] == r && (Truthy(r) || k == |vs[1..]| - 1) && FalsyBefore(vs[1..], k);
        assert vs[k + 1] == r;
        assert FalsyBefore(vs, k + 1);
      }
      r
  }

  /** No operand before position `k` is truthy. */
  predicate FalsyBefore(vs: seq<Value>, k: nat)
    requires k <= |vs|
  {
    forall j :: 0 <= j < k ==> !Truthy(vs[j])
  }

  /** A falsy prefix is skipped by the reference reading. */
  lemma {:induction false} FirstTruthySkipsFalsy(vs: seq<Value>, k: nat)
    requires k < |vs|
    requires forall j :: 0 <= j < k ==> !Truthy(vs[j])
    ensures FirstTruthy(vs) == FirstTruthy(vs[k..])
  {
    if k > 0 {
      assert !Truthy(vs[0]) && |vs| > 1;
      assert vs[1..][k - 1..] == vs[k..];
      FirstTruthySkipsFalsy(vs[1..], k - 1);
    }
  }

  lemma {:induction false} FirstTruthyOfInit(vs: seq<Value>)
    requires |vs| >= 2
    ensures FirstTruthy(vs) == Or(FirstTruthy(vs[..|vs| - 1]), vs[|vs| - 1])
    decreases |vs|
  {
    var init := vs[..|vs| - 1];
    if !Truthy(vs[0]) && |vs| > 2 {
      var tail := vs[1..];
      assert tail[..|tail| - 1] == init[1..];
      assert tail[|tail| - 1] == vs[|vs| - 1];
      FirstTruthyOfInit(tail);
    }
  }

  /** A left-grouped `||` chain evaluates to the first truthy operand, or to the last one. */
  lemma {:induction false} OrChainIsFirstTruthy(vs: seq<Value>)
    requires |vs| > 0
    ensures OrChain(vs) == FirstTruthy(vs)
    decreases |vs|
  {
    if |vs| > 1 {
      OrChainIsFirstTruthy(vs[..|vs| - 1]);
      FirstTruthyOfInit(vs);
    }
  }

  /** `a || b || c` picks the first truthy of a and b, else c. */
  lemma OrChain3(a: Value, b: Value, c: Value)
    ensures OrChain([a, b, c]) == if Truthy(a) then a else if Truthy(b) then b else c
  {
    OrChainIsFirstTruthy([a, b, c]);
    assert [a, b, c][1..] == [b, c];
    assert [b, c][1..] == [c];
  }

  /** `a || b || c || d` picks the first truthy of a, b and c, else d. */
  lemma OrChain4(a: Value, b: Value, c: Value, d: Value)
    ensures OrChain([a, b, c, d])
              == if Truthy(a) then a else if Truthy(b) then b else if Truthy(c) then c else d
  {
    OrChainIsFirstTruthy([a, b, c, d]);
    assert [a, b, c, d][1..] == [b, c, d];
    assert [b, c, d][1..] == [c, d];
    assert [c, d][1..] == [d];
    assert FirstTruthy([c, d]) == if Truthy(c) then c else d;
    assert FirstTruthy([b, c, d]) == if Truthy(b) then b else FirstTruthy([c, d]);
  }

  /** The whitespace `Number(...)` strips from both ends of a string (ASCII subset). */
  predicate IsSpace(c: char)
  {
    c == ' ' || c == '\t' || c == '\n' || c == '\r' || c == '\U{000B}' || c == '\U{000C}'
  }

  predicate IsDigit(c: char)
  {
    '0' <= c <= '9'
  }

  predicate AllDigits(s: string)
  {
    forall i :: 0 <= i < |s| ==> IsDigit(s[i])
  }

  function TrimStart(s: string): (r: string)
    ensures |r| <= |s| && r == s[|s| - |r|..]
    ensures |r| > 0 ==> !IsSpace(r[0])
  {
    if |s| > 0 && IsSpace(s[0]) then TrimStart(s[1..]) else s
  }

  function TrimEnd(s: string): (r: string)
    ensures |r| <= |s| && r == s[..|r|]
    ensures |r| > 0 ==> !IsSpace(r[|r| - 1])
  {
    if |s| > 0 && IsSpace(s[|s| - 1]) then TrimEnd(s[..|s| - 1]) else s
  }

  function Trim(s: string): string
  {
    TrimEnd(TrimStart(s))
  }

  /** The value of a run of decimal digits, most significant first. */
  function DigitsValue(s: string): (n: nat)
    requires AllDigits(s)
  {
    if |s| == 0 then 0 else DigitsValue(s[..|s| - 1]) * 10 + (s[|s| - 1] as int - '0' as int)
  }

  /** `Number(s)` for a string: blank is 0, an optionally signed digit run is that integer, anything else NaN. */
  function StringToNumber(s: string): Num
  {
    var t := Trim(s);
    if t == "" then Int(0)
    else if t[0] == '-' && |t| > 1 && AllDigits(t[1..]) then Int(-(DigitsValue(t[1..]) as int))
    else if t[0] == '+' && |t| > 1 && AllDigits(t[1..]) then Int(DigitsValue(t[1..]))
    else if AllDigits(t) then Int(DigitsValue(t))
    else NaN
  }

  /** JavaScript `Number(v)` for a cell value. */
  function ToNumber(v: Value): Num
  {
    match v
    case Text(s) => StringToNumber(s)
    case Number(n) => Int(n)
    case Bool(b) => Int(if b then 1 else 0)
    case Undefined => NaN
  }

  function DigitChar(d: nat): (c: char)
    requires d < 10
    ensures IsDigit(c) && c as int - '0' as int == d
  {
    (d + '0' as int) as char
  }

  /** The decimal text of a non-negative integer, as `${n}` renders it. */
  function Decimal(n: nat): (s: string)
    ensures |s| > 0 && AllDigits(s)
  {
    if n < 10 then [DigitChar(n)] else Decimal(n / 10) + [DigitChar(n % 10)]
  }

  /** Reading back the decimal text of n gives n. */
  lemma {:induction false} DecimalRoundTrip(n: nat)
    ensures DigitsValue(Decimal(n)) == n
  {
    if n >= 10 {
      var s := Decimal(n);
      assert s[..|s| - 1] == Decimal(n / 10);
      DecimalRoundTrip(n / 10);
    }
  }

  /** Distinct integers have distinct decimal texts. */
  lemma DecimalInjective(m: nat, n: nat)
    requires Decimal(m) == Decimal(n)
    ensures m == n
  {
    DecimalRoundTrip(m);
    DecimalRoundTrip(n);
  }

  /** `Number(`${n}`)` is n again. */
  lemma NumberOfDecimal(n: nat)
    ensures StringToNumber(Decimal(n)) == Int(n)
  {
    var s := Decimal(n);
    assert TrimStart(s) == s;
    assert TrimEnd(s) == s;
    DecimalRoundTrip(n);
  }
}
