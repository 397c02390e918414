/** The subset of Python values that triagelib's callers pass, with Python's truthiness, `isinstance`, `str()`,
    string concatenation and `str.join`. */
module PyValues {
  import opened Wrappers
  import opened Errors

  datatype Value =
    | PyNone
    | Bool(b: bool)
    | Int(i: int)
    | Str(s: string)
    | List(items: seq<Value>)

  /** Python truthiness: None, False, 0, "" and [] are false. */
  predicate Truthy(v: Value)
  {
    match v
    case PyNone => false
    case Bool(b) => b
    case Int(i) => i != 0
    case Str(s) => s != ""
    case List(items) => items != []
  }

  /** The builtin types that triagelib tests with `isinstance`. */
  datatype Kind = IntKind | BoolKind | StrKind | ListKind

  /** `isinstance(v, k)`; `bool` is a subclass of `int` in Python. */
  predicate IsInstance(v: Value, k: Kind)
  {
    match k
    case IntKind => v.Int? || v.Bool?
    case BoolKind => v.Bool?
    case StrKind => v.Str?
    case ListKind => v.List?
  }

  /** `type(v).__name__`. */
  function TypeName(v: Value): (s: string)
  {
    match v
    case PyNone => "NoneType"
    case Bool(_) => "bool"
    case Int(_) => "int"
    case Str(_) => "str"
    case List(_) => "list"
  }

  // ----- decimal rendering of integers, as str(int) does -----

  function DigitChar(d: nat): (c: char)
    requires d < 10
    ensures '0' <= c <= '9'
  {
    "0123456789"[d]
  }

  function DigitValue(c: char): (n: int)
  {
    c as int - '0' as int
  }

  lemma DigitRoundTrip(d: nat)
    requires d < 10
    ensures DigitValue(DigitChar(d)) == d
  {
  }

  predicate IsDigits(s: string)
  {
    forall k :: 0 <= k < |s| ==> '0' <= s[k] <= '9'
  }

  /** Decimal digits of a natural number, most significant first, no leading zeros. */
  function NatToStr(n: nat): (s: string)
    ensures |s| > 0 && IsDigits(s)
    ensures s[0] == '0' ==> n == 0
  {
    if n < 10 then [DigitChar(n)] else NatToStr(n / 10) + [DigitChar(n % 10)]
  }

  /** `str(i)` for a Python int. */
  function IntToStr(i: int): (s: string)
  {
    if i < 0 then "-" + NatToStr(-i) else NatToStr(i)
  }

  /** Reads a string of decimal digits back as a number. */
  function ParseDigits(s: string): (n: int)
  {
    if s == [] then 0 else 10 * ParseDigits(s[..|s| - 1]) + DigitValue(s[|s| - 1])
  }

  /** Reads the output of `str(int)` back: an optional `-`, then digits. */
  function ParseInt(s: string): (n: int)
  {
    if |s| > 0 && s[0] == '-' then -ParseDigits(s[1..]) else ParseDigits(s)
  }

  lemma {:induction false} NatRoundTrip(n: nat)
    ensures ParseDigits(NatToStr(n)) == n
  {
    if n >= 10 {
      var s := NatToStr(n);
      assert s[..|s| - 1] == NatToStr(n / 10);
      DigitRoundTrip(n % 10);
      NatRoundTrip(n / 10);
    }
  }

  /** `str(i)` is a `-` and digits for a negative number, and digits otherwise. */
  lemma IntTextShape(i: int)
    ensures |IntToStr(i)| > 0
    ensures IntToStr(i)[0] == '-' <==> i < 0
    ensures i < 0 ==> IsDigits(IntToStr(i)[1..])
    ensures i >= 0 ==> IsDigits(IntToStr(i))
  {
    if i < 0 {
      var digits := NatToStr(-i);
      assert IntToStr(i) == "-" + digits;
      assert IntToStr(i)[1..] == digits;
    } else {
      var digits := NatToStr(i);
      assert IntToStr(i) == digits && '0' <= digits[0] <= '9';
    }
  }

  /** The decimal text that an integer query value becomes reads back as that same integer. */
  lemma IntRoundTrip(i: int)
    ensures ParseInt(IntToStr(i)) == i
  {
    if i < 0 {
      NegativeRoundTrip(-i);
      assert IntToStr(i) == "-" + NatToStr(-i);
    } else {
      NonNegativeRoundTrip(i);
      assert IntToStr(i) == NatToStr(i);
    }
  }

  lemma NonNegativeRoundTrip(n: nat)
    ensures ParseInt(NatToStr(n)) == n
  {
    NatRoundTrip(n);
    assert NatToStr(n)[0] != '-';
  }

  lemma NegativeRoundTrip(n: nat)
    ensures ParseInt("-" + NatToStr(n)) == -(n as int)
  {
    var s := "-" + NatToStr(n);
    assert s[1..] == NatToStr(n);
    NatRoundTrip(n);
  }

  /** Distinct integers render to distinct decimal strings. */
  lemma IntToStrInjective(i: int, j: int)
    requires IntToStr(i) == IntToStr(j)
    ensures i == j
  {
    IntRoundTrip(i);
    IntRoundTrip(j);
  }

  // ----- str(), repr(), join, concatenation -----

  /** `sep.join(parts)` for strings. */
  function JoinWith(sep: string, parts: seq<string>): (r: string)
    ensures parts == [] ==> r == ""
    ensures |parts| == 1 ==> r == parts[0]
  {
    if parts == [] then ""
    else if |parts| == 1 then parts[0]
    else JoinWith(sep, parts[..|parts| - 1]) + sep + parts[|parts| - 1]
  }

  /** `str(v)`. For lists, Python renders the `repr` of each element (see `Repr`). */
  function ToStr(v: Value): (s: string)
    decreases v, 0
  {
    match v
    case PyNone => "None"
    case Bool(b) => if b then "True" else "False"
    case Int(i) => IntToStr(i)
    case Str(s) => s
    case List(items) => "[" + JoinWith(", ", seq(|items|, k requires 0 <= k < |items| => Repr(items[k]))) + "]"
  }

  /** `repr(v)`: strings are quoted with single quotes; escaping of quotes inside is not modelled. */
  function Repr(v: Value): (s: string)
    decreases v, 1
  {
    if v.Str? then "'" + v.s + "'" else ToStr(v)
  }

  /** `prefix + v` where `prefix` is a str: succeeds only when `v` is a str. */
  function Concat(prefix: string, v: Value): (r: Result<string, Exc>)
    ensures r.Success? <==> v.Str?
    ensures r.Success? ==> r.value == prefix + v.s
    ensures r.Failure? ==> r.error.cls == TypeError
  {
    if v.Str? then Success(prefix + v.s)
    else Failure(Raise(TypeError, "can only concatenate str (not \"" + TypeName(v) + "\") to str"))
  }

  /** The texts of a list of str values. */
  function Strs(items: seq<Value>): (r: seq<string>)
    requires forall k :: 0 <= k < |items| ==> items[k].Str?
    ensures |r| == |items| && forall k :: 0 <= k < |items| ==> r[k] == items[k].s
  {
    seq(|items|, k requires 0 <= k < |items| => items[k].s)
  }

  /** `sep.join(items)` over a Python list: fails, naming its index, on the first element that is not a str. */
  function JoinList(sep: string, items: seq<Value>): (r: Result<string, Exc>)
    ensures r.Success? <==> forall k :: 0 <= k < |items| ==> items[k].Str?
    ensures r.Failure? ==> r.error.cls == TypeError
    ensures r.Success? ==> r.value == JoinWith(sep, Strs(items))
    decreases |items|
  {
    if items == [] then Success("")
    else
      var n := |items| - 1;
      match JoinList(sep, items[..n])
      case Failure(e) => Failure(e)
      case Success(front) =>
        if !items[n].Str? then
          Failure(Raise(TypeError, "sequence item " + IntToStr(n) + ": expected str instance, "
                                   + TypeName(items[n]) + " found"))
        else
          assert Strs(items)[..n] == Strs(items[..n]);
          Success(if n == 0 then items[n].s else front + sep + items[n].s)
  }

  /** `sep.join(v)` for an arbitrary value: a list joins its elements, a str its characters, and anything else
      is not iterable. */
  function JoinValue(sep: string, v: Value): (r: Result<string, Exc>)
    ensures v.List? ==> r == JoinList(sep, v.items)
    ensures !v.List? && !v.Str? ==> r.Failure? && r.error.cls == TypeError
  {
    match v
    case List(items) => JoinList(sep, items)
    case Str(s) => Success(JoinWith(sep, seq(|s|, k requires 0 <= k < |s| => [s[k]])))
    case _ => Failure(Raise(TypeError, "can only join an iterable"))
  }
}
