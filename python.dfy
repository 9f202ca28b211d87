/** The Python object semantics the client relies on: the values that
    travel in parameter dictionaries, SOAP replies and decoded JSON, their
    truthiness, `==` against small integers, subscripting, `int()`,
    `unicode()`/`str()`, `"%d"` formatting, and the exceptions these raise. */
module Python {
  import opened Strings

  /** A Python object as the client sees it. Floating-point numbers are not
      part of the model. */
  datatype Value =
    | VNone
    | VBool(b: bool)
    | VInt(i: int)
    | VStr(s: string)
    | VList(items: seq<Value>)
    | VDict(fields: map<string, Value>)

  /** The exceptions a client call can end in. `ApiError` is
      `SmsApiException`, which carries an arbitrary message object;
      `Wrapped` is an `SmsApiException` raised around another exception. */
  datatype Error =
    | ApiError(message: Value)
    | KeyError(key: Value)
    | IndexError
    | TypeError
    | ValueError
    | AttributeError
    | WebFault(fault: string)
    | Wrapped(cause: Error)

  /** A value, or the exception raised while computing it. */
  datatype Result<+T> = Success(value: T) | Failure(error: Error) {
    predicate IsFailure() { Failure? }
    function PropagateFailure<U>(): Result<U> requires Failure? { Failure(error) }
    function Extract(): T requires Success? { value }
  }

  datatype Option<+T> = None | Some(value: T)

  /** Python truthiness (`if v:`). */
  predicate Truthy(v: Value) {
    match v
    case VNone => false
    case VBool(b) => b
    case VInt(i) => i != 0
    case VStr(s) => s != ""
    case VList(items) => items != []
    case VDict(fields) => |fields| != 0
  }

  /** `v == n`: a bool compares equal to 0 or 1; a string, list, dict or
      None never equals an integer. */
  predicate EqualsInt(v: Value, n: int) {
    match v
    case VInt(i) => i == n
    case VBool(b) => (if b then 1 else 0) == n
    case _ => false
  }

  /** `m[key]` on a dictionary. */
  function Lookup(m: map<string, Value>, key: string): (r: Result<Value>)
    ensures r.Success? <==> key in m
    ensures r.Success? ==> r.value == m[key]
    ensures r.Failure? ==> r.error == KeyError(VStr(key))
  {
    if key in m then Success(m[key]) else Failure(KeyError(VStr(key)))
  }

  /** `v[key]` with a string key: only a dictionary can answer it; a string
      or list wants an integer index, and None, bool and int cannot be
      subscripted, so each of those raises TypeError. */
  function Subscript(v: Value, key: string): (r: Result<Value>)
    ensures r.Success? <==> v.VDict? && key in v.fields
    ensures r.Success? ==> r.value == v.fields[key]
    ensures v.VDict? && key !in v.fields ==> r == Failure(KeyError(VStr(key)))
    ensures !v.VDict? ==> r == Failure(TypeError)
  {
    match v
    case VDict(fields) => Lookup(fields, key)
    case _ => Failure(TypeError)
  }

  /** `v[n]` with a non-negative integer index. */
  function Index(v: Value, n: nat): (r: Result<Value>)
    ensures v.VList? && n < |v.items| ==> r == Success(v.items[n])
    ensures v.VList? && n >= |v.items| ==> r == Failure(IndexError)
    ensures v.VDict? ==> r == Failure(KeyError(VInt(n)))
    ensures v.VNone? || v.VBool? || v.VInt? ==> r == Failure(TypeError)
  {
    match v
    case VList(items) => if n < |items| then Success(items[n]) else Failure(IndexError)
    case VStr(s) => if n < |s| then Success(VStr([s[n]])) else Failure(IndexError)
    case VDict(_) => Failure(KeyError(VInt(n)))
    case _ => Failure(TypeError)
  }

  /** `needle in container` for a text needle. */
  function Contains(container: Value, needle: string): (r: Result<bool>)
    ensures container.VStr? ==> r == Success(Occurs(needle, container.s))
    ensures container.VNone? || container.VBool? || container.VInt? ==> r == Failure(TypeError)
  {
    match container
    case VStr(s) => Success(Occurs(needle, s))
    case VList(items) => Success(VStr(needle) in items)
    case VDict(fields) => Success(needle in fields)
    case _ => Failure(TypeError)
  }

  // Decimal text of integers, as `str(n)` writes it and `int(s)` reads it.

  predicate IsDigit(c: char) { '0' <= c <= '9' }

  function DigitChar(d: nat): (c: char)
    requires d < 10
  {
    ('0' as int + d) as char
  }

  function DigitValue(c: char): nat
    requires IsDigit(c)
  {
    c as int - '0' as int
  }

  predicate AllDigits(s: string) {
    forall k :: 0 <= k < |s| ==> IsDigit(s[k])
  }

  /** The decimal digits of a natural number, most significant first. */
  function NatText(n: nat): string
    decreases n
  {
    if n < 10 then [DigitChar(n)] else NatText(n / 10) + [DigitChar(n % 10)]
  }

  /** `str(n)` for an integer. */
  function IntText(n: int): string {
    if n < 0 then "-" + NatText(-n) else NatText(n)
  }

  /** The number a string of decimal digits denotes. */
  function DigitsValue(s: string): nat
    requires AllDigits(s)
    decreases |s|
  {
    if s == [] then 0
    else DigitsValue(s[..|s| - 1]) * 10 + DigitValue(s[|s| - 1])
  }

  /** `int(s)` for a string: an optional sign and at least one decimal digit;
      None where Python raises ValueError. */
  function ParseInt(s: string): Option<int> {
    var negative := |s| > 0 && s[0] == '-';
    var body := if |s| > 0 && (s[0] == '-' || s[0] == '+') then s[1..] else s;
    if body != [] && AllDigits(body) then
      var magnitude: int := DigitsValue(body);
      Some(if negative then -magnitude else magnitude)
    else None
  }

  /** `int(v)`. */
  function ToInt(v: Value): (r: Result<int>)
    ensures v.VInt? ==> r == Success(v.i)
    ensures v.VNone? || v.VList? || v.VDict? ==> r == Failure(TypeError)
    ensures v.VStr? ==> (r.Success? <==> ParseInt(v.s).Some?)
    ensures r.Failure? ==> r.error == TypeError || r.error == ValueError
  {
    match v
    case VInt(i) => Success(i)
    case VBool(b) => Success(if b then 1 else 0)
    case VStr(s) =>
      (match ParseInt(s)
       case Some(n) => Success(n)
       case None => Failure(ValueError))
    case _ => Failure(TypeError)
  }

  /** `unicode(v)` / `str(v)` / `"%s" % v` of a scalar. */
  function Text(v: Value): (r: Result<string>)
    ensures v.VStr? ==> r == Success(v.s)
    ensures v.VInt? ==> r == Success(IntText(v.i))
    ensures r.Failure? <==> v.VList? || v.VDict?
  {
    match v
    case VNone => Success("None")
    case VBool(b) => Success(if b then "True" else "False")
    case VInt(i) => Success(IntText(i))
    case VStr(s) => Success(s)
    case _ => Failure(TypeError)
  }

  /** `"%d" % v`: only numbers (bools among them) can be formatted. */
  function FormatDecimal(v: Value): (r: Result<string>)
    ensures r.Success? <==> v.VInt? || v.VBool?
    ensures v.VInt? ==> r == Success(IntText(v.i))
  {
    match v
    case VInt(i) => Success(IntText(i))
    case VBool(b) => Success(if b then "1" else "0")
    case _ => Failure(TypeError)
  }

  lemma {:induction false} NatTextDigits(n: nat)
    ensures |NatText(n)| >= 1 && AllDigits(NatText(n))
    ensures DigitsValue(NatText(n)) == n
    decreases n
  {
    if n >= 10 {
      NatTextDigits(n / 10);
      var prefix := NatText(n / 10);
      var s := prefix + [DigitChar(n % 10)];
      assert s[..|s| - 1] == prefix;
      assert DigitValue(s[|s| - 1]) == n % 10;
    }
  }

  /** Reading back the decimal text of any integer gives that integer, so
      `int(str(n)) == n`. */
  lemma IntTextRoundTrip(n: int)
    ensures ParseInt(IntText(n)) == Some(n)
  {
    if n < 0 {
      NatTextDigits(-n);
      assert ("-" + NatText(-n))[1..] == NatText(-n);
    } else {
      NatTextDigits(n);
    }
  }

  // Collecting the results of one conversion over a list, as the client's
  // append loops do: the first entry that raises ends the loop.

  /** `[f(x) for x in items]`, stopping at the first exception. */
  function MapEach<T, U>(items: seq<T>, f: T -> Result<U>): Result<seq<U>>
    decreases |items|
  {
    if items == [] then Success([])
    else
      var done :- MapEach(items[..|items| - 1], f);
      var last :- f(items[|items| - 1]);
      Success(done + [last])
  }

  /** The collection succeeds exactly when every entry converts, and then
      holds one converted value per entry, in order. */
  lemma {:induction false} MapEachSucceeds<T, U>(items: seq<T>, f: T -> Result<U>)
    ensures MapEach(items, f).Success? <==> forall k :: 0 <= k < |items| ==> f(items[k]).Success?
    ensures MapEach(items, f).Success? ==>
      |MapEach(items, f).value| == |items| &&
      forall k :: 0 <= k < |items| ==> f(items[k]) == Success(MapEach(items, f).value[k])
    decreases |items|
  {
    if items != [] {
      var init := items[..|items| - 1];
      MapEachSucceeds(init, f);
      assert forall k :: 0 <= k < |init| ==> init[k] == items[k];
    }
  }

  /** A failing collection fails with the error of the first entry that
      does not convert. */
  lemma {:induction false} MapEachFirstFailure<T, U>(items: seq<T>, f: T -> Result<U>)
    requires MapEach(items, f).Failure?
    ensures exists k :: (0 <= k < |items| && f(items[k]) == Failure(MapEach(items, f).error) &&
                         forall j :: 0 <= j < k ==> f(items[j]).Success?)
    decreases |items|
  {
    var init := items[..|items| - 1];
    assert forall k :: 0 <= k < |init| ==> init[k] == items[k];
    if MapEach(init, f).Failure? {
      MapEachFirstFailure(init, f);
    } else {
      MapEachSucceeds(init, f);
      var k := |items| - 1;
      assert f(items[k]) == Failure(MapEach(items, f).error);
    }
  }

  /** Once a prefix fails, the whole collection fails the same way. */
  lemma {:induction false} MapEachPrefixFailure<T, U>(items: seq<T>, f: T -> Result<U>, n: nat)
    requires n <= |items|
    requires MapEach(items[..n], f).Failure?
    ensures MapEach(items, f) == MapEach(items[..n], f)
    decreases |items|
  {
    if n < |items| {
      var init := items[..|items| - 1];
      assert init[..n] == items[..n];
      MapEachPrefixFailure(init, f, n);
    } else {
      assert items[..n] == items;
    }
  }
}
