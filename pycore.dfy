/**
 * The pieces of the Python runtime that the lessons lean on: optional values,
 * raised exceptions as error results, dynamically typed values, `str()` and
 * `int()` on integers, ASCII case mapping, Python equality and truthiness,
 * and the insertion-ordered dictionary.
 */
module PyCore {

  datatype Option<+T> = None | Some(value: T)

  /** The built-in exception classes the lessons raise or catch, plus their own. */
  datatype ExcKind =
    | BaseException | Exception
    | ArithmeticError | ZeroDivisionError
    | LookupError | IndexError | KeyError
    | ValueError | TypeError | AttributeError | AssertionError | StopIteration
    | InsufficientFundsError | CustomError | ValidationError

  /** The direct base class of each exception class (the tree drawn at the top of 28_exception_types.py). */
  function Parent(k: ExcKind): ExcKind
  {
    match k
    case BaseException => BaseException
    case Exception => BaseException
    case ZeroDivisionError => ArithmeticError
    case IndexError => LookupError
    case KeyError => LookupError
    case ValidationError => CustomError
    case _ => Exception
  }

  function Depth(k: ExcKind): nat
  {
    match k
    case BaseException => 0
    case Exception => 1
    case ZeroDivisionError => 3
    case IndexError => 3
    case KeyError => 3
    case ValidationError => 3
    case _ => 2
  }

  /** `issubclass(k, c)`: `c` is `k` or one of its ancestors. */
  predicate IsSubclass(k: ExcKind, c: ExcKind)
    decreases Depth(k)
  {
    k == c || (k != BaseException && Depth(Parent(k)) < Depth(k) && IsSubclass(Parent(k), c))
  }

  /** A raised exception: its class and its message. */
  datatype PyError = PyError(kind: ExcKind, message: string)

  /** The outcome of a Python call: its return value or the exception it raised. */
  datatype Result<+T> = Ok(value: T) | Err(error: PyError)

  /** Dynamically typed Python values as they appear in the lessons' dictionaries and attributes. */
  datatype PyValue =
    | PyNone
    | PyBool(b: bool)
    | PyInt(i: int)
    | PyStr(s: string)
    | PyList(items: seq<PyValue>)

  /** `isinstance(v, int)`: true for ints and, since `bool` subclasses `int`, for booleans. */
  predicate IsInt(v: PyValue)
  {
    v.PyInt? || v.PyBool?
  }

  /** The integer an int-like value stands for (`True` is 1, `False` is 0). */
  function AsInt(v: PyValue): int
    requires IsInt(v)
  {
    if v.PyInt? then v.i else if v.b then 1 else 0
  }

  /** Python truthiness: `None`, `False`, `0`, `""` and `[]` are false. */
  predicate Truthy(v: PyValue)
  {
    match v
    case PyNone => false
    case PyBool(b) => b
    case PyInt(i) => i != 0
    case PyStr(s) => s != ""
    case PyList(items) => items != []
  }

  /** Python `==`: booleans compare equal to the matching integers, lists compare element-wise. */
  predicate PyEq(a: PyValue, b: PyValue)
    decreases a
  {
    if IsInt(a) && IsInt(b) then AsInt(a) == AsInt(b)
    else match a
      case PyNone => b.PyNone?
      case PyStr(s) => b.PyStr? && b.s == s
      case PyList(xs) =>
        b.PyList? && |xs| == |b.items| &&
        forall k :: 0 <= k < |xs| ==> PyEq(xs[k], b.items[k])
      case _ => false
  }

  // ---------------------------------------------------------------- str(int)

  function DigitChar(d: int): char
    requires 0 <= d < 10
  {
    "0123456789"[d]
  }

  predicate IsDigit(c: char)
  {
    '0' <= c <= '9'
  }

  function DigitValue(c: char): int
    requires IsDigit(c)
  {
    c as int - '0' as int
  }

  /** Decimal digits of a natural number, most significant first, no leading zeros. */
  function NatToString(n: nat): (s: string)
    ensures |s| >= 1
    ensures forall k :: 0 <= k < |s| ==> IsDigit(s[k])
    ensures s[0] == '0' ==> n == 0
  {
    if n < 10 then [DigitChar(n)] else NatToString(n / 10) + [DigitChar(n % 10)]
  }

  /** `str(i)` for an integer: a minus sign for negatives, then the decimal digits. */
  function IntToString(i: int): (s: string)
    ensures |s| >= 1
    ensures s[0] == '-' <==> i < 0
  {
    if i < 0 then "-" + NatToString(-i) else NatToString(i)
  }

  /** The value of a string of decimal digits. */
  function DigitsValue(s: string): nat
    requires forall k :: 0 <= k < |s| ==> IsDigit(s[k])
  {
    if s == [] then 0 else DigitsValue(s[..|s| - 1]) * 10 + DigitValue(s[|s| - 1])
  }

  /**
   * The characters `str.isspace()` accepts, which `str.strip()` and `int()`
   * skip: tab to carriage return, the four separators U+001C..U+001F, space,
   * U+0085, U+00A0, U+1680, U+2000..U+200A, the line and paragraph
   * separators, U+202F, U+205F and U+3000.
   */
  predicate IsSpace(c: char)
  {
    ('\t' <= c <= '\r') || ('\U{1C}' <= c <= ' ') || c == '\U{85}' || c == '\U{A0}' || c == '\U{1680}'
    || ('\U{2000}' <= c <= '\U{200A}') || c == '\U{2028}' || c == '\U{2029}' || c == '\U{202F}'
    || c == '\U{205F}' || c == '\U{3000}'
  }

  function StripLeft(s: string): (r: string)
    ensures r == [] || !IsSpace(r[0])
  {
    if s != [] && IsSpace(s[0]) then StripLeft(s[1..]) else s
  }

  function StripRight(s: string): (r: string)
    ensures r == [] || !IsSpace(r[|r| - 1])
  {
    if s != [] && IsSpace(s[|s| - 1]) then StripRight(s[..|s| - 1]) else s
  }

  /** lstrip removes a prefix made only of whitespace. */
  lemma {:induction false} StripLeftSuffix(s: string)
    ensures |StripLeft(s)| <= |s| && StripLeft(s) == s[|s| - |StripLeft(s)|..]
    ensures forall k :: 0 <= k < |s| - |StripLeft(s)| ==> IsSpace(s[k])
  {
    if s != [] && IsSpace(s[0]) {
      StripLeftSuffix(s[1..]);
      assert forall k :: 1 <= k < |s| ==> s[k] == s[1..][k - 1];
    }
  }

  /** rstrip removes a suffix made only of whitespace. */
  lemma {:induction false} StripRightPrefix(s: string)
    ensures |StripRight(s)| <= |s| && StripRight(s) == s[..|StripRight(s)|]
    ensures forall k :: |StripRight(s)| <= k < |s| ==> IsSpace(s[k])
  {
    if s != [] && IsSpace(s[|s| - 1]) {
      StripRightPrefix(s[..|s| - 1]);
    }
  }

  /** `s.strip()`: surrounding whitespace removed. */
  function Strip(s: string): string
  {
    StripRight(StripLeft(s))
  }

  predicate AllDigits(s: string)
  {
    forall k :: 0 <= k < |s| ==> IsDigit(s[k])
  }

  /** An optional sign followed by one or more decimal digits, and its value. */
  function ParseSigned(t: string): Option<int>
  {
    var signed := |t| > 0 && (t[0] == '-' || t[0] == '+');
    var body := if signed then t[1..] else t;
    if |body| > 0 && AllDigits(body) then
      var magnitude: int := DigitsValue(body);
      Some(if signed && t[0] == '-' then -magnitude else magnitude)
    else None
  }

  /** A string with no whitespace at either end is its own strip. */
  lemma StripUnpadded(s: string)
    requires s == [] || (!IsSpace(s[0]) && !IsSpace(s[|s| - 1]))
    ensures Strip(s) == s
  {
  }

  /** A string that starts with a character other than a sign or a digit is no integer. */
  lemma ParseIntRejectsLetter(s: string)
    requires s != [] && !IsSpace(s[0]) && !IsSpace(s[|s| - 1])
    requires s[0] != '-' && s[0] != '+' && !IsDigit(s[0])
    ensures ParseInt(s).Err?
  {
    StripUnpadded(s);
    assert !AllDigits(s);
    assert ParseSigned(s).None?;
  }

  /**
   * `int(s)` for a string: surrounding whitespace, an optional sign, then one
   * or more decimal digits; anything else raises ValueError.
   */
  function ParseInt(s: string): (r: Result<int>)
    ensures r.Err? ==> r.error.kind == ValueError
  {
    match ParseSigned(Strip(s))
    case Some(v) => Ok(v)
    case None => Err(PyError(ValueError, "invalid literal for int() with base 10: '" + s + "'"))
  }

  /** Python's non-ASCII and separator whitespace is skipped too: `int("\x1c5")` and `int("\u00a05")` are 5. */
  lemma ParseIntUnicodeSpace()
    ensures ParseInt("\U{1C}5") == Ok(5)
    ensures ParseInt("\U{A0}5\U{3000}") == Ok(5)
  {
    assert Strip("\U{1C}5") == "5";
    assert Strip("\U{A0}5\U{3000}") == "5";
  }

  /**
   * `int(v)` for the values a configuration may hold: ints as they are, a
   * bool as 0 or 1, a string parsed; None and lists raise TypeError.
   */
  function IntOf(v: PyValue): (r: Result<int>)
    ensures IsInt(v) ==> r == Ok(AsInt(v))
    ensures v.PyStr? ==> r == ParseInt(v.s)
    ensures (v.PyNone? || v.PyList?) ==> r.Err? && r.error.kind == TypeError
  {
    match v
    case PyInt(i) => Ok(i)
    case PyBool(b) => Ok(if b then 1 else 0)
    case PyStr(s) => ParseInt(s)
    case PyNone => Err(PyError(TypeError, "int() argument must be a string, a bytes-like object or a real number, not 'NoneType'"))
    case PyList(_) => Err(PyError(TypeError, "int() argument must be a string, a bytes-like object or a real number, not 'list'"))
  }

  lemma {:induction false} DigitsOfNat(n: nat)
    ensures DigitsValue(NatToString(n)) == n
  {
    if n >= 10 {
      var s := NatToString(n);
      assert s[..|s| - 1] == NatToString(n / 10);
      DigitsOfNat(n / 10);
    }
  }

  /** A printed integer has no surrounding whitespace. */
  lemma StripIntToString(i: int)
    ensures Strip(IntToString(i)) == IntToString(i)
  {
    var s := IntToString(i);
    assert !IsSpace(s[0]);
    assert IsDigit(s[|s| - 1]) by {
      if i < 0 {
        var t := NatToString(-i);
        assert s == "-" + t;
        assert s[|s| - 1] == t[|t| - 1];
      }
    }
    assert StripLeft(s) == s;
  }

  /** Reading back what `str` printed gives the integer: `int(str(i)) == i`. */
  lemma ParseIntToString(i: int)
    ensures ParseInt(IntToString(i)) == Ok(i)
  {
    var s := IntToString(i);
    StripIntToString(i);
    ParseSignedIntToString(i);
  }

  lemma ParseSignedIntToString(i: int)
    ensures ParseSigned(IntToString(i)) == Some(i)
  {
    if i < 0 {
      ParseSignedNegative(i);
    } else {
      ParseSignedNat(i);
    }
  }

  lemma ParseSignedNat(i: int)
    requires i >= 0
    ensures ParseSigned(IntToString(i)) == Some(i)
  {
    var t := NatToString(i);
    DigitsOfNat(i);
    ParseUnsignedDigits(t, i);
    assert IntToString(i) == t;
  }

  lemma ParseSignedNegative(i: int)
    requires i < 0
    ensures ParseSigned(IntToString(i)) == Some(i)
  {
    var t := NatToString(-i);
    DigitsOfNat(-i);
    ParseNegativeDigits(t, -i);
    assert IntToString(i) == "-" + t;
  }

  /** Digits that start with a digit are read as their value. */
  lemma ParseUnsignedDigits(t: string, n: int)
    requires t != [] && AllDigits(t) && DigitsValue(t) == n
    ensures ParseSigned(t) == Some(n)
  {
    assert IsDigit(t[0]);
  }

  /** A minus sign before digits negates their value. */
  lemma ParseNegativeDigits(t: string, n: int)
    requires t != [] && AllDigits(t) && DigitsValue(t) == n
    ensures ParseSigned("-" + t) == Some(-n)
  {
    var s := "-" + t;
    assert s[0] == '-' && s[1..] == t;
  }

  /** `str` is injective on integers. */
  lemma IntToStringInjective(i: int, j: int)
    requires IntToString(i) == IntToString(j)
    ensures i == j
  {
    ParseIntToString(i);
    ParseIntToString(j);
  }

  function Pow10(d: nat): nat
  {
    if d == 0 then 1 else 10 * Pow10(d - 1)
  }

  /** A natural number printed with `d` digits lies in `[10^(d-1), 10^d)` (or is 0). */
  lemma {:induction false} NatToStringLength(n: nat)
    ensures n < Pow10(|NatToString(n)|)
    ensures n >= 10 ==> Pow10(|NatToString(n)| - 1) <= n
  {
    if n >= 10 {
      NatToStringLength(n / 10);
    }
  }

  // ---------------------------------------------------------------- str(value)

  function BoolToString(b: bool): string
  {
    if b then "True" else "False"
  }

  /** `str(v)`; list elements are shown by their `repr`, strings inside single quotes. */
  function Str(v: PyValue): string
    decreases v, 1
  {
    match v
    case PyNone => "None"
    case PyBool(b) => BoolToString(b)
    case PyInt(i) => IntToString(i)
    case PyStr(s) => s
    case PyList(xs) => "[" + ReprList(v, xs) + "]"
  }

  function Repr(v: PyValue): string
    decreases v, 2
  {
    if v.PyStr? then "'" + v.s + "'" else Str(v)
  }

  /** The reprs of `xs`, a suffix of the items of `whole`, joined by ", ". */
  function ReprList(whole: PyValue, xs: seq<PyValue>): string
    requires forall x :: x in xs ==> x < whole
    decreases whole, 0, |xs|
  {
    if xs == [] then ""
    else
      assert xs[0] in xs;
      if |xs| == 1 then Repr(xs[0])
      else
        assert forall x :: x in xs[1..] ==> x in xs;
        Repr(xs[0]) + ", " + ReprList(whole, xs[1..])
  }

  // ---------------------------------------------------------------- case mapping

  function LowerChar(c: char): char
  {
    if 'A' <= c <= 'Z' then (c as int + 32) as char else c
  }

  function UpperChar(c: char): char
  {
    if 'a' <= c <= 'z' then (c as int - 32) as char else c
  }

  /** `s.lower()` over ASCII letters. */
  function Lower(s: string): (r: string)
    ensures |r| == |s|
    ensures forall k :: 0 <= k < |s| ==> r[k] == LowerChar(s[k])
  {
    seq(|s|, k requires 0 <= k < |s| => LowerChar(s[k]))
  }

  /** `s.upper()` over ASCII letters. */
  function Upper(s: string): (r: string)
    ensures |r| == |s|
    ensures forall k :: 0 <= k < |s| ==> r[k] == UpperChar(s[k])
  {
    seq(|s|, k requires 0 <= k < |s| => UpperChar(s[k]))
  }

  /** Lowering is idempotent: `s.lower().lower() == s.lower()`. */
  lemma LowerIdempotent(s: string)
    ensures Lower(Lower(s)) == Lower(s)
  {
  }

  function Join(parts: seq<string>, sep: string): string
  {
    if parts == [] then "" else if |parts| == 1 then parts[0] else parts[0] + sep + Join(parts[1..], sep)
  }

  // ---------------------------------------------------------------- dict

  /** A Python dict: its (key, value) items in insertion order, keys distinct. */
  type Dict<K, V> = seq<(K, V)>

  function Keys<K, V>(d: Dict<K, V>): (ks: seq<K>)
    ensures |ks| == |d|
    ensures forall k :: 0 <= k < |d| ==> ks[k] == d[k].0
  {
    seq(|d|, k requires 0 <= k < |d| => d[k].0)
  }

  predicate UniqueKeys<K(==), V>(d: Dict<K, V>)
  {
    forall a, b :: 0 <= a < b < |d| ==> d[a].0 != d[b].0
  }

  predicate HasKey<K(==), V>(d: Dict<K, V>, key: K)
  {
    exists k :: 0 <= k < |d| && d[k].0 == key
  }

  /** `d.get(key)`: the value stored under `key`, if any. */
  function Get<K(==), V(==)>(d: Dict<K, V>, key: K): (r: Option<V>)
    ensures r.Some? <==> HasKey(d, key)
    ensures r.Some? ==> exists k :: 0 <= k < |d| && d[k] == (key, r.value)
  {
    if d == [] then None
    else if d[0].0 == key then Some(d[0].1)
    else
      var r := Get(d[1..], key);
      assert r.Some? ==> exists k :: 0 <= k < |d[1..]| && d[1..][k] == (key, r.value);
      assert HasKey(d[1..], key) ==> HasKey(d, key) by {
        if HasKey(d[1..], key) {
          var k :| 0 <= k < |d[1..]| && d[1..][k].0 == key;
          assert d[k + 1].0 == key;
        }
      }
      assert HasKey(d, key) ==> HasKey(d[1..], key) by {
        if HasKey(d, key) {
          var k :| 0 <= k < |d| && d[k].0 == key;
          assert k > 0 && d[1..][k - 1].0 == key;
        }
      }
      r
  }

  /**
   * `d[key] = value`: an existing key keeps its position and takes the new
   * value; a new key is appended at the end.
   */
  function Put<K(==), V>(d: Dict<K, V>, key: K, value: V): Dict<K, V>
  {
    if d == [] then [(key, value)]
    else if d[0].0 == key then [(key, value)] + d[1..]
    else [d[0]] + Put(d[1..], key, value)
  }

  lemma {:induction false} PutGet<K, V>(d: Dict<K, V>, key: K, value: V, other: K)
    ensures Get(Put(d, key, value), key) == Some(value)
    ensures other != key ==> Get(Put(d, key, value), other) == Get(d, other)
  {
    if d != [] && d[0].0 != key {
      PutGet(d[1..], key, value, other);
      assert Put(d, key, value)[1..] == Put(d[1..], key, value);
    }
  }

  lemma HasKeyTail<K, V>(d: Dict<K, V>, key: K)
    requires d != [] && d[0].0 != key
    ensures HasKey(d, key) <==> HasKey(d[1..], key)
  {
    if HasKey(d, key) {
      var k :| 0 <= k < |d| && d[k].0 == key;
      assert d[1..][k - 1].0 == key;
    }
    if HasKey(d[1..], key) {
      var k :| 0 <= k < |d[1..]| && d[1..][k].0 == key;
      assert d[k + 1].0 == key;
    }
  }

  lemma {:induction false} PutKeys<K, V>(d: Dict<K, V>, key: K, value: V)
    ensures Keys(Put(d, key, value)) == if HasKey(d, key) then Keys(d) else Keys(d) + [key]
  {
    if d == [] {
    } else if d[0].0 == key {
      assert HasKey(d, key) by { assert d[0].0 == key; }
    } else {
      PutKeys(d[1..], key, value);
      HasKeyTail(d, key);
      var r := Put(d, key, value);
      assert r == [d[0]] + Put(d[1..], key, value);
      assert Keys(d) == [d[0].0] + Keys(d[1..]);
      assert Keys(r) == [d[0].0] + Keys(Put(d[1..], key, value));
    }
  }

  lemma {:induction false} PutUnique<K, V>(d: Dict<K, V>, key: K, value: V)
    requires UniqueKeys(d)
    ensures UniqueKeys(Put(d, key, value))
  {
    var r := Put(d, key, value);
    PutKeys(d, key, value);
    assert Keys(r) == if HasKey(d, key) then Keys(d) else Keys(d) + [key];
    forall a, b | 0 <= a < b < |r| ensures r[a].0 != r[b].0 {
      assert r[a].0 == Keys(r)[a] && r[b].0 == Keys(r)[b];
      if !HasKey(d, key) && b == |d| {
        assert Keys(r)[a] == d[a].0;
      } else {
        assert Keys(r)[a] == d[a].0 && Keys(r)[b] == d[b].0;
      }
    }
  }

  /** The dict of `items`, inserted one after the other as `dict(items)` does. */
  function FromItems<K(==), V>(items: seq<(K, V)>): Dict<K, V>
    decreases |items|
  {
    if items == [] then [] else Put(FromItems(items[..|items| - 1]), items[|items| - 1].0, items[|items| - 1].1)
  }

  /** `d.update(items)`: each item put in turn. */
  function Update<K(==), V>(d: Dict<K, V>, items: Dict<K, V>): Dict<K, V>
    decreases |items|
  {
    if items == [] then d else Update(Put(d, items[0].0, items[0].1), items[1..])
  }

  /** Updating with one more item is putting it after the others. */
  lemma {:induction false} UpdateSnoc<K, V>(d: Dict<K, V>, items: Dict<K, V>, key: K, value: V)
    ensures Update(d, items + [(key, value)]) == Put(Update(d, items), key, value)
    decreases |items|
  {
    if items == [] {
      assert items + [(key, value)] == [(key, value)];
    } else {
      assert (items + [(key, value)])[0] == items[0];
      assert (items + [(key, value)])[1..] == items[1..] + [(key, value)];
      UpdateSnoc(Put(d, items[0].0, items[0].1), items[1..], key, value);
    }
  }

  /** After an update a key has the updating dict's value if it has one, and its old value otherwise. */
  lemma {:induction false} UpdateGet<K, V>(d: Dict<K, V>, items: Dict<K, V>, key: K)
    requires UniqueKeys(items)
    ensures Get(Update(d, items), key) == if HasKey(items, key) then Get(items, key) else Get(d, key)
    decreases |items|
  {
    if items != [] {
      var rest := items[1..];
      assert UniqueKeys(rest) by {
        forall a, b | 0 <= a < b < |rest| ensures rest[a].0 != rest[b].0 {
          assert rest[a] == items[a + 1] && rest[b] == items[b + 1];
        }
      }
      UpdateGet(Put(d, items[0].0, items[0].1), rest, key);
      PutGet(d, items[0].0, items[0].1, key);
      if items[0].0 == key {
        assert HasKey(items, key);
        assert !HasKey(rest, key);
      } else {
        HasKeyTail(items, key);
      }
    }
  }
}
