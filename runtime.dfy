/** The pieces of the Python runtime that the modelled code relies on:
    document values (what a YAML or JSON loader produces), their truthiness
    and their `str()` rendering, dict lookup and update, `int()` parsing of
    a decimal string, exceptions with their class hierarchy, and log records. */
module Runtime {

  datatype Option<+T> = None | Some(value: T)

  /** A Python value as a YAML or JSON document can hold it. A dict keeps its
      items in insertion order; a float is kept as its repr text (the text
      `str()` prints), since the model never computes with floats. */
  datatype Value =
    | Null
    | Bool(b: bool)
    | Int(i: int)
    | Float(repr: string)
    | Str(s: string)
    | List(elems: seq<Value>)
    | Dict(entries: seq<(string, Value)>)

  /** Python truthiness (`if v:` / `not v`). */
  predicate Truthy(v: Value)
  {
    match v
    case Null => false
    case Bool(b) => b
    case Int(i) => i != 0
    case Float(r) => r != "0.0" && r != "-0.0"
    case Str(s) => s != ""
    case List(xs) => xs != []
    case Dict(es) => es != []
  }

  /** The name of the value's Python class, as it appears in error messages. */
  function TypeName(v: Value): string
  {
    match v
    case Null => "NoneType"
    case Bool(_) => "bool"
    case Int(_) => "int"
    case Float(_) => "float"
    case Str(_) => "str"
    case List(_) => "list"
    case Dict(_) => "dict"
  }

  // ---------------------------------------------------------------------------
  // Decimal text
  // ---------------------------------------------------------------------------

  function DigitChar(d: nat): char
    requires d < 10
  {
    "0123456789"[d]
  }

  predicate IsDigit(c: char)
  {
    '0' <= c <= '9'
  }

  /** The decimal digits of `n`, most significant first, without leading zeros. */
  function Digits(n: nat): (ds: string)
    ensures |ds| > 0 && forall k :: 0 <= k < |ds| ==> IsDigit(ds[k])
    decreases n
  {
    if n < 10 then [DigitChar(n)] else Digits(n / 10) + [DigitChar(n % 10)]
  }

  /** `str(n)` for a Python int. */
  function Decimal(n: int): string
  {
    if n < 0 then "-" + Digits(-n) else Digits(n)
  }

  /** The number an all-digit string denotes. */
  function DigitsValue(ds: string): nat
    requires forall k :: 0 <= k < |ds| ==> IsDigit(ds[k])
    decreases |ds|
  {
    if ds == [] then 0
    else
      var d := ds[|ds| - 1] as int - '0' as int;
      assert IsDigit(ds[|ds| - 1]);
      DigitsValue(ds[..|ds| - 1]) * 10 + d
  }

  /** The texts `int()` accepts in this model: one or more ASCII digits,
      optionally after a single `+` or `-`. */
  predicate IntLiteral(s: string)
  {
    || (|s| > 0 && forall k :: 0 <= k < |s| ==> IsDigit(s[k]))
    || (|s| > 1 && (s[0] == '+' || s[0] == '-') && forall k :: 1 <= k < |s| ==> IsDigit(s[k]))
  }

  /** `int(s)` restricted to an optional sign followed by one or more ASCII
      digits; `None` stands for the `ValueError` that `int()` raises. */
  function ParseInt(s: string): (r: Option<int>)
    // a number exactly for an integer literal; anything else is rejected
    ensures r.Some? <==> IntLiteral(s)
    // the sign decides the sign of the result
    ensures r.Some? && s[0] == '-' ==> r.value <= 0
    ensures r.Some? && s[0] != '-' ==> r.value >= 0
  {
    var hasSign := |s| > 0 && (s[0] == '-' || s[0] == '+');
    var body := if hasSign then s[1..] else s;
    if body == [] || !(forall k :: 0 <= k < |body| ==> IsDigit(body[k])) then None
    else if hasSign && s[0] == '-' then Some(0 - DigitsValue(body))
    else Some(DigitsValue(body))
  }

  /** A leading zero does not change the number a digit string denotes. */
  lemma {:induction false} LeadingZeroValue(ds: string)
    requires forall k :: 0 <= k < |ds| ==> IsDigit(ds[k])
    ensures DigitsValue("0" + ds) == DigitsValue(ds)
    decreases |ds|
  {
    if ds != [] {
      var zs := "0" + ds;
      assert zs[..|zs| - 1] == "0" + ds[..|ds| - 1];
      LeadingZeroValue(ds[..|ds| - 1]);
    }
  }

  /** `int("+5") == int("5")` and `int("007") == int("7")`: an explicit plus
      sign and leading zeros do not change the value. */
  lemma PlusAndZerosIgnored(ds: string)
    requires |ds| > 0 && forall k :: 0 <= k < |ds| ==> IsDigit(ds[k])
    ensures ParseInt("+" + ds) == ParseInt(ds)
    ensures ParseInt("0" + ds) == ParseInt(ds)
  {
    assert ("+" + ds)[1..] == ds;
    LeadingZeroValue(ds);
  }

  /** Texts `int()` refuses: empty, a bare sign, a fraction, a word, inner
      whitespace. */
  lemma RejectedTexts()
    ensures ParseInt("").None? && ParseInt("-").None? && ParseInt("1.5").None?
    ensures ParseInt("abc").None? && ParseInt("1 0").None?
  {
    assert !IsDigit("1.5"[1]) && !IsDigit("abc"[0]) && !IsDigit("1 0"[1]);
  }

  lemma {:induction false} DigitsRoundTrip(n: nat)
    ensures DigitsValue(Digits(n)) == n
    decreases n
  {
    if n >= 10 {
      var ds := Digits(n);
      assert ds[..|ds| - 1] == Digits(n / 10);
      DigitsRoundTrip(n / 10);
    }
  }

  /** Parsing what `str()` prints for an int gives the int back. */
  lemma ParseDecimal(n: int)
    ensures ParseInt(Decimal(n)) == Some(n)
  {
    DigitsRoundTrip(if n < 0 then -n else n);
    if n < 0 {
      assert Decimal(n)[1..] == Digits(-n);
    }
  }

  // ---------------------------------------------------------------------------
  // str() and repr()
  // ---------------------------------------------------------------------------

  function Join(parts: seq<string>, sep: string): (r: string)
    ensures parts == [] ==> r == ""
    decreases |parts|
  {
    if parts == [] then ""
    else if |parts| == 1 then parts[0]
    else Join(parts[..|parts| - 1], sep) + sep + parts[|parts| - 1]
  }

  /** `str(v)`, the text an f-string substitutes for `{v}`. */
  function Text(v: Value): string
    decreases v, 1
  {
    match v
    case Null => "None"
    case Bool(b) => if b then "True" else "False"
    case Int(i) => Decimal(i)
    case Float(r) => r
    case Str(s) => s
    case List(xs) =>
      "[" + Join(seq(|xs|, k requires 0 <= k < |xs| => Repr(xs[k])), ", ") + "]"
    case Dict(es) =>
      "{" + Join(seq(|es|, k requires 0 <= k < |es| => "'" + es[k].0 + "': " + Repr(es[k].1)), ", ") + "}"
  }

  /** `repr(v)`, used for the items of a list or dict; strings are quoted
      with single quotes and not escaped. */
  function Repr(v: Value): string
    decreases v, 2
  {
    if v.Str? then "'" + v.s + "'" else Text(v)
  }

  // ---------------------------------------------------------------------------
  // Dicts as ordered item sequences
  // ---------------------------------------------------------------------------

  /** `d.get(key)` on a dict's items; a Python dict has distinct keys, so the
      first matching item is the one. */
  function Get(entries: seq<(string, Value)>, key: string): Option<Value>
    decreases |entries|
  {
    if entries == [] then None
    else if entries[0].0 == key then Some(entries[0].1)
    else Get(entries[1..], key)
  }

  /** `dict.get` finds a value exactly when the key is present. */
  lemma {:induction false} GetPresent(entries: seq<(string, Value)>, key: string)
    ensures Get(entries, key).Some? <==> key in Keys(entries)
    decreases |entries|
  {
    if entries != [] && entries[0].0 != key {
      var tail := entries[1..];
      GetPresent(tail, key);
      KeysCons(entries[0], tail);
      assert entries == [entries[0]] + tail;
    } else if entries != [] {
      assert Keys(entries)[0] == key;
    }
  }

  /** The value found is the one stored at the key's first occurrence. */
  lemma {:induction false} GetFindsFirst(entries: seq<(string, Value)>, key: string)
    requires Get(entries, key).Some?
    ensures exists k ::
      && 0 <= k < |entries|
      && entries[k] == (key, Get(entries, key).value)
      && forall j :: 0 <= j < k ==> entries[j].0 != key
    decreases |entries|
  {
    if entries[0].0 != key {
      var tail := entries[1..];
      GetFindsFirst(tail, key);
      var found := Get(tail, key).value;
      var k :| 0 <= k < |tail| && tail[k] == (key, found) && forall j :: 0 <= j < k ==> tail[j].0 != key;
      assert entries[k + 1] == (key, found);
      forall j | 0 <= j < k + 1
        ensures entries[j].0 != key
      {
        if j > 0 {
          assert entries[j] == tail[j - 1];
        }
      }
    } else {
      assert entries[0] == (key, Get(entries, key).value);
    }
  }

  /** `d.get(key, default)`. */
  function GetOr(entries: seq<(string, Value)>, key: string, default: Value): Value
  {
    match Get(entries, key)
    case Some(v) => v
    case None => default
  }

  function Keys(entries: seq<(string, Value)>): (ks: seq<string>)
    ensures |ks| == |entries| && forall k :: 0 <= k < |entries| ==> ks[k] == entries[k].0
  {
    seq(|entries|, k requires 0 <= k < |entries| => entries[k].0)
  }

  /** No key occurs twice, as in every Python dict. */
  predicate DistinctKeys(entries: seq<(string, Value)>)
  {
    forall j, k :: 0 <= j < k < |entries| ==> entries[j].0 != entries[k].0
  }

  /** `d[key] = v` on a dict's entries: an existing key keeps its position and
      takes the new value, a new key goes last. */
  function Put(entries: seq<(string, Value)>, key: string, v: Value): (r: seq<(string, Value)>)
    decreases |entries|
  {
    if entries == [] then [(key, v)]
    else if entries[0].0 == key then [(key, v)] + entries[1..]
    else [entries[0]] + Put(entries[1..], key, v)
  }

  /** After `d[key] = v` the key maps to `v`, every other key to what it did
      before, and the key order is kept, with a new key last. */
  lemma PutLaws(entries: seq<(string, Value)>, key: string, v: Value)
    ensures Get(Put(entries, key, v), key) == Some(v)
    ensures forall other :: other != key ==> Get(Put(entries, key, v), other) == Get(entries, other)
    ensures Keys(Put(entries, key, v)) == if Get(entries, key).Some? then Keys(entries) else Keys(entries) + [key]
  {
    PutFinds(entries, key, v);
    forall other | other != key
      ensures Get(Put(entries, key, v), other) == Get(entries, other)
    {
      PutKeepsOthers(entries, key, v, other);
    }
    PutKeys(entries, key, v);
  }

  lemma {:induction false} PutFinds(entries: seq<(string, Value)>, key: string, v: Value)
    ensures Get(Put(entries, key, v), key) == Some(v)
    decreases |entries|
  {
    if entries != [] && entries[0].0 != key {
      PutFinds(entries[1..], key, v);
      assert ([entries[0]] + Put(entries[1..], key, v))[1..] == Put(entries[1..], key, v);
    }
  }

  lemma {:induction false} PutKeepsOthers(entries: seq<(string, Value)>, key: string, v: Value, other: string)
    requires other != key
    ensures Get(Put(entries, key, v), other) == Get(entries, other)
    decreases |entries|
  {
    if entries != [] && entries[0].0 != key {
      PutKeepsOthers(entries[1..], key, v, other);
      assert ([entries[0]] + Put(entries[1..], key, v))[1..] == Put(entries[1..], key, v);
    } else if entries != [] {
      assert ([(key, v)] + entries[1..])[1..] == entries[1..];
    }
  }

  lemma {:induction false} PutKeys(entries: seq<(string, Value)>, key: string, v: Value)
    ensures Keys(Put(entries, key, v)) == if Get(entries, key).Some? then Keys(entries) else Keys(entries) + [key]
    decreases |entries|
  {
    if entries == [] {
      assert Keys([(key, v)]) == [key];
    } else if entries[0].0 != key {
      var tail := entries[1..];
      PutKeys(tail, key, v);
      var rest := Put(tail, key, v);
      assert Get(entries, key) == Get(tail, key);
      KeysCons(entries[0], rest);
      KeysCons(entries[0], tail);
      assert entries == [entries[0]] + tail;
      if Get(tail, key).None? {
        assert [entries[0].0] + (Keys(tail) + [key]) == [entries[0].0] + Keys(tail) + [key];
      }
    } else {
      assert Keys(Put(entries, key, v)) == Keys(entries);
    }
  }

  lemma KeysCons(e: (string, Value), rest: seq<(string, Value)>)
    ensures Keys([e] + rest) == [e.0] + Keys(rest)
  {
  }

  // ---------------------------------------------------------------------------
  // Exceptions and logging
  // ---------------------------------------------------------------------------

  /** The exception classes the modelled code raises or catches. */
  datatype ExnKind =
    | Exception
    | ImportError
    | ModuleNotFoundError
    | AttributeError
    | ValueError
    | RuntimeError
    | ConnectionError
    | TypeError
    | KeyError

  /** `isinstance(e, cls)` for an exception of class `kind`. */
  predicate IsInstance(kind: ExnKind, cls: ExnKind)
  {
    kind == cls || cls == Exception || (kind == ModuleNotFoundError && cls == ImportError)
  }

  /** A raised exception: its class, `str(e)`, and the exception it was
      raised `from`. */
  datatype Exn = Exn(kind: ExnKind, message: string, cause: Option<Exn>)

  /** How a Python call completes: it returns a value or raises. */
  datatype Completion<+T> = Normal(value: T) | Raised(exn: Exn) {
    predicate IsFailure() { Raised? }

    function PropagateFailure<U>(): Completion<U>
      requires Raised?
    {
      Raised(exn)
    }

    function Extract(): T
      requires Normal?
    {
      value
    }
  }

  datatype Level = Debug | Info | Warning | Error

  datatype LogRecord = LogRecord(level: Level, text: string)

  /** How many records of the log have the given level. */
  function CountLevel(log: seq<LogRecord>, level: Level): nat
    decreases |log|
  {
    if log == [] then 0
    else CountLevel(log[..|log| - 1], level) + (if log[|log| - 1].level == level then 1 else 0)
  }
}
