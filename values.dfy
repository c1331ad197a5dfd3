/** Python values as the bot handles them: the JSON-shaped data that crosses the
    control channel and the on-disk stores, plus tuples (which the source creates
    by accident with trailing commas). Dictionaries keep insertion order, as
    Python dicts do, so they are lists of key/value pairs with distinct keys. */
module Values {

  datatype Option<T> = None | Some(value: T)

  datatype Value =
    | VNone
    | VBool(b: bool)
    | VInt(i: int)
    | VStr(s: string)
    | VList(items: seq<Value>)
    | VTuple(elems: seq<Value>)
    | VDict(entries: seq<(string, Value)>)

  /** A track as the queues hold it, `{"url": ..., "name": ...}`; the URL is its identity. */
  datatype Track = Track(url: string, name: Value)

  /** A raised Python exception: its class name and its message (what `str(e)` gives). */
  datatype PyError = PyError(kind: string, message: string)

  /** How a call into the source ended: normally, or by raising. */
  datatype Outcome = Completed | Raised(error: PyError)

  /** A computed value, or the exception raised while computing it. */
  datatype Result<T> = Ok(value: T) | Err(error: PyError)

  /** The class name Python reports for a value. */
  function TypeName(v: Value): string
  {
    match v
    case VNone => "NoneType"
    case VBool(_) => "bool"
    case VInt(_) => "int"
    case VStr(_) => "str"
    case VList(_) => "list"
    case VTuple(_) => "tuple"
    case VDict(_) => "dict"
  }

  /** The error raised by `v.attr` when the value's class has no such attribute. */
  function NoAttribute(v: Value, attr: string): PyError
  {
    PyError("AttributeError", "'" + TypeName(v) + "' object has no attribute '" + attr + "'")
  }

  /** `s[i]` on a Python list: negative indexes count from the end, anything else
      outside the list raises IndexError. */
  function PyIndex<T>(s: seq<T>, i: int): (r: Result<T>)
    ensures r.Ok? <==> -|s| <= i < |s|
    ensures 0 <= i < |s| ==> r == Ok(s[i])
    ensures -|s| <= i < 0 ==> r == Ok(s[|s| + i])
  {
    if 0 <= i < |s| then Ok(s[i])
    else if -|s| <= i < 0 then Ok(s[|s| + i])
    else Err(PyError("IndexError", "list index out of range"))
  }

  /** Python truthiness (`if v:`). */
  predicate Truthy(v: Value)
  {
    match v
    case VNone => false
    case VBool(b) => b
    case VInt(i) => i != 0
    case VStr(s) => s != ""
    case VList(items) => items != []
    case VTuple(elems) => elems != []
    case VDict(entries) => entries != []
  }

  // ---------------------------------------------------------------------------
  // Dictionaries
  // ---------------------------------------------------------------------------

  predicate HasKey(d: seq<(string, Value)>, k: string)
  {
    exists i :: 0 <= i < |d| && d[i].0 == k
  }

  /** `d.get(k)`: the value stored under `k`, if any. */
  function Get(d: seq<(string, Value)>, k: string): Option<Value>
  {
    if d == [] then None
    else if d[0].0 == k then Some(d[0].1)
    else Get(d[1..], k)
  }

  /** `d.get(k)` finds a value exactly when the key is present, and the value is
      stored with that key. */
  lemma {:induction false} GetHasKey(d: seq<(string, Value)>, k: string)
    ensures Get(d, k).Some? <==> HasKey(d, k)
    ensures Get(d, k).Some? ==> exists i :: 0 <= i < |d| && d[i] == (k, Get(d, k).value)
  {
    if d != [] && d[0].0 != k {
      GetHasKey(d[1..], k);
      var r := Get(d[1..], k);
      if r.Some? {
        var i :| 0 <= i < |d[1..]| && d[1..][i] == (k, r.value);
        assert d[i + 1] == (k, r.value);
      }
      if HasKey(d, k) {
        var i :| 0 <= i < |d| && d[i].0 == k;
        assert i != 0 && d[1..][i - 1].0 == k;
      }
    }
  }

  /** The first entry with key `k` decides `d.get(k)`. */
  lemma {:induction false} GetFirst(d: seq<(string, Value)>, k: string, i: nat)
    requires i < |d| && d[i].0 == k
    requires forall j :: 0 <= j < i ==> d[j].0 != k
    ensures Get(d, k) == Some(d[i].1)
  {
    if i > 0 {
      GetFirst(d[1..], k, i - 1);
    }
  }

  /** `d.get(k, default)`. */
  function GetOr(d: seq<(string, Value)>, k: string, default: Value): Value
  {
    match Get(d, k)
    case Some(v) => v
    case None => default
  }

  /** `d[k] = v`: an existing key keeps its position, a new key goes last. */
  function Put(d: seq<(string, Value)>, k: string, v: Value): (r: seq<(string, Value)>)
  {
    if d == [] then [(k, v)]
    else if d[0].0 == k then [(k, v)] + d[1..]
    else [d[0]] + Put(d[1..], k, v)
  }

  /** After `d[k] = v`, `d[k]` is `v` and every other key reads as before. */
  lemma {:induction false} PutGet(d: seq<(string, Value)>, k: string, v: Value, k': string)
    ensures Get(Put(d, k, v), k') == if k' == k then Some(v) else Get(d, k')
  {
    if d != [] && d[0].0 != k {
      PutGet(d[1..], k, v, k');
      assert Put(d, k, v)[1..] == Put(d[1..], k, v);
    }
  }

  /** `d.pop(k, None)`: the entry with key `k`, if any, is dropped. */
  function Remove(d: seq<(string, Value)>, k: string): seq<(string, Value)>
  {
    if d == [] then []
    else if d[0].0 == k then d[1..]
    else [d[0]] + Remove(d[1..], k)
  }

  /** Keys are unique in a dict built by `Put`: each key occurs at most once. */
  predicate UniqueKeys(d: seq<(string, Value)>)
  {
    forall i, j :: 0 <= i < j < |d| ==> d[i].0 != d[j].0
  }

  function KeySet(d: seq<(string, Value)>): set<string>
  {
    set i | 0 <= i < |d| :: d[i].0
  }

  lemma KeySetCons(d: seq<(string, Value)>)
    requires d != []
    ensures KeySet(d) == {d[0].0} + KeySet(d[1..])
    ensures UniqueKeys(d) <==> UniqueKeys(d[1..]) && d[0].0 !in KeySet(d[1..])
  {
    assert forall i :: 0 <= i < |d[1..]| ==> d[1..][i] == d[i + 1];
    forall x | x in KeySet(d) ensures x in {d[0].0} + KeySet(d[1..]) {
      var i :| 0 <= i < |d| && d[i].0 == x;
      if i > 0 { assert d[1..][i - 1].0 == x; }
    }
    if UniqueKeys(d[1..]) && d[0].0 !in KeySet(d[1..]) {
      forall i, j | 0 <= i < j < |d| ensures d[i].0 != d[j].0 {
        if i == 0 { assert d[j].0 == d[1..][j - 1].0; }
      }
    }
    if UniqueKeys(d) {
      assert forall i :: 0 <= i < |d[1..]| ==> d[1..][i].0 != d[0].0;
    }
  }

  /** `d[k] = v` adds `k` to the key set and keeps keys unique. */
  lemma {:induction false} PutKeys(d: seq<(string, Value)>, k: string, v: Value)
    ensures KeySet(Put(d, k, v)) == KeySet(d) + {k}
    ensures UniqueKeys(d) ==> UniqueKeys(Put(d, k, v))
  {
    var r := Put(d, k, v);
    if d == [] {
      assert r == [(k, v)];
      KeySetCons(r);
      assert KeySet(r[1..]) == {};
    } else {
      KeySetCons(d);
      KeySetCons(r);
      if d[0].0 == k {
        assert r[1..] == d[1..];
      } else {
        assert r[1..] == Put(d[1..], k, v);
        PutKeys(d[1..], k, v);
      }
    }
  }

  /** Popping a key never adds keys and keeps keys unique. */
  lemma {:induction false} RemoveKeys(d: seq<(string, Value)>, k: string)
    ensures KeySet(Remove(d, k)) <= KeySet(d)
    ensures UniqueKeys(d) ==> UniqueKeys(Remove(d, k))
  {
    var r := Remove(d, k);
    if d != [] {
      KeySetCons(d);
      if d[0].0 != k {
        KeySetCons(r);
        assert r[1..] == Remove(d[1..], k);
        RemoveKeys(d[1..], k);
      }
    }
  }

  /** `len(d)` after `d[k] = v`: one more exactly when `k` was new. */
  lemma {:induction false} PutLength(d: seq<(string, Value)>, k: string, v: Value)
    ensures |Put(d, k, v)| == if HasKey(d, k) then |d| else |d| + 1
  {
    if d != [] && d[0].0 != k {
      PutLength(d[1..], k, v);
      if HasKey(d, k) {
        var i :| 0 <= i < |d| && d[i].0 == k;
        assert d[1..][i - 1].0 == k;
      }
      if HasKey(d[1..], k) {
        var i :| 0 <= i < |d[1..]| && d[1..][i].0 == k;
        assert d[i + 1].0 == k;
      }
    }
  }

  /** With unique keys, `d[d[i][0]] = v` overwrites entry `i` in place. */
  lemma {:induction false} PutAt(d: seq<(string, Value)>, i: nat, v: Value)
    requires UniqueKeys(d) && i < |d|
    ensures Put(d, d[i].0, v) == d[i := (d[i].0, v)]
  {
    if i > 0 {
      var k := d[i].0;
      assert d[0].0 != k;
      assert UniqueKeys(d[1..]) by {
        forall a, b | 0 <= a < b < |d[1..]| ensures d[1..][a].0 != d[1..][b].0 {
          assert d[1..][a] == d[a + 1] && d[1..][b] == d[b + 1];
        }
      }
      assert d[1..][i - 1] == d[i];
      PutAt(d[1..], i - 1, v);
      assert d[i := (k, v)] == [d[0]] + d[1..][i - 1 := (k, v)];
    }
  }

  /** After popping `k` from a dict with unique keys, `k` is gone and every other key
      reads as before. */
  lemma {:induction false} RemoveGet(d: seq<(string, Value)>, k: string, k': string)
    requires UniqueKeys(d)
    ensures Get(Remove(d, k), k') == if k' == k then None else Get(d, k')
  {
    if d == [] {
    } else if d[0].0 == k {
      if k' == k {
        assert !HasKey(d[1..], k) by {
          forall i | 0 <= i < |d[1..]| ensures d[1..][i].0 != k {
            assert d[1..][i] == d[i + 1];
          }
        }
        GetHasKey(d[1..], k);
      }
    } else {
      assert UniqueKeys(d[1..]) by {
        forall i, j | 0 <= i < j < |d[1..]| ensures d[1..][i].0 != d[1..][j].0 {
          assert d[1..][i] == d[i + 1] && d[1..][j] == d[j + 1];
        }
      }
      RemoveGet(d[1..], k, k');
      assert Remove(d, k)[1..] == Remove(d[1..], k);
    }
  }

  /** The `{"command": "ERROR", "message": m}` reply of the library handlers. */
  function ErrorReply(message: string): Value
  {
    VDict([("command", VStr("ERROR")), ("message", VStr(message))])
  }

  // ---------------------------------------------------------------------------
  // str() and int()
  // ---------------------------------------------------------------------------

  function DigitChar(d: nat): char
    requires d < 10
  {
    ('0' as int + d) as char
  }

  predicate IsDigit(c: char)
  {
    '0' <= c <= '9'
  }

  /** Decimal spelling of a natural number, most significant digit first. */
  function NatToString(n: nat): (s: string)
    ensures |s| > 0
  {
    if n < 10 then [DigitChar(n)] else NatToString(n / 10) + [DigitChar(n % 10)]
  }

  function IntToString(i: int): string
  {
    if i < 0 then "-" + NatToString(-i) else NatToString(i)
  }

  /** `s.isdigit()` for ASCII text: non-empty and every character a digit. */
  predicate IsDigits(s: string)
  {
    |s| > 0 && forall k :: 0 <= k < |s| ==> IsDigit(s[k])
  }

  /** `int(s)` for a string of decimal digits. */
  function ParseDigits(s: string): nat
    requires forall k :: 0 <= k < |s| ==> IsDigit(s[k])
  {
    if s == [] then 0
    else
      assert IsDigit(s[|s| - 1]);
      10 * ParseDigits(s[..|s| - 1]) + (s[|s| - 1] as int - '0' as int)
  }

  /** The decimal spelling of a natural number is digits only, and reading it back gives the number. */
  lemma {:induction false} NatToStringRoundTrip(n: nat)
    ensures IsDigits(NatToString(n))
    ensures ParseDigits(NatToString(n)) == n
  {
    var s := NatToString(n);
    if n < 10 {
      assert s == [DigitChar(n)];
      assert s[..|s| - 1] == [];
    } else {
      NatToStringRoundTrip(n / 10);
      var p := NatToString(n / 10);
      assert s == p + [DigitChar(n % 10)];
      assert s[..|s| - 1] == p;
      assert forall k :: 0 <= k < |s| ==> IsDigit(s[k]) by {
        forall k | 0 <= k < |s| ensures IsDigit(s[k]) {
          if k < |p| { assert s[k] == p[k]; }
        }
      }
    }
  }

  /** Python's `repr` of a string, without escaping of quotes inside it. */
  function QuoteRepr(s: string): string
  {
    "'" + s + "'"
  }

  /** Python's `str(v)`. */
  function Str(v: Value): string
  {
    match v
    case VNone => "None"
    case VBool(b) => if b then "True" else "False"
    case VInt(i) => IntToString(i)
    case VStr(s) => s
    case _ => Repr(v)
  }

  /** Python's `repr(v)`: strings are quoted, containers show their elements' reprs. */
  function Repr(v: Value): string
    decreases v, 1
  {
    match v
    case VNone => "None"
    case VBool(b) => if b then "True" else "False"
    case VInt(i) => IntToString(i)
    case VStr(s) => QuoteRepr(s)
    case VList(items) => "[" + JoinReprs(items, v) + "]"
    case VTuple(elems) =>
      if |elems| == 1 then "(" + Repr(elems[0]) + ",)" else "(" + JoinReprs(elems, v) + ")"
    case VDict(entries) => "{" + JoinEntries(entries, v) + "}"
  }

  function JoinReprs(items: seq<Value>, ghost parent: Value): string
    requires forall x :: x in items ==> x < parent
    decreases parent, 0, |items|
  {
    if items == [] then ""
    else
      assert items[0] in items;
      if |items| == 1 then Repr(items[0])
      else
        assert forall x :: x in items[1..] ==> x in items;
        Repr(items[0]) + ", " + JoinReprs(items[1..], parent)
  }

  function JoinEntries(entries: seq<(string, Value)>, ghost parent: Value): string
    requires forall e :: e in entries ==> e.1 < parent
    decreases parent, 0, |entries|
  {
    if entries == [] then ""
    else
      assert entries[0] in entries;
      assert forall e :: e in entries[1..] ==> e in entries;
      var item := QuoteRepr(entries[0].0) + ": " + Repr(entries[0].1);
      if |entries| == 1 then item else item + ", " + JoinEntries(entries[1..], parent)
  }
}
