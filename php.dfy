/** The slice of PHP's value semantics that the plugin's scripts rely on:
    decoded JSON values, truthiness, array reads and string conversion. */
module Php {
  import Decimal

  /** A value as `json_decode($text, true)` yields it. A JSON object or list
      becomes an ordered array of (key, value) pairs; list positions are the
      keys "0", "1", ... (PHP's integer keys, written as text). Floats are not
      part of this model. */
  datatype Value =
    | Null
    | Bool(b: bool)
    | Int(i: int)
    | Str(s: string)
    | Arr(entries: seq<(string, Value)>)

  /** Keys of a PHP array are unique. */
  predicate UniqueKeys(entries: seq<(string, Value)>)
  {
    forall i, j :: 0 <= i < j < |entries| ==> entries[i].0 != entries[j].0
  }

  /** PHP's conversion to bool, as used by `if ($v)`, `!$v` and `$v ?: $w`. */
  predicate Truthy(v: Value)
  {
    match v
    case Null => false
    case Bool(b) => b
    case Int(i) => i != 0
    case Str(s) => s != "" && s != "0"
    case Arr(e) => |e| > 0
  }

  /** `isset($v)`: the value exists and is not null. */
  predicate IsSet(v: Value)
  {
    !v.Null?
  }

  /** The falsy values: null, false, 0, "", "0" and the empty array; every
      other value, "0.0" and " " included, is truthy. */
  lemma FalsyValues(v: Value)
    ensures !Truthy(v) <==>
            v == Null || v == Bool(false) || v == Int(0) || v == Str("") || v == Str("0") || v == Arr([])
  {
    if v.Arr? && !Truthy(v) {
      assert v.entries == [];
    }
  }

  /** The value stored under `key` (its first entry), or null when there is none. */
  function Lookup(entries: seq<(string, Value)>, key: string): Value
  {
    if entries == [] then Null
    else if entries[0].0 == key then entries[0].1
    else Lookup(entries[1..], key)
  }

  /** A read yields a stored value or null; null when the key is absent, and
      the key's own value when keys are unique. */
  lemma {:induction false} LookupFinds(entries: seq<(string, Value)>, key: string)
    ensures var v := Lookup(entries, key);
      && (v == Null || exists i :: 0 <= i < |entries| && entries[i] == (key, v))
      && ((forall i :: 0 <= i < |entries| ==> entries[i].0 != key) ==> v == Null)
      && (UniqueKeys(entries) ==>
            forall i :: 0 <= i < |entries| && entries[i].0 == key ==> v == entries[i].1)
  {
    if entries != [] && entries[0].0 != key {
      LookupFinds(entries[1..], key);
      var v := Lookup(entries, key);
      if v != Null {
        var i :| 0 <= i < |entries[1..]| && entries[1..][i] == (key, v);
        assert entries[i + 1] == (key, v);
      }
      if UniqueKeys(entries) {
        assert UniqueKeys(entries[1..]) by {
          forall i, j | 0 <= i < j < |entries[1..]|
            ensures entries[1..][i].0 != entries[1..][j].0
          {
            assert entries[1..][i] == entries[i + 1] && entries[1..][j] == entries[j + 1];
          }
        }
        forall i | 0 <= i < |entries| && entries[i].0 == key
          ensures v == entries[i].1
        {
          assert i > 0;
          assert entries[i] == entries[1..][i - 1];
        }
      }
    }
  }

  /** Reading `$v[$key]`. A missing key, or a `$v` that is not an array,
      reads as null (PHP only raises a warning). */
  function Index(v: Value, key: string): Value
  {
    if v.Arr? then Lookup(v.entries, key) else Null
  }

  /** `$v[$outer][$inner]`. */
  function Field(v: Value, outer: string, inner: string): Value
  {
    Index(Index(v, outer), inner)
  }

  /** PHP's conversion to string, as used by the `.` operator. */
  function ToStr(v: Value): (s: string)
    ensures v.Str? ==> s == v.s
    ensures v.Int? ==> Decimal.IsIntText(s) && Decimal.ParseInt(s) == v.i
    ensures s == "" <==> v == Null || v == Bool(false) || v == Str("")
  {
    match v
    case Null => ""
    case Bool(b) => if b then "1" else ""
    case Int(i) => Decimal.IntToStringRoundTrip(i); Decimal.IntToString(i)
    case Str(s) => s
    case Arr(_) => "Array"
  }

  /** The values a `foreach` over `$v` visits, in order; a `foreach` over a
      value that is not an array visits nothing (PHP only raises a warning). */
  function Elements(v: Value): (r: seq<Value>)
    ensures !v.Arr? ==> r == []
    ensures v.Arr? ==> |r| == |v.entries| && forall i :: 0 <= i < |r| ==> r[i] == v.entries[i].1
  {
    if v.Arr? then seq(|v.entries|, i requires 0 <= i < |v.entries| => v.entries[i].1) else []
  }
}
