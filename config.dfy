/**
 * The typed configuration store (librichard/include/richard/config.hpp,
 * richard/librichard/src/config.cpp): a map from keys to a variant of
 * bool, long, double, string, nested config and arrays of those, with
 * numeric coercions, conversion from a parsed JSON tree, conversion back to
 * JSON (`dump`), and a deliberately one-sided equality.
 */
module Config {
  import opened Wrappers
  import opened Utils

  const Two32: int := 0x1_0000_0000
  const Two63: int := 0x8000_0000_0000_0000
  const Two64: int := 0x1_0000_0000_0000_0000

  // ---------------------------------------------------------------------
  // Arithmetic types and static_cast
  // ---------------------------------------------------------------------

  /** A value of some arithmetic type: integral types as `IntNumber`, floating ones as `RealNumber`. */
  datatype Number = IntNumber(i: int) | RealNumber(r: real)

  /** The arithmetic types the library instantiates the numeric accessors with. */
  datatype NumericType = Long | SizeT | UInt32 | NetFloat | Double

  predicate IsFloating(t: NumericType) {
    t == NetFloat || t == Double
  }

  /** The values of type `t`. */
  predicate InDomain(n: Number, t: NumericType) {
    match t
    case Long => n.IntNumber? && -Two63 <= n.i < Two63
    case SizeT => n.IntNumber? && 0 <= n.i < Two64
    case UInt32 => n.IntNumber? && 0 <= n.i < Two32
    case NetFloat => n.RealNumber?
    case Double => n.RealNumber?
  }

  /** Conversion to a 64-bit two's-complement `long`. */
  function WrapSigned64(i: int): (r: int)
    ensures -Two63 <= r < Two63
    ensures (r - i) % Two64 == 0
    ensures -Two63 <= i < Two63 ==> r == i
  {
    var u := i % Two64;
    if u >= Two63 then u - Two64 else u
  }

  /** Conversion of a floating value to an integer: truncation toward zero. */
  function Truncate(r: real): (i: int)
    ensures r >= 0.0 ==> i as real <= r < i as real + 1.0
    ensures r < 0.0 ==> i as real - 1.0 < r <= i as real
  {
    if r >= 0.0 then r.Floor else -((-r).Floor)
  }

  /**
   * `static_cast<T>`: integral targets wrap modulo their width (a floating
   * value is truncated first), floating targets keep the value.
   */
  function Cast(n: Number, t: NumericType): (r: Number)
    ensures InDomain(r, t)
    ensures InDomain(n, t) ==> r == n
    ensures IsFloating(t) && n.IntNumber? ==> r == RealNumber(n.i as real)
    ensures n.RealNumber? && InDomain(IntNumber(Truncate(n.r)), t) ==> r == IntNumber(Truncate(n.r))
  {
    var i := if n.IntNumber? then n.i else Truncate(n.r);
    match t
    case Long => IntNumber(WrapSigned64(i))
    case SizeT => IntNumber(i % Two64)
    case UInt32 => IntNumber(i % Two32)
    case NetFloat => RealNumber(if n.IntNumber? then n.i as real else n.r)
    case Double => RealNumber(if n.IntNumber? then n.i as real else n.r)
  }

  /** `T{}`: zero of the type. */
  function Zero(t: NumericType): (r: Number)
    ensures InDomain(r, t)
    ensures r == IntNumber(0) || r == RealNumber(0.0)
  {
    if IsFloating(t) then RealNumber(0.0) else IntNumber(0)
  }

  // ---------------------------------------------------------------------
  // Config values
  // ---------------------------------------------------------------------

  datatype ConfigValue =
    | BoolValue(b: bool)
    | LongValue(l: int)
    | DoubleValue(d: real)
    | StringValue(s: string)
    | ObjectValue(child: ConfigData)
    | LongArray(ls: seq<int>)
    | DoubleArray(ds: seq<real>)
    | StringArray(ss: seq<string>)
    | ObjectArray(children: seq<ConfigData>)

  /** The contents of a `Config` object: its entry map (a `std::map`, so keys are unique). */
  datatype ConfigData = ConfigData(entries: map<string, ConfigValue>)

  function NotFound(key: string): string {
    "No '" + key + "' value found in config"
  }

  const BadVariantAccess := "bad_variant_access"

  // ---------------------------------------------------------------------
  // The parsed JSON tree
  // ---------------------------------------------------------------------

  /**
   * A parsed JSON value with nlohmann's kinds: signed and unsigned integers
   * and floats are distinct kinds, and an object is a map from keys to
   * values iterated in ascending key order.
   */
  datatype Json =
    | JNull
    | JBool(b: bool)
    | JInt(i: int)
    | JUnsigned(u: nat)
    | JFloat(f: real)
    | JString(s: string)
    | JArray(items: seq<Json>)
    | JObject(members: map<string, Json>)

  /** nlohmann's `type_name()`, used in its conversion errors. */
  function TypeName(j: Json): string {
    match j
    case JNull => "null"
    case JBool(_) => "boolean"
    case JInt(_) => "number"
    case JUnsigned(_) => "number"
    case JFloat(_) => "number"
    case JString(_) => "string"
    case JArray(_) => "array"
    case JObject(_) => "object"
  }

  const KeyOfNonObject := "cannot use key() for non-object iterators"
  const UnsupportedJsonType := "Unsupported JSON type"
  const ArrayIsEmpty := "Array is empty"
  const UnsupportedArrayType := "Unsupported type in JSON array"

  // ---------------------------------------------------------------------
  // Key order
  // ---------------------------------------------------------------------

  /** `std::string` ordering: lexicographic by character. */
  predicate StrLess(a: string, b: string)
    decreases |a|
  {
    |b| > 0 && (|a| == 0 || a[0] < b[0] || (a[0] == b[0] && StrLess(a[1..], b[1..])))
  }

  lemma {:induction false} StrLessIrreflexive(a: string)
    ensures !StrLess(a, a)
    decreases |a|
  {
    if |a| > 0 {
      StrLessIrreflexive(a[1..]);
    }
  }

  lemma {:induction false} StrLessTransitive(a: string, b: string, c: string)
    requires StrLess(a, b) && StrLess(b, c)
    ensures StrLess(a, c)
    decreases |a|
  {
    if |a| > 0 && a[0] == b[0] && b[0] == c[0] {
      StrLessTransitive(a[1..], b[1..], c[1..]);
    }
  }

  lemma {:induction false} StrLessTotal(a: string, b: string)
    ensures a == b || StrLess(a, b) || StrLess(b, a)
    decreases |a|
  {
    if |a| > 0 && |b| > 0 && a[0] == b[0] {
      StrLessTotal(a[1..], b[1..]);
      if a[1..] == b[1..] {
        assert a == [a[0]] + a[1..] && b == [b[0]] + b[1..];
      }
    }
  }

  predicate IsLeast(m: string, keys: set<string>) {
    m in keys && forall k :: k in keys && k != m ==> StrLess(m, k)
  }

  lemma {:induction false} LeastExists(keys: set<string>)
    requires keys != {}
    ensures exists m :: IsLeast(m, keys)
    decreases |keys|
  {
    var x :| x in keys;
    if keys - {x} == {} {
      assert keys == {x};
      assert IsLeast(x, keys);
    } else {
      LeastExists(keys - {x});
      var m :| IsLeast(m, keys - {x});
      StrLessTotal(m, x);
      if StrLess(m, x) {
        assert IsLeast(m, keys);
      } else {
        forall k | k in keys && k != x
          ensures StrLess(x, k)
        {
          if k != m {
            StrLessTransitive(x, m, k);
          }
        }
        assert IsLeast(x, keys);
      }
    }
  }

  lemma LeastUnique(keys: set<string>, m1: string, m2: string)
    requires IsLeast(m1, keys) && IsLeast(m2, keys)
    ensures m1 == m2
  {
    if m1 != m2 {
      StrLessTransitive(m1, m2, m1);
      StrLessIrreflexive(m1);
    }
  }

  lemma LeastUniqueAll(keys: set<string>)
    ensures forall m1, m2 :: IsLeast(m1, keys) && IsLeast(m2, keys) ==> m1 == m2
  {
    forall m1, m2 | IsLeast(m1, keys) && IsLeast(m2, keys) ensures m1 == m2 {
      LeastUnique(keys, m1, m2);
    }
  }

  /** The keys of a map in the order `std::map` iterates them. */
  function SortedKeys(keys: set<string>): (r: seq<string>)
    ensures |r| == |keys|
    ensures forall k :: k in keys <==> k in r
    ensures forall i, j :: 0 <= i < j < |r| ==> StrLess(r[i], r[j])
    decreases |keys|
  {
    if keys == {} then []
    else
      LeastExists(keys);
      LeastUniqueAll(keys);
      var m :| IsLeast(m, keys);
      var rest := SortedKeys(keys - {m});
      [m] + rest
  }

  // ---------------------------------------------------------------------
  // ConfigMaker::fromJson
  // ---------------------------------------------------------------------

  predicate IsArrayOfObjects(j: Json) {
    j.JArray? && |j.items| > 0 && j.items[0].JObject?
  }

  /** `get<long>` on one array element: any number kind converts, anything else fails. */
  function LongElement(e: Json): (r: Result<int>)
    ensures r.Ok? <==> e.JInt? || e.JUnsigned? || e.JFloat?
  {
    match e
    case JInt(i) => Ok(WrapSigned64(i))
    case JUnsigned(u) => Ok(WrapSigned64(u))
    case JFloat(f) => Ok(WrapSigned64(Truncate(f)))
    case _ => Err("type must be number, but is " + TypeName(e))
  }

  /** `get<double>` on one array element. */
  function DoubleElement(e: Json): (r: Result<real>)
    ensures r.Ok? <==> e.JInt? || e.JUnsigned? || e.JFloat?
  {
    match e
    case JInt(i) => Ok(i as real)
    case JUnsigned(u) => Ok(u as real)
    case JFloat(f) => Ok(f)
    case _ => Err("type must be number, but is " + TypeName(e))
  }

  /** `get<std::string>` on one array element. */
  function StringElement(e: Json): (r: Result<string>)
    ensures r.Ok? <==> e.JString?
  {
    match e
    case JString(s) => Ok(s)
    case _ => Err("type must be string, but is " + TypeName(e))
  }

  /** Converts every element in order; the first failing element decides the error. */
  function Elements<T>(items: seq<Json>, convert: Json -> Result<T>): (r: Result<seq<T>>)
    ensures r.Ok? <==> forall i :: 0 <= i < |items| ==> convert(items[i]).Ok?
    ensures r.Ok? ==> |r.value| == |items| && forall i :: 0 <= i < |items| ==> r.value[i] == convert(items[i]).value
    ensures r.Err? ==> exists i :: 0 <= i < |items| && convert(items[i]).Err? &&
                          r == Err(convert(items[i]).message) &&
                          forall j :: 0 <= j < i ==> convert(items[j]).Ok?
  {
    if items == [] then Ok([])
    else
      var head :- convert(items[0]);
      var tail := Elements(items[1..], convert);
      if tail.Err? then
        assert forall j :: 1 <= j < |items| ==> items[j] == items[1..][j - 1];
        tail
      else Ok([head] + tail.value)
  }

  /** An array that is not an array of objects: the first element fixes the element type. */
  function ValueFromJsonArray(items: seq<Json>): (r: Result<ConfigValue>)
    ensures items == [] ==> r == Err(ArrayIsEmpty)
    ensures r.Ok? ==> |items| > 0 && (items[0].JInt? || items[0].JUnsigned? || items[0].JFloat? || items[0].JString?)
    ensures r.Ok? && (items[0].JInt? || items[0].JUnsigned?) ==> r.value.LongArray? && |r.value.ls| == |items|
    ensures r.Ok? && items[0].JFloat? ==> r.value.DoubleArray? && |r.value.ds| == |items|
    ensures r.Ok? && items[0].JString? ==> r.value.StringArray? && |r.value.ss| == |items|
  {
    if items == [] then Err(ArrayIsEmpty)
    else match items[0]
      case JInt(_) => var ls :- Elements(items, LongElement); Ok(LongArray(ls))
      case JUnsigned(_) => var ls :- Elements(items, LongElement); Ok(LongArray(ls))
      case JFloat(_) => var ds :- Elements(items, DoubleElement); Ok(DoubleArray(ds))
      case JString(_) => var ss :- Elements(items, StringElement); Ok(StringArray(ss))
      case _ => Err(UnsupportedArrayType)
  }

  /**
   * `ConfigMaker::fromJson`. An object's members are converted in ascending
   * key order. Iterating anything else: null and the empty array have no
   * elements and give an empty config; for any other value the first
   * element is either of an unsupported kind or asks for the key of a
   * non-object iterator, both of which throw.
   */
  function FromJson(j: Json): (r: Result<ConfigData>)
    ensures (j.JNull? || j == JArray([])) ==> r == Ok(ConfigData(map[]))
    ensures r.Ok? ==> j.JObject? || j.JNull? || j == JArray([])
    ensures r.Ok? && j.JObject? ==> forall k :: k in r.value.entries <==> k in j.members
    decreases j, 2
  {
    match j
    case JObject(m) => ConvertMembers(m, SortedKeys(m.Keys), map[])
    case JNull => Ok(ConfigData(map[]))
    case JArray(items) =>
      if items == [] then Ok(ConfigData(map[]))
      else FirstElementOfNonObject(items[0])
    case _ => Err(KeyOfNonObject)
  }

  /**
   * The error from the first element when a non-object array is iterated as
   * an object. An array element goes through `valueFromJsonArray` before its
   * key is asked for, since the right operand of an assignment is sequenced
   * first.
   */
  function FirstElementOfNonObject(e: Json): (r: Result<ConfigData>)
    ensures r.Err?
  {
    match e
    case JNull => Err(UnsupportedJsonType)
    case JArray(inner) =>
      if IsArrayOfObjects(e) then Err(KeyOfNonObject)
      else
        var v := ValueFromJsonArray(inner);
        if v.Err? then Err(v.message) else Err(KeyOfNonObject)
    case _ => Err(KeyOfNonObject)
  }

  /** The member loop of `fromJson`: converts `keys` in order, inserting into `acc`. */
  function ConvertMembers(m: map<string, Json>, keys: seq<string>, acc: map<string, ConfigValue>)
    : (r: Result<ConfigData>)
    requires forall k :: k in keys ==> k in m
    ensures r.Ok? ==> forall k :: k in r.value.entries <==> k in acc || k in keys
    decreases JObject(m), 1, |keys|
  {
    if keys == [] then Ok(ConfigData(acc))
    else
      var v :- ConvertMember(m[keys[0]]);
      ConvertMembers(m, keys[1..], acc[keys[0] := v])
  }

  /** The `switch` of `fromJson` on one member's kind. */
  function ConvertMember(v: Json): (r: Result<ConfigValue>)
    ensures v.JNull? ==> r == Err(UnsupportedJsonType)
    ensures v.JBool? ==> r == Ok(BoolValue(v.b))
    ensures v.JInt? || v.JUnsigned? ==> r.Ok? && r.value.LongValue?
    ensures v.JInt? && -Two63 <= v.i < Two63 ==> r == Ok(LongValue(v.i))
    ensures v.JFloat? ==> r == Ok(DoubleValue(v.f))
    ensures v.JString? ==> r == Ok(StringValue(v.s))
    ensures v.JObject? && r.Ok? ==> r.value.ObjectValue?
    ensures IsArrayOfObjects(v) && r.Ok? ==> r.value.ObjectArray? && |r.value.children| == |v.items|
    ensures v.JArray? && !IsArrayOfObjects(v) ==> r == ValueFromJsonArray(v.items)
    decreases v, 3
  {
    match v
    case JBool(b) => Ok(BoolValue(b))
    case JInt(i) => Ok(LongValue(WrapSigned64(i)))
    case JUnsigned(u) => Ok(LongValue(WrapSigned64(u)))
    case JFloat(f) => Ok(DoubleValue(f))
    case JString(s) => Ok(StringValue(s))
    case JObject(_) =>
      var c :- FromJson(v);
      Ok(ObjectValue(c))
    case JArray(items) =>
      if IsArrayOfObjects(v) then
        var cs :- CreateConfigArray(items, 0);
        Ok(ObjectArray(cs))
      else ValueFromJsonArray(items)
    case JNull => Err(UnsupportedJsonType)
  }

  /** `createConfigArray`: every element converted with `fromJson`, from index `i` on. */
  function CreateConfigArray(items: seq<Json>, i: nat): (r: Result<seq<ConfigData>>)
    requires i <= |items|
    ensures r.Ok? ==> |r.value| == |items| - i
    decreases JArray(items), 1, |items| - i
  {
    if i == |items| then Ok([])
    else
      var c :- FromJson(items[i]);
      var rest :- CreateConfigArray(items, i + 1);
      Ok([c] + rest)
  }

  // ---------------------------------------------------------------------
  // ConfigMaker::toJsonObj and the dump round trip
  // ---------------------------------------------------------------------

  /**
   * `toJsonObj`. The JSON value starts out null and each entry assigns a
   * member, so a config without entries becomes null, not `{}`.
   */
  function ToJson(d: ConfigData): (r: Json)
    ensures d.entries == map[] <==> r == JNull
    ensures d.entries != map[] ==> r.JObject? && r.members.Keys == d.entries.Keys
    decreases d, 2
  {
    if d.entries == map[] then JNull
    else JObject(map k | k in d.entries :: ToJsonEntry(d, k))
  }

  /** The JSON value `toJsonObj` assigns for the entry under `k`. */
  function ToJsonEntry(d: ConfigData, k: string): Json
    requires k in d.entries
    decreases d, 1
  {
    match d.entries[k]
    case BoolValue(b) => JBool(b)
    case LongValue(l) => JInt(l)
    case DoubleValue(x) => JFloat(x)
    case StringValue(str) => JString(str)
    case ObjectValue(c) => ToJson(c)
    case LongArray(ls) => JArray(seq(|ls|, i requires 0 <= i < |ls| => JInt(ls[i])))
    case DoubleArray(ds) => JArray(seq(|ds|, i requires 0 <= i < |ds| => JFloat(ds[i])))
    case StringArray(ss) => JArray(seq(|ss|, i requires 0 <= i < |ss| => JString(ss[i])))
    case ObjectArray(cs) => JArray(seq(|cs|, i requires 0 <= i < |cs| => ToJson(cs[i])))
  }

  /**
   * Configs that survive `dump` followed by `fromJson`: longs in range, no
   * empty arrays and no empty nested configs, at any depth.
   */
  predicate Dumpable(d: ConfigData)
    decreases d, 2
  {
    forall k | k in d.entries :: DumpableEntry(d, k)
  }

  predicate DumpableEntry(d: ConfigData, k: string)
    requires k in d.entries
    decreases d, 1
  {
    match d.entries[k]
    case LongValue(l) => -Two63 <= l < Two63
    case LongArray(ls) => ls != [] && forall i | 0 <= i < |ls| :: -Two63 <= ls[i] < Two63
    case DoubleArray(ds) => ds != []
    case StringArray(ss) => ss != []
    case ObjectValue(c) => c.entries != map[] && Dumpable(c)
    case ObjectArray(cs) => cs != [] && forall i | 0 <= i < |cs| :: cs[i].entries != map[] && Dumpable(cs[i])
    case _ => true
  }

  /** `dump` followed by `fromJson` gives back exactly the same entries. */
  lemma {:induction false} DumpRoundTrip(d: ConfigData)
    requires Dumpable(d)
    ensures FromJson(ToJson(d)) == Ok(d)
    decreases d, 2
  {
    if d.entries != map[] {
      var m := ToJson(d).members;
      assert ToJson(d) == JObject(m);
      forall k | k in d.entries
        ensures k in m && ConvertMember(m[k]) == Ok(d.entries[k])
      {
        assert m[k] == ToJsonEntry(d, k);
        EntryRoundTrip(d, k);
      }
      ObjectRoundTrip(m, d.entries);
    }
  }

  /** Converts every member to the value `target` holds for it. */
  predicate ConvertsTo(m: map<string, Json>, target: map<string, ConfigValue>) {
    m.Keys == target.Keys && forall k | k in m :: ConvertMember(m[k]) == Ok(target[k])
  }

  lemma ObjectRoundTrip(m: map<string, Json>, target: map<string, ConfigValue>)
    requires ConvertsTo(m, target)
    ensures FromJson(JObject(m)) == Ok(ConfigData(target))
  {
    var keys := SortedKeys(m.Keys);
    assert FromJson(JObject(m)) == ConvertMembers(m, keys, map[]);
    ConvertInAnyOrder(m, target, keys);
  }

  /** Converting the members in any order that lists each key builds `target`. */
  lemma ConvertInAnyOrder(m: map<string, Json>, target: map<string, ConfigValue>, keys: seq<string>)
    requires ConvertsTo(m, target)
    requires forall k :: k in m <==> k in keys
    ensures ConvertMembers(m, keys, map[]) == Ok(ConfigData(target))
  {
    ConvertAllMembers(m, target, keys, map[]);
    var built := ConvertMembers(m, keys, map[]).value.entries;
    forall k | k in built
      ensures k in target && built[k] == target[k]
    {
    }
    forall k | k in target
      ensures k in built
    {
    }
    assert built == target;
  }

  lemma {:induction false} EntryRoundTrip(d: ConfigData, k: string)
    requires k in d.entries && DumpableEntry(d, k)
    ensures ConvertMember(ToJsonEntry(d, k)) == Ok(d.entries[k])
    decreases d, 1
  {
    var j := ToJsonEntry(d, k);
    match d.entries[k]
    case ObjectValue(c) =>
      DumpRoundTrip(c);
    case ObjectArray(cs) =>
      forall n | 0 <= n < |cs|
        ensures FromJson(j.items[n]) == Ok(cs[n])
      {
        DumpRoundTrip(cs[n]);
      }
      CreateArrayRoundTrip(j.items, cs, 0);
      assert cs[0..] == cs;
    case LongArray(ls) =>
      var r := Elements(j.items, LongElement);
      assert r.value == ls;
    case DoubleArray(ds) =>
      var r := Elements(j.items, DoubleElement);
      assert r.value == ds;
    case StringArray(ss) =>
      var r := Elements(j.items, StringElement);
      assert r.value == ss;
    case _ =>
  }

  lemma {:induction false} CreateArrayRoundTrip(items: seq<Json>, cs: seq<ConfigData>, i: nat)
    requires |items| == |cs| && i <= |cs|
    requires forall n | 0 <= n < |cs| :: FromJson(items[n]) == Ok(cs[n])
    ensures CreateConfigArray(items, i) == Ok(cs[i..])
    decreases |cs| - i
  {
    if i < |cs| {
      CreateArrayRoundTrip(items, cs, i + 1);
      assert cs[i..] == [cs[i]] + cs[i + 1..];
    }
  }

  lemma {:induction false} ConvertAllMembers(m: map<string, Json>, target: map<string, ConfigValue>,
                                             keys: seq<string>, acc: map<string, ConfigValue>)
    requires ConvertsTo(m, target)
    requires forall k :: k in keys ==> k in m
    ensures var r := ConvertMembers(m, keys, acc);
      r.Ok? && (forall k :: k in r.value.entries <==> k in acc || k in keys) &&
      forall k | k in r.value.entries :: r.value.entries[k] == if k in keys then target[k] else acc[k]
    decreases |keys|
  {
    if keys != [] {
      var k0 := keys[0];
      assert ConvertMember(m[k0]) == Ok(target[k0]);
      ConvertAllMembers(m, target, keys[1..], acc[k0 := target[k0]]);
      assert forall k :: k in keys <==> k == k0 || k in keys[1..];
    }
  }

  /** An empty array entry does not survive the round trip: it comes back as an error. */
  lemma EmptyArrayBreaksRoundTrip()
    ensures FromJson(ToJson(ConfigData(map["a" := LongArray([])]))) == Err(ArrayIsEmpty)
  {
    var d := ConfigData(map["a" := LongArray([])]);
    assert ToJsonEntry(d, "a") == JArray([]);
    assert SortedKeys({"a"}) == ["a"];
  }

  /** Nor does an empty nested config, which is dumped as null. */
  lemma EmptyObjectBreaksRoundTrip()
    ensures FromJson(ToJson(ConfigData(map["a" := ObjectValue(ConfigData(map[]))]))) == Err(UnsupportedJsonType)
  {
    var d := ConfigData(map["a" := ObjectValue(ConfigData(map[]))]);
    assert ToJsonEntry(d, "a") == JNull;
    assert SortedKeys({"a"}) == ["a"];
  }

  // ---------------------------------------------------------------------
  // operator== and operator!=
  // ---------------------------------------------------------------------

  /**
   * `lhs == rhs`: every key of `lhs` must be in `rhs` with the same
   * alternative and an equal value; keys only in `rhs` are ignored.
   * Nested configs are compared with the operands swapped (the right-hand
   * child on the left), arrays of configs element by element in order.
   */
  function Equal(lhs: ConfigData, rhs: ConfigData): (r: bool)
    ensures r ==> lhs.entries.Keys <= rhs.entries.Keys
  {
    EqualAt(lhs, rhs, false)
  }

  function NotEqual(lhs: ConfigData, rhs: ConfigData): bool {
    !Equal(lhs, rhs)
  }

  /**
   * Compares `x == y`, or `y == x` when `swapped`. Recursion always goes
   * down `x`, so both orders of the nested comparison are well founded.
   */
  function EqualAt(x: ConfigData, y: ConfigData, swapped: bool): (r: bool)
    ensures r ==> (if swapped then y.entries.Keys <= x.entries.Keys else x.entries.Keys <= y.entries.Keys)
    decreases x, 1
  {
    var lhs := if swapped then y else x;
    var rhs := if swapped then x else y;
    forall k | k in lhs.entries :: k in rhs.entries && ValueMatchesAt(x, y, k, swapped)
  }

  /** The `std::visit` of `operator==` on the entries under `k`. */
  function ValueMatchesAt(x: ConfigData, y: ConfigData, k: string, swapped: bool): bool
    requires k in x.entries && k in y.entries
    decreases x, 0
  {
    var xv, yv := x.entries[k], y.entries[k];
    var lv := if swapped then yv else xv;
    var rv := if swapped then xv else yv;
    match xv
    case ObjectValue(xc) =>
      yv.ObjectValue? && EqualAt(xc, yv.child, !swapped)
    case ObjectArray(xcs) =>
      yv.ObjectArray? && |xcs| == |yv.children| &&
      forall i | 0 <= i < |xcs| :: EqualAt(xcs[i], yv.children[i], swapped)
    case _ =>
      lv == rv
  }

  lemma {:induction false} EqualAtReflexive(x: ConfigData, swapped: bool)
    ensures EqualAt(x, x, swapped)
    decreases x, 1
  {
    forall k | k in x.entries
      ensures ValueMatchesAt(x, x, k, swapped)
    {
      match x.entries[k]
      case ObjectValue(c) =>
        EqualAtReflexive(c, !swapped);
      case ObjectArray(cs) =>
        forall i | 0 <= i < |cs| ensures EqualAt(cs[i], cs[i], swapped) {
          EqualAtReflexive(cs[i], swapped);
        }
      case _ =>
    }
  }

  /** Every config equals itself. */
  lemma EqualReflexive(d: ConfigData)
    ensures Equal(d, d) && !NotEqual(d, d)
  {
    EqualAtReflexive(d, false);
  }

  /** Equality is not symmetric: extra keys on the right are ignored, on the left they are not. */
  lemma EqualIsOneSided()
    ensures var small, big := ConfigData(map[]), ConfigData(map["k" := BoolValue(true)]);
      Equal(small, big) && NotEqual(big, small)
  {
    var big := ConfigData(map["k" := BoolValue(true)]);
    assert "k" in big.entries;
  }

  /** A dumped and reloaded config compares equal to the original, as the dump test expects. */
  lemma DumpThenLoadIsEqual(d: ConfigData)
    requires Dumpable(d)
    ensures FromJson(ToJson(d)).Ok? && Equal(FromJson(ToJson(d)).value, d)
  {
    DumpRoundTrip(d);
    EqualReflexive(d);
  }

  // ---------------------------------------------------------------------
  // Numeric accessors
  // ---------------------------------------------------------------------

  /** What `setNumber<T>` stores: a double for floating `T`, a long otherwise. */
  function StoredNumber(value: Number, t: NumericType): (r: ConfigValue)
    ensures IsFloating(t) <==> r.DoubleValue?
    ensures !IsFloating(t) ==> r.LongValue? && InDomain(IntNumber(r.l), Long)
  {
    if IsFloating(t) then DoubleValue(Cast(value, Double).r)
    else LongValue(Cast(value, Long).i)
  }

  /** The `std::visit` of `getNumber<T>`: numbers are cast to `T`, any other alternative reads as `T{}`. */
  function NumberOf(v: ConfigValue, t: NumericType): (r: Number)
    ensures InDomain(r, t)
    ensures !v.LongValue? && !v.DoubleValue? ==> r == Zero(t)
    ensures v.LongValue? && InDomain(IntNumber(v.l), t) ==> r == IntNumber(v.l)
    ensures v.DoubleValue? && IsFloating(t) ==> r == RealNumber(v.d)
  {
    match v
    case LongValue(l) => Cast(IntNumber(l), t)
    case DoubleValue(d) => Cast(RealNumber(d), t)
    case _ => Zero(t)
  }

  lemma WrapThenReduce(i: int, m: int)
    requires 0 <= i < Two64 && (m == Two64 || m == Two32)
    ensures WrapSigned64(i) % m == i % m
  {
    if i >= Two63 {
      assert WrapSigned64(i) == i - Two64;
      assert Two64 == m * (Two64 / m);
      assert (i - m * (Two64 / m)) % m == i % m;
    }
  }

  /**
   * A number stored with `setNumber<T>` is read back unchanged by
   * `getNumber<T>`: unsigned values above the long range wrap on the way in
   * and wrap back on the way out.
   */
  lemma NumberRoundTrip(value: Number, t: NumericType)
    requires InDomain(value, t)
    ensures NumberOf(StoredNumber(value, t), t) == value
  {
    match t
    case SizeT => WrapThenReduce(value.i, Two64);
    case UInt32 => WrapThenReduce(value.i, Two32);
    case _ =>
  }

  /** A whole array read back with `getNumberArray<T>` after `setNumberArray<T>`. */
  lemma NumberArrayRoundTrip(values: seq<Number>, t: NumericType)
    requires forall i | 0 <= i < |values| :: InDomain(values[i], t)
    ensures NumbersOf(StoredNumbers(values, t), t) == values
  {
    forall i | 0 <= i < |values|
      ensures NumbersOf(StoredNumbers(values, t), t)[i] == values[i]
    {
      NumberRoundTrip(values[i], t);
    }
  }

  /** What `setNumberArray<T>` stores: the elements coerced to double or to long. */
  function StoredNumbers(values: seq<Number>, t: NumericType): (r: ConfigValue)
    ensures IsFloating(t) ==> (r.DoubleArray? && |r.ds| == |values| &&
                               forall i | 0 <= i < |values| :: DoubleValue(r.ds[i]) == StoredNumber(values[i], t))
    ensures !IsFloating(t) ==> (r.LongArray? && |r.ls| == |values| &&
                                forall i | 0 <= i < |values| :: LongValue(r.ls[i]) == StoredNumber(values[i], t))
  {
    if IsFloating(t) then DoubleArray(seq(|values|, i requires 0 <= i < |values| => Cast(values[i], Double).r))
    else LongArray(seq(|values|, i requires 0 <= i < |values| => Cast(values[i], Long).i))
  }

  /** The `std::visit` of `getNumberArray<T>`: number arrays are coerced element by element, anything else is empty. */
  function NumbersOf(v: ConfigValue, t: NumericType): (r: seq<Number>)
    ensures v.LongArray? ==> |r| == |v.ls| && forall i | 0 <= i < |r| :: r[i] == NumberOf(LongValue(v.ls[i]), t)
    ensures v.DoubleArray? ==> |r| == |v.ds| && forall i | 0 <= i < |r| :: r[i] == NumberOf(DoubleValue(v.ds[i]), t)
    ensures !v.LongArray? && !v.DoubleArray? ==> r == []
  {
    match v
    case LongArray(ls) => seq(|ls|, i requires 0 <= i < |ls| => Cast(IntNumber(ls[i]), t))
    case DoubleArray(ds) => seq(|ds|, i requires 0 <= i < |ds| => Cast(RealNumber(ds[i]), t))
    case _ => []
  }

  /** The fixed-size `getNumberArray<T, N>`: the first `n` coerced elements, zero-filled. */
  function FixedNumbersOf(v: ConfigValue, t: NumericType, n: nat): (r: seq<Number>)
    ensures |r| == n
    ensures forall i | 0 <= i < n :: r[i] == if i < |NumbersOf(v, t)| then NumbersOf(v, t)[i] else Zero(t)
  {
    var xs := NumbersOf(v, t);
    seq(n, i requires 0 <= i < n => if i < |xs| then xs[i] else Zero(t))
  }

  /** Every element `getNumberArray<T, N>` returns is a value of `T`. */
  lemma FixedNumbersInDomain(v: ConfigValue, t: NumericType, n: nat)
    ensures forall i | 0 <= i < n :: InDomain(FixedNumbersOf(v, t, n)[i], t)
  {
  }

  /** `coerceVectorType`: a vector of the same size holding each element converted. */
  method CoerceVectorType<S, D>(src: seq<S>, convert: S -> D, zero: D) returns (dest: seq<D>)
    ensures |dest| == |src|
    ensures forall i | 0 <= i < |src| :: dest[i] == convert(src[i])
  {
    var a := new D[|src|](_ => zero);
    var i := 0;
    while i < |src|
      invariant 0 <= i <= |src|
      invariant forall n | 0 <= n < i :: a[n] == convert(src[n])
    {
      a[i] := convert(src[i]);
      i := i + 1;
    }
    dest := a[..];
  }

  /** `vectorToArray`: `n` value-initialised slots, the first `min(|vec|, n)` overwritten with converted elements. */
  method VectorToArray<S, D>(vec: seq<S>, n: nat, convert: S -> D, zero: D) returns (arr: seq<D>)
    ensures |arr| == n
    ensures forall i | 0 <= i < n :: arr[i] == if i < |vec| then convert(vec[i]) else zero
  {
    var a := new D[n](_ => zero);
    var i := 0;
    while i < Min(|vec|, n)
      invariant 0 <= i <= Min(|vec|, n)
      invariant forall k | 0 <= k < i :: a[k] == convert(vec[k])
      invariant forall k | i <= k < n :: a[k] == zero
    {
      a[i] := convert(vec[i]);
      i := i + 1;
    }
    arr := a[..];
  }

  function Min(a: int, b: int): int {
    if a < b then a else b
  }

  // ---------------------------------------------------------------------
  // class Config
  // ---------------------------------------------------------------------

  /** A configuration object whose setters update its entry map in place. */
  class Config {
    var entries: map<string, ConfigValue>

    constructor ()
      ensures entries == map[]
    {
      entries := map[];
    }

    /** The implicit copy constructor: a new object holding the same entries. */
    constructor Copy(d: ConfigData)
      ensures entries == d.entries
    {
      entries := d.entries;
    }

    /** The value this object holds, as copied by `setObject` and `getObject`. */
    function Data(): ConfigData
      reads this
    {
      ConfigData(entries)
    }

    function Contains(key: string): (r: bool)
      reads this
      ensures r <==> key in entries
    {
      key in entries
    }

    /** `getEntry`: the stored alternative, or the not-found error. */
    function GetEntry(key: string): (r: Result<ConfigValue>)
      reads this
      ensures r.Ok? <==> key in entries
      ensures r.Ok? ==> r.value == entries[key]
      ensures r.Err? ==> r.message == NotFound(key)
    {
      if key in entries then Ok(entries[key]) else Err(NotFound(key))
    }

    function GetBoolean(key: string): (r: Result<bool>)
      reads this
      ensures r.Ok? <==> key in entries && entries[key].BoolValue?
      ensures r.Ok? ==> entries[key] == BoolValue(r.value)
      ensures r.Err? ==> r.message == if key in entries then BadVariantAccess else NotFound(key)
    {
      var v :- GetEntry(key);
      if v.BoolValue? then Ok(v.b) else Err(BadVariantAccess)
    }

    function GetString(key: string): (r: Result<string>)
      reads this
      ensures r.Ok? <==> key in entries && entries[key].StringValue?
      ensures r.Ok? ==> entries[key] == StringValue(r.value)
      ensures r.Err? ==> r.message == if key in entries then BadVariantAccess else NotFound(key)
    {
      var v :- GetEntry(key);
      if v.StringValue? then Ok(v.s) else Err(BadVariantAccess)
    }

    function GetStringArray(key: string): (r: Result<seq<string>>)
      reads this
      ensures r.Ok? <==> key in entries && entries[key].StringArray?
      ensures r.Ok? ==> entries[key] == StringArray(r.value)
      ensures r.Err? ==> r.message == if key in entries then BadVariantAccess else NotFound(key)
    {
      var v :- GetEntry(key);
      if v.StringArray? then Ok(v.ss) else Err(BadVariantAccess)
    }

    /** `getObject`: a copy of the nested config. */
    function GetObject(key: string): (r: Result<ConfigData>)
      reads this
      ensures r.Ok? <==> key in entries && entries[key].ObjectValue?
      ensures r.Ok? ==> entries[key] == ObjectValue(r.value)
      ensures r.Err? ==> r.message == if key in entries then BadVariantAccess else NotFound(key)
    {
      if key !in entries then Err(NotFound(key))
      else if entries[key].ObjectValue? then Ok(entries[key].child)
      else Err(BadVariantAccess)
    }

    function GetObjectArray(key: string): (r: Result<seq<ConfigData>>)
      reads this
      ensures r.Ok? <==> key in entries && entries[key].ObjectArray?
      ensures r.Ok? ==> entries[key] == ObjectArray(r.value)
      ensures r.Err? ==> r.message == if key in entries then BadVariantAccess else NotFound(key)
    {
      if key !in entries then Err(NotFound(key))
      else if entries[key].ObjectArray? then Ok(entries[key].children)
      else Err(BadVariantAccess)
    }

    /** `getNumber<T>`: any stored number cast to `T`, `T{}` for other alternatives. */
    function GetNumber(key: string, t: NumericType): (r: Result<Number>)
      reads this
      ensures r.Ok? <==> key in entries
      ensures r.Ok? ==> InDomain(r.value, t) && r.value == NumberOf(entries[key], t)
      ensures r.Err? ==> r.message == NotFound(key)
    {
      var v :- GetEntry(key);
      Ok(NumberOf(v, t))
    }

    /** `getNumberArray<T>`. */
    method GetNumberArray(key: string, t: NumericType) returns (r: Result<seq<Number>>)
      ensures r.Ok? <==> key in entries
      ensures r.Ok? ==> r.value == NumbersOf(entries[key], t)
      ensures r.Err? ==> r.message == NotFound(key)
    {
      var v :- GetEntry(key);
      match v {
        case LongArray(ls) =>
          var xs := CoerceVectorType(ls, (l: int) => Cast(IntNumber(l), t), Zero(t));
          r := Ok(xs);
        case DoubleArray(ds) =>
          var xs := CoerceVectorType(ds, (d: real) => Cast(RealNumber(d), t), Zero(t));
          r := Ok(xs);
        case _ =>
          r := Ok([]);
      }
    }

    /** `getNumberArray<T, N>`. */
    method GetFixedNumberArray(key: string, t: NumericType, n: nat) returns (r: Result<seq<Number>>)
      ensures r.Ok? <==> key in entries
      ensures r.Ok? ==> r.value == FixedNumbersOf(entries[key], t, n)
      ensures r.Err? ==> r.message == NotFound(key)
    {
      var v :- GetEntry(key);
      match v {
        case LongArray(ls) =>
          var xs := VectorToArray(ls, n, (l: int) => Cast(IntNumber(l), t), Zero(t));
          r := Ok(xs);
        case DoubleArray(ds) =>
          var xs := VectorToArray(ds, n, (d: real) => Cast(RealNumber(d), t), Zero(t));
          r := Ok(xs);
        case _ =>
          r := Ok(seq(n, _ => Zero(t)));
      }
    }

    /** `getStringArray<N>`: the first `n` strings, padded with empty strings. */
    method GetFixedStringArray(key: string, n: nat) returns (r: Result<seq<string>>)
      ensures r.Ok? <==> GetStringArray(key).Ok?
      ensures r.Err? ==> r.message == GetStringArray(key).message
      ensures r.Ok? ==> (|r.value| == n &&
                         forall i | 0 <= i < n ::
                           r.value[i] == if i < |GetStringArray(key).value| then GetStringArray(key).value[i] else "")
    {
      var ss :- GetStringArray(key);
      var arr := VectorToArray(ss, n, (x: string) => x, "");
      r := Ok(arr);
    }

    method SetBoolean(key: string, value: bool)
      modifies this
      ensures entries == old(entries)[key := BoolValue(value)]
      ensures GetBoolean(key) == Ok(value)
    {
      entries := entries[key := BoolValue(value)];
    }

    method SetString(key: string, value: string)
      modifies this
      ensures entries == old(entries)[key := StringValue(value)]
      ensures GetString(key) == Ok(value)
    {
      entries := entries[key := StringValue(value)];
    }

    method SetStringArray(key: string, value: seq<string>)
      modifies this
      ensures entries == old(entries)[key := StringArray(value)]
      ensures GetStringArray(key) == Ok(value)
    {
      entries := entries[key := StringArray(value)];
    }

    /** `setObject` stores a copy of `value` as it is at the call, even when `value` is this object. */
    method SetObject(key: string, value: Config)
      modifies this
      ensures entries == old(entries)[key := ObjectValue(old(value.Data()))]
      ensures GetObject(key) == Ok(old(value.Data()))
    {
      var copy := value.Data();
      entries := entries[key := ObjectValue(copy)];
    }

    method SetObjectArray(key: string, value: seq<ConfigData>)
      modifies this
      ensures entries == old(entries)[key := ObjectArray(value)]
      ensures GetObjectArray(key) == Ok(value)
    {
      entries := entries[key := ObjectArray(value)];
    }

    /** `setNumber<T>` for a value of type `t`. */
    method SetNumber(key: string, value: Number, t: NumericType)
      requires InDomain(value, t)
      modifies this
      ensures entries == old(entries)[key := StoredNumber(value, t)]
      ensures GetNumber(key, t) == Ok(value)
    {
      var stored := if IsFloating(t) then DoubleValue(Cast(value, Double).r) else LongValue(Cast(value, Long).i);
      entries := entries[key := stored];
      NumberRoundTrip(value, t);
    }

    /** `setNumberArray<T>` for values of type `t`. */
    method SetNumberArray(key: string, values: seq<Number>, t: NumericType)
      requires forall i | 0 <= i < |values| :: InDomain(values[i], t)
      modifies this
      ensures entries == old(entries)[key := StoredNumbers(values, t)]
      ensures NumbersOf(entries[key], t) == values
    {
      var stored: ConfigValue;
      if IsFloating(t) {
        var ds := CoerceVectorType(values, (x: Number) => Cast(x, Double).r, 0.0);
        stored := DoubleArray(ds);
      } else {
        var ls := CoerceVectorType(values, (x: Number) => Cast(x, Long).i, 0);
        stored := LongArray(ls);
      }
      assert stored == StoredNumbers(values, t);
      entries := entries[key := stored];
      NumberArrayRoundTrip(values, t);
    }

    /** `dump`, as the JSON tree it serialises; configs that satisfy `Dumpable` load back unchanged. */
    function Dump(): (r: Json)
      reads this
      ensures entries == map[] <==> r == JNull
      ensures Dumpable(Data()) ==> FromJson(r) == Ok(Data())
    {
      var j := ToJson(Data());
      assert Dumpable(Data()) ==> FromJson(j) == Ok(Data()) by {
        if Dumpable(Data()) {
          DumpRoundTrip(Data());
        }
      }
      j
    }

    /** `operator==`: walks this object's entries in key order and stops at the first mismatch. */
    method Equals(rhs: Config) returns (r: bool)
      ensures r == Equal(Data(), rhs.Data())
    {
      var x, y := Data(), rhs.Data();
      var keys := SortedKeys(x.entries.Keys);
      var i := 0;
      while i < |keys|
        invariant 0 <= i <= |keys|
        invariant forall n | 0 <= n < i :: keys[n] in y.entries && ValueMatchesAt(x, y, keys[n], false)
      {
        var k := keys[i];
        if k !in y.entries || !ValueMatchesAt(x, y, k, false) {
          return false;
        }
        i := i + 1;
      }
      return true;
    }

    /**
     * `ConfigMaker::fromJson`, building a fresh config through its setters,
     * one member at a time in key order.
     */
    static method Load(j: Json) returns (r: Result<Config>)
      ensures r.Ok? ==> fresh(r.value) && FromJson(j) == Ok(r.value.Data())
      ensures r.Err? ==> FromJson(j) == Err(r.message)
      decreases j, 1
    {
      if j.JObject? {
        FromJsonObject(j.members);
        r := LoadObject(j.members);
      } else {
        var other := FromJson(j);
        if other.Err? {
          return Err(other.message);
        }
        var empty := new Config();
        r := Ok(empty);
      }
    }

    /** The member loop of `ConfigMaker::fromJson` over an object. */
    static method LoadObject(m: map<string, Json>) returns (r: Result<Config>)
      ensures var keys := SortedKeys(m.Keys);
        r.Ok? ==> fresh(r.value) && ConvertMembers(m, keys, map[]) == Ok(r.value.Data())
      ensures var keys := SortedKeys(m.Keys);
        r.Err? ==> ConvertMembers(m, keys, map[]) == Err(r.message)
      decreases JObject(m), 0
    {
      var config := new Config();
      var keys := SortedKeys(m.Keys);
      var i := 0;
      while i < |keys|
        invariant 0 <= i <= |keys|
        invariant fresh(config)
        invariant ConvertMembers(m, keys, map[]) == ConvertMembers(m, keys[i..], config.entries)
      {
        var k := keys[i];
        assert keys[i..][1..] == keys[i + 1..];
        var err := SetFromJson(config, k, m[k]);
        if err.Some? {
          return Err(err.value);
        }
        i := i + 1;
      }
      return Ok(config);
    }

    /** The `switch` on one member's JSON type in `ConfigMaker::fromJson`. */
    static method SetFromJson(config: Config, k: string, v: Json) returns (err: Option<string>)
      modifies config
      ensures err.None? <==> ConvertMember(v).Ok?
      ensures err.None? ==> config.entries == old(config.entries)[k := ConvertMember(v).value]
      ensures err.Some? ==> ConvertMember(v) == Err(err.value)
      decreases v, 2
    {
      err := None;
      match v {
        case JBool(b) =>
          config.SetBoolean(k, b);
        case JInt(x) =>
          config.SetNumber(k, IntNumber(WrapSigned64(x)), Long);
        case JUnsigned(u) =>
          config.SetNumber(k, IntNumber(u % Two64), SizeT);
        case JFloat(f) =>
          config.SetNumber(k, RealNumber(f), Double);
        case JString(str) =>
          config.SetString(k, str);
        case JObject(_) =>
          var child := Load(v);
          if child.Err? {
            return Some(child.message);
          }
          config.SetObject(k, child.value);
        case JArray(items) =>
          if IsArrayOfObjects(v) {
            var children := LoadArray(items);
            if children.Err? {
              return Some(children.message);
            }
            config.SetObjectArray(k, children.value);
          } else {
            var value := ValueFromJsonArray(items);
            if value.Err? {
              return Some(value.message);
            }
            config.entries := config.entries[k := value.value];
          }
        case JNull =>
          return Some(UnsupportedJsonType);
      }
    }

    /** `ConfigMaker::createConfigArray`: each element loaded in order. */
    static method LoadArray(items: seq<Json>) returns (r: Result<seq<ConfigData>>)
      ensures r == CreateConfigArray(items, 0)
      decreases JArray(items), 0
    {
      var configs: seq<ConfigData> := [];
      var i := 0;
      while i < |items|
        invariant 0 <= i <= |items| && |configs| == i
        invariant forall n | 0 <= n < i :: FromJson(items[n]) == Ok(configs[n])
      {
        var c := Load(items[i]);
        if c.Err? {
          CreateArrayFirstError(items, 0, i);
          return Err(c.message);
        }
        configs := configs + [c.value.Data()];
        i := i + 1;
      }
      CreateArrayRoundTrip(items, configs, 0);
      assert configs[0..] == configs;
      return Ok(configs);
    }
  }

  lemma FromJsonObject(m: map<string, Json>)
    ensures FromJson(JObject(m)) == ConvertMembers(m, SortedKeys(m.Keys), map[])
  {
  }

  /** The first element that fails to load decides the error of `createConfigArray`. */
  lemma {:induction false} CreateArrayFirstError(items: seq<Json>, from: nat, i: nat)
    requires from <= i < |items|
    requires forall n | from <= n < i :: FromJson(items[n]).Ok?
    requires FromJson(items[i]).Err?
    ensures CreateConfigArray(items, from) == Err(FromJson(items[i]).message)
    decreases i - from
  {
    if from == i {
      CreateArrayHead(items, i);
    } else {
      CreateArrayFirstError(items, from + 1, i);
      CreateArrayStep(items, from, FromJson(items[i]).message);
    }
  }

  /** An element that loads passes on the error of the elements after it. */
  lemma CreateArrayStep(items: seq<Json>, j: nat, msg: string)
    requires j < |items| && FromJson(items[j]).Ok?
    requires CreateConfigArray(items, j + 1) == Err(msg)
    ensures CreateConfigArray(items, j) == Err(msg)
  {
    CreateArrayHead(items, j);
  }


  /** `createConfigArray` fails with the first element when that fails, and with the rest when only the rest fails. */
  lemma CreateArrayHead(items: seq<Json>, i: nat)
    requires i < |items|
    ensures FromJson(items[i]).Err? ==> CreateConfigArray(items, i) == Err(FromJson(items[i]).message)
    ensures FromJson(items[i]).Ok? && CreateConfigArray(items, i + 1).Err? ==>
      CreateConfigArray(items, i) == Err(CreateConfigArray(items, i + 1).message)
  {
  }
}
