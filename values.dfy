/**
 * Java values as they appear in TrackMate settings maps (`Map<String, Object>`),
 * the mutable containers the providers update in place (a settings map and a
 * JDOM element), and the small helpers shared by every module.
 */
module Values {

  datatype Option<+T> = None | Some(value: T)

  /** A computation that yields a value or an error message. */
  datatype Result<+T> = Ok(value: T) | Err(message: string)

  /** A Java `int`: 32 bits, two's complement. */
  newtype Int32 = x: int | -0x8000_0000 <= x < 0x8000_0000

  /**
   * A Java `double`, opaque to this model: no arithmetic is done on it.
   * It is identified by the text `Double.toString` prints for it.
   */
  datatype Double = Double(text: string)

  /**
   * An `Object` stored in a settings map. `NullV` is Java's `null`; a `MapV`
   * holds its entries in the map's iteration order together with the name of
   * its concrete class; `OtherV` is any other object, given by its class name
   * and the text its `toString` returns.
   */
  datatype Value =
    | NullV
    | BoolV(b: bool)
    | IntV(i: Int32)
    | DoubleV(d: Double)
    | StringV(s: string)
    | MapV(className: string, entries: seq<(Value, Value)>)
    | OtherV(className: string, text: string)

  /** The classes the validators ask `isInstance` of. */
  datatype JavaClass = BooleanClass | IntegerClass | DoubleClass | StringClass | MapClass

  /** `Class.getName()` of an expected class. */
  function ClassName(c: JavaClass): string
  {
    match c
    case BooleanClass => "java.lang.Boolean"
    case IntegerClass => "java.lang.Integer"
    case DoubleClass => "java.lang.Double"
    case StringClass => "java.lang.String"
    case MapClass => "java.util.Map"
  }

  /** `c.isInstance(v)`: never true of `null`. */
  predicate IsInstance(v: Value, c: JavaClass)
  {
    match c
    case BooleanClass => v.BoolV?
    case IntegerClass => v.IntV?
    case DoubleClass => v.DoubleV?
    case StringClass => v.StringV?
    case MapClass => v.MapV?
  }

  /** `v.getClass().getName()`; Java throws on `null`, for which the text "null" stands here. */
  function RuntimeClassName(v: Value): string
  {
    match v
    case NullV => "null"
    case BoolV(_) => "java.lang.Boolean"
    case IntV(_) => "java.lang.Integer"
    case DoubleV(_) => "java.lang.Double"
    case StringV(_) => "java.lang.String"
    case MapV(c, _) => c
    case OtherV(c, _) => c
  }

  /** Decimal text of a natural number, most significant digit first, no leading zero. */
  function NatToDecimal(n: nat): (r: string)
    ensures |r| > 0
    ensures forall i :: 0 <= i < |r| ==> '0' <= r[i] <= '9'
    ensures |r| > 1 ==> r[0] != '0'
  {
    if n < 10 then [DigitChar(n)] else NatToDecimal(n / 10) + [DigitChar(n % 10)]
  }

  function DigitChar(d: nat): (c: char)
    requires d < 10
    ensures '0' <= c <= '9'
  {
    ('0' as int + d) as char
  }

  /** `Integer.toString(i)`. */
  function IntToDecimal(i: Int32): (r: string)
    ensures |r| > 0
  {
    if i < 0 then "-" + NatToDecimal(-(i as int)) else NatToDecimal(i as int)
  }

  /**
   * `String.valueOf(v)`, that is `v.toString()` (and "null" for `null`).
   * A map prints as `{k1=v1, k2=v2}` in iteration order, as `AbstractMap` does.
   */
  function Show(v: Value): string
    decreases v, 1
  {
    match v
    case NullV => "null"
    case BoolV(b) => if b then "true" else "false"
    case IntV(i) => IntToDecimal(i)
    case DoubleV(d) => d.text
    case StringV(s) => s
    case MapV(_, es) => "{" + ShowEntries(v, 0) + "}"
    case OtherV(_, t) => t
  }

  function ShowEntries(m: Value, from: nat): string
    requires m.MapV? && from <= |m.entries|
    decreases m, 0, |m.entries| - from
  {
    if from == |m.entries| then ""
    else
      var e := m.entries[from];
      assert e in m.entries;
      (if from == 0 then "" else ", ") + Show(e.0) + "=" + Show(e.1) + ShowEntries(m, from + 1)
  }

  /** `map.get(k)`: an absent key and a key mapped to `null` both give `null`. */
  function Lookup(m: map<string, Value>, k: string): (v: Value)
    ensures k !in m ==> v == NullV
    ensures k in m ==> v == m[k]
  {
    if k in m then m[k] else NullV
  }

  /** The text a `StringBuilder` holds after the given pieces were appended in turn. */
  function Concat(pieces: seq<string>): (r: string)
    ensures pieces == [] ==> r == ""
  {
    if pieces == [] then "" else Concat(pieces[..|pieces| - 1]) + pieces[|pieces| - 1]
  }

  /** `order` lists every key of `keys` exactly once: one iteration order of a `keySet()`. */
  predicate Enumerates(order: seq<string>, keys: set<string>)
  {
    && (forall i, j :: 0 <= i < j < |order| ==> order[i] != order[j])
    && keys == (set k | k in order)
  }

  /** A `java.util.Map<String, Object>` that callers share and update in place. */
  class SettingsMap {
    var entries: map<string, Value>

    constructor (entries: map<string, Value>)
      ensures this.entries == entries
    {
      this.entries := entries;
    }

    /** `map.clear()`. */
    method Clear()
      modifies this
      ensures entries == map[]
    {
      entries := map[];
    }

    /** `map.put(k, v)`. */
    method Put(k: string, v: Value)
      modifies this
      ensures entries == old(entries)[k := v]
    {
      entries := entries[k := v];
    }
  }

  /** A JDOM `Element`, reduced to its attributes (name to text). */
  class Element {
    var attributes: map<string, string>

    constructor (attributes: map<string, string>)
      ensures this.attributes == attributes
    {
      this.attributes := attributes;
    }

    /** `element.setAttribute(name, text)`. */
    method SetAttribute(name: string, text: string)
      modifies this
      ensures attributes == old(attributes)[name := text]
    {
      attributes := attributes[name := text];
    }
  }
}
