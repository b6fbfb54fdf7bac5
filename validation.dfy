/**
 * The settings-map validators of `AbstractProvider` (`checkParameter`,
 * `checkMapKeys`, `checkFeatureMap`). Each returns whether the map passed and
 * the pieces it appends to the caller's `StringBuilder`, in order; the text the
 * builder then holds is `Concat` of those pieces. The tracker and the detector
 * factory call the same-named helpers of `TMUtils` and `LAPUtils`, which this
 * model takes to behave as these do.
 */
module Validation {
  import opened Values

  // ---------------------------------------------------------------------------
  // Messages, as the source spells them

  function NotFoundMessage(key: string): string
  {
    "Parameter " + key + " could not be found in settings map.\n"
  }

  function WrongClassMessage(key: string, expected: JavaClass, v: Value): string
  {
    "Value for parameter " + key + " is not of the right class. Expected " + ClassName(expected)
    + ", got " + RuntimeClassName(v) + ".\n"
  }

  function UnexpectedKeyMessage(key: string): string
  {
    "Map contains unexpected key: " + key + ".\n"
  }

  function MissingKeyMessage(key: string): string
  {
    "Mandatory key " + key + " was not found in the map.\n"
  }

  function NotAMapMessage(v: Value): string
  {
    "Feature penalty map is not of the right class. Expected a Map, got a " + RuntimeClassName(v) + ".\n"
  }

  function PenaltyKeyMessage(k: Value): string
  {
    "One key (" + Show(k) + ") in the map is not of the right class.\n"
    + "Expected String, got " + RuntimeClassName(k) + ".\n"
  }

  /** The source prints the offending value, not its key, after "for key". */
  function PenaltyValueMessage(v: Value): string
  {
    "The value for key " + Show(v) + " in the map is not of the right class.\n"
    + "Expected String, got " + RuntimeClassName(v) + ".\n"
  }

  /** A message `prefix + key + suffix` names exactly one key. */
  lemma {:induction false} FramedInjective(prefix: string, suffix: string, k1: string, k2: string)
    requires prefix + k1 + suffix == prefix + k2 + suffix
    ensures k1 == k2
  {
    var m := prefix + k1 + suffix;
    assert |k1| == |k2|;
    assert k1 == m[|prefix|..|prefix| + |k1|];
    assert k2 == (prefix + k2 + suffix)[|prefix|..|prefix| + |k2|];
  }

  // ---------------------------------------------------------------------------
  // checkParameter

  /** What `checkParameter` appends: nothing when the value is there and of the expected class. */
  function ParameterReport(m: map<string, Value>, key: string, expected: JavaClass): seq<string>
  {
    var v := Lookup(m, key);
    if v == NullV then [NotFoundMessage(key)]
    else if !IsInstance(v, expected) then [WrongClassMessage(key, expected, v)]
    else []
  }

  /** `checkParameter(map, key, expectedClass, errorHolder)`. */
  method CheckParameter(m: map<string, Value>, key: string, expected: JavaClass)
    returns (ok: bool, appended: seq<string>)
    ensures ok <==> key in m && IsInstance(m[key], expected)
    ensures ok ==> appended == []
    ensures !ok && (key !in m || m[key] == NullV) ==> appended == [NotFoundMessage(key)]
    ensures !ok && key in m && m[key] != NullV ==> appended == [WrongClassMessage(key, expected, m[key])]
    ensures appended == ParameterReport(m, key, expected)
  {
    var v := Lookup(m, key);
    if v == NullV {
      return false, [NotFoundMessage(key)];
    }
    if !IsInstance(v, expected) {
      return false, [WrongClassMessage(key, expected, v)];
    }
    return true, [];
  }

  // ---------------------------------------------------------------------------
  // checkMapKeys

  /** A `null` collection of keys counts as an empty one. */
  function KeysOf(c: Option<seq<string>>): seq<string>
  {
    if c.None? then [] else c.value
  }

  /** One message per key of `order` outside `allowed`, in iteration order. */
  function UnexpectedKeyReport(order: seq<string>, allowed: set<string>): seq<string>
  {
    if order == [] then []
    else
      var k := order[|order| - 1];
      UnexpectedKeyReport(order[..|order| - 1], allowed) + (if k in allowed then [] else [UnexpectedKeyMessage(k)])
  }

  /** One message per entry of the mandatory list that the map lacks, in list order. */
  function MissingKeyReport(mandatory: seq<string>, present: set<string>): seq<string>
  {
    if mandatory == [] then []
    else
      var k := mandatory[|mandatory| - 1];
      MissingKeyReport(mandatory[..|mandatory| - 1], present) + (if k in present then [] else [MissingKeyMessage(k)])
  }

  /** The keys `checkMapKeys` accepts: the mandatory ones and the optional ones. */
  function Allowed(mandatory: seq<string>, optional: seq<string>): set<string>
  {
    (set k | k in mandatory) + (set k | k in optional)
  }

  function MapKeysReport(m: map<string, Value>, order: seq<string>, mandatory: Option<seq<string>>,
                         optional: Option<seq<string>>): seq<string>
  {
    UnexpectedKeyReport(order, Allowed(KeysOf(mandatory), KeysOf(optional)))
    + MissingKeyReport(KeysOf(mandatory), m.Keys)
  }

  /** The condition `checkMapKeys` promises: mandatory keys present and no key outside mandatory and optional. */
  predicate KeysConform(keys: set<string>, mandatory: seq<string>, optional: seq<string>)
  {
    && (forall k :: k in keys ==> k in mandatory || k in optional)
    && (forall k :: k in mandatory ==> k in keys)
  }

  /**
   * `checkMapKeys(map, mandatoryKeys, optionalKeys, errorHolder)`, with the
   * map's `keySet()` visited in the iteration order `order`.
   */
  method CheckMapKeys(m: map<string, Value>, order: seq<string>,
                      mandatory: Option<seq<string>>, optional: Option<seq<string>>)
    returns (ok: bool, appended: seq<string>)
    requires Enumerates(order, m.Keys)
    ensures ok <==> KeysConform(m.Keys, KeysOf(mandatory), KeysOf(optional))
    ensures ok <==> appended == []
    ensures appended == MapKeysReport(m, order, mandatory, optional)
  {
    var mandatoryKeys := KeysOf(mandatory);
    var optionalKeys := KeysOf(optional);
    ghost var allowed := Allowed(mandatoryKeys, optionalKeys);
    ok := true;
    appended := [];
    var i := 0;
    while i < |order|
      invariant 0 <= i <= |order|
      invariant appended == UnexpectedKeyReport(order[..i], allowed)
      invariant ok <==> appended == []
    {
      var key := order[i];
      assert order[..i + 1] == order[..i] + [key];
      assert key in allowed <==> key in mandatoryKeys || key in optionalKeys;
      if !(key in mandatoryKeys || key in optionalKeys) {
        ok := false;
        appended := appended + [UnexpectedKeyMessage(key)];
      }
      i := i + 1;
    }
    assert order[..i] == order;
    ghost var unexpected := appended;
    var n := 0;
    while n < |mandatoryKeys|
      invariant 0 <= n <= |mandatoryKeys|
      invariant appended == unexpected + MissingKeyReport(mandatoryKeys[..n], m.Keys)
      invariant ok <==> appended == []
    {
      var key := mandatoryKeys[n];
      assert mandatoryKeys[..n + 1] == mandatoryKeys[..n] + [key];
      if key !in m {
        ok := false;
        appended := appended + [MissingKeyMessage(key)];
      }
      n := n + 1;
    }
    assert mandatoryKeys[..n] == mandatoryKeys;
    assert appended == UnexpectedKeyReport(order, allowed) + MissingKeyReport(mandatoryKeys, m.Keys);
    KeysConformIffNoReport(m.Keys, order, mandatoryKeys, optionalKeys);
  }

  /** The map's keys conform exactly when neither loop of `checkMapKeys` reports anything. */
  lemma KeysConformIffNoReport(keys: set<string>, order: seq<string>, mandatory: seq<string>, optional: seq<string>)
    requires Enumerates(order, keys)
    ensures KeysConform(keys, mandatory, optional)
            <==> UnexpectedKeyReport(order, Allowed(mandatory, optional)) == [] && MissingKeyReport(mandatory, keys) == []
  {
    var allowed := Allowed(mandatory, optional);
    UnexpectedKeyReportEmpty(order, allowed);
    MissingKeyReportEmpty(mandatory, keys);
  }

  lemma {:induction false} UnexpectedKeyReportEmpty(order: seq<string>, allowed: set<string>)
    ensures UnexpectedKeyReport(order, allowed) == [] <==> forall i :: 0 <= i < |order| ==> order[i] in allowed
  {
    if order != [] {
      UnexpectedKeyReportEmpty(order[..|order| - 1], allowed);
      assert forall i :: 0 <= i < |order| - 1 ==> order[..|order| - 1][i] == order[i];
    }
  }

  lemma {:induction false} MissingKeyReportEmpty(mandatory: seq<string>, present: set<string>)
    ensures MissingKeyReport(mandatory, present) == [] <==> forall i :: 0 <= i < |mandatory| ==> mandatory[i] in present
  {
    if mandatory != [] {
      MissingKeyReportEmpty(mandatory[..|mandatory| - 1], present);
      assert forall i :: 0 <= i < |mandatory| - 1 ==> mandatory[..|mandatory| - 1][i] == mandatory[i];
    }
  }

  /** Each unexpected key of the map, and no other key, gets its message. */
  lemma {:induction false} UnexpectedKeyReportNames(order: seq<string>, allowed: set<string>, k: string)
    ensures UnexpectedKeyMessage(k) in UnexpectedKeyReport(order, allowed) <==> k in order && k !in allowed
  {
    if order != [] {
      var last := order[|order| - 1];
      var front := order[..|order| - 1];
      UnexpectedKeyReportNames(front, allowed, k);
      assert order == front + [last];
      if UnexpectedKeyMessage(k) == UnexpectedKeyMessage(last) {
        FramedInjective("Map contains unexpected key: ", ".\n", k, last);
      }
    }
  }

  /** Each mandatory key the map lacks, and no other key, gets its message. */
  lemma {:induction false} MissingKeyReportNames(mandatory: seq<string>, present: set<string>, k: string)
    ensures MissingKeyMessage(k) in MissingKeyReport(mandatory, present) <==> k in mandatory && k !in present
  {
    if mandatory != [] {
      var last := mandatory[|mandatory| - 1];
      var front := mandatory[..|mandatory| - 1];
      MissingKeyReportNames(front, present, k);
      assert mandatory == front + [last];
      if MissingKeyMessage(k) == MissingKeyMessage(last) {
        FramedInjective("Mandatory key ", " was not found in the map.\n", k, last);
      }
    }
  }

  /** Exactly one message per unexpected key: the count is the number of keys outside `allowed`. */
  lemma {:induction false} UnexpectedKeyReportCount(order: seq<string>, allowed: set<string>)
    requires forall i, j :: 0 <= i < j < |order| ==> order[i] != order[j]
    ensures |UnexpectedKeyReport(order, allowed)| == |(set k | k in order) - allowed|
  {
    if order == [] {
      assert (set k | k in order) == {};
    } else {
      var last := order[|order| - 1];
      var front := order[..|order| - 1];
      UnexpectedKeyReportCount(front, allowed);
      assert order == front + [last];
      var before := (set k | k in front) - allowed;
      assert last !in front;
      if last in allowed {
        assert (set k | k in order) - allowed == before;
      } else {
        assert (set k | k in order) - allowed == before + {last};
        assert last !in before;
      }
    }
  }

  // ---------------------------------------------------------------------------
  // checkFeatureMap

  /** A feature-penalty entry passes when its key and its value are both Strings. */
  predicate PenaltyEntryOk(e: (Value, Value))
  {
    e.0.StringV? && e.1.StringV?
  }

  /** A penalty setting passes when it is absent (`null`) or a map whose every key and value is a String. */
  predicate PenaltySettingOk(v: Value)
  {
    v == NullV || (v.MapV? && forall i :: 0 <= i < |v.entries| ==> PenaltyEntryOk(v.entries[i]))
  }

  function PenaltyEntryReport(e: (Value, Value)): seq<string>
  {
    (if e.0.StringV? then [] else [PenaltyKeyMessage(e.0)])
    + (if e.1.StringV? then [] else [PenaltyValueMessage(e.1)])
  }

  function PenaltyEntriesReport(es: seq<(Value, Value)>): seq<string>
  {
    if es == [] then [] else PenaltyEntriesReport(es[..|es| - 1]) + PenaltyEntryReport(es[|es| - 1])
  }

  function FeatureMapReport(m: map<string, Value>, key: string): seq<string>
  {
    var v := Lookup(m, key);
    if v == NullV then []
    else if !v.MapV? then [NotAMapMessage(v)]
    else PenaltyEntriesReport(v.entries)
  }

  /**
   * `checkFeatureMap(map, featurePenaltiesKey, errorHolder)`, corrected so that
   * a `null` key or value inside the penalty map is reported as not being a
   * String (the source throws there; see `FeatureMapCheckAsWritten`).
   */
  method CheckFeatureMap(m: map<string, Value>, key: string) returns (ok: bool, appended: seq<string>)
    ensures ok <==> PenaltySettingOk(Lookup(m, key))
    ensures ok <==> appended == []
    ensures appended == FeatureMapReport(m, key)
  {
    var v := Lookup(m, key);
    if v == NullV {
      return true, [];
    }
    if !v.MapV? {
      return false, [NotAMapMessage(v)];
    }
    var es := v.entries;
    appended := [];
    var i := 0;
    while i < |es|
      invariant 0 <= i <= |es|
      invariant appended == PenaltyEntriesReport(es[..i])
    {
      assert es[..i + 1][..i] == es[..i];
      var (fpKey, fpVal) := es[i];
      if !fpKey.StringV? {
        appended := appended + [PenaltyKeyMessage(fpKey)];
      }
      if !fpVal.StringV? {
        appended := appended + [PenaltyValueMessage(fpVal)];
      }
      i := i + 1;
    }
    assert es[..i] == es;
    ok := appended == [];
    PenaltyEntriesReportEmpty(es);
  }

  /** How a call of the source's `checkFeatureMap` ends. */
  datatype CheckOutcome = Returned(ok: bool, appended: seq<string>) | ThrewNullPointer

  predicate HasNullEntry(es: seq<(Value, Value)>)
  {
    exists i :: 0 <= i < |es| && (es[i].0 == NullV || es[i].1 == NullV)
  }

  /**
   * `checkFeatureMap` as written: a `null` key or value inside the penalty map
   * fails its `instanceof String` test and is then dereferenced by
   * `toString()`, so the call throws `NullPointerException`.
   */
  function FeatureMapCheckAsWritten(m: map<string, Value>, key: string): (r: CheckOutcome)
    ensures r.ThrewNullPointer? ==> Lookup(m, key).MapV? && HasNullEntry(Lookup(m, key).entries)
  {
    var v := Lookup(m, key);
    if v == NullV then Returned(true, [])
    else if !v.MapV? then Returned(false, [NotAMapMessage(v)])
    else if HasNullEntry(v.entries) then ThrewNullPointer
    else Returned(PenaltyEntriesReport(v.entries) == [], PenaltyEntriesReport(v.entries))
  }

  lemma {:induction false} PenaltyEntriesReportEmpty(es: seq<(Value, Value)>)
    ensures PenaltyEntriesReport(es) == [] <==> forall i :: 0 <= i < |es| ==> PenaltyEntryOk(es[i])
  {
    if es != [] {
      PenaltyEntriesReportEmpty(es[..|es| - 1]);
      assert forall i :: 0 <= i < |es| - 1 ==> es[..|es| - 1][i] == es[i];
    }
  }

  /** Where the source does not throw, the corrected check gives the same verdict and the same messages. */
  lemma AsWrittenAgreesWithoutNulls(m: map<string, Value>, key: string)
    requires !(Lookup(m, key).MapV? && HasNullEntry(Lookup(m, key).entries))
    ensures FeatureMapCheckAsWritten(m, key)
            == Returned(PenaltySettingOk(Lookup(m, key)), FeatureMapReport(m, key))
  {
    var v := Lookup(m, key);
    if v.MapV? {
      PenaltyEntriesReportEmpty(v.entries);
    }
  }

  /** A penalty map holding a `null` weight: the source throws where the corrected check reports. */
  lemma NullPenaltyWeightThrows()
    ensures var m := map["GAP_CLOSING_FEATURE_PENALTIES" := MapV("java.util.HashMap", [(StringV("QUALITY"), NullV)])];
            && FeatureMapCheckAsWritten(m, "GAP_CLOSING_FEATURE_PENALTIES") == ThrewNullPointer
            && FeatureMapReport(m, "GAP_CLOSING_FEATURE_PENALTIES") == [PenaltyValueMessage(NullV)]
  {
    var es := [(StringV("QUALITY"), NullV)];
    assert es[0].1 == NullV;
    assert HasNullEntry(es);
    assert es[..0] == [];
  }
}
