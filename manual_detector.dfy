/**
 * `ManualDetectorFactory`: the detector factory that skips automatic
 * detection. Its only setting is the radius of the spots the user will place
 * by hand; the factory checks that setting, stores it, and writes it to and
 * reads it from an XML element.
 */
module ManualDetection {
  import opened Values
  import opened Validation
  import opened Providers

  // `DetectorKeys` is not part of this model: its radius key and default
  // radius (`5d`, printed by `Double.toString` as "5.0") are written out here.
  const KEY_RADIUS := "RADIUS"
  const DEFAULT_RADIUS: Double := Double("5.0")

  const DETECTOR_KEY := "MANUAL_DETECTOR"
  const NAME := "Manual annotation"

  /** Valid settings: a `Double` radius and no other key. */
  predicate RadiusSettingsValid(m: map<string, Value>)
  {
    KEY_RADIUS in m && m[KEY_RADIUS].DoubleV? && m.Keys == {KEY_RADIUS}
  }

  /** Everything `checkSettings` appends: the radius check, then the key-set check. */
  function RadiusSettingsReport(m: map<string, Value>, order: seq<string>): seq<string>
  {
    ParameterReport(m, KEY_RADIUS, DoubleClass) + MapKeysReport(m, order, Some([KEY_RADIUS]), None)
  }

  /** With the radius as the only mandatory key and no optional one, the key check asks for exactly `{KEY_RADIUS}`. */
  lemma RadiusKeysConform(keys: set<string>)
    ensures KeysConform(keys, [KEY_RADIUS], []) <==> keys == {KEY_RADIUS}
  {
    if KeysConform(keys, [KEY_RADIUS], []) {
      assert KEY_RADIUS in [KEY_RADIUS];
      forall k | k in keys ensures k == KEY_RADIUS {
        assert k in [KEY_RADIUS] || k in [];
      }
    }
  }

  /**
   * What `unmarshall` leaves in the map it is given: the radius read from the
   * element (the map was cleared first), or why reading failed.
   */
  function UnmarshalledSettings(attributes: map<string, string>, parseDouble: string -> Option<Double>)
    : Result<map<string, Value>>
  {
    var radius := DoubleAttribute(attributes, KEY_RADIUS, parseDouble);
    if radius.Err? then Err(radius.message) else Ok(map[KEY_RADIUS := radius.value])
  }

  /** A successful read always yields settings that `checkSettings` accepts. */
  lemma UnmarshalledSettingsValid(attributes: map<string, string>, parseDouble: string -> Option<Double>)
    ensures UnmarshalledSettings(attributes, parseDouble).Ok? <==>
              KEY_RADIUS in attributes && parseDouble(attributes[KEY_RADIUS]).Some?
    ensures UnmarshalledSettings(attributes, parseDouble).Ok? ==>
              RadiusSettingsValid(UnmarshalledSettings(attributes, parseDouble).value)
  {
    var r := UnmarshalledSettings(attributes, parseDouble);
    if r.Ok? {
      assert r.value.Keys == {KEY_RADIUS};
    }
  }

  /**
   * Writing valid settings to an element with `marshall` and reading them back
   * with `unmarshall` gives the same settings, when parsing the text
   * `Double.toString` printed gives the same radius back.
   */
  lemma {:induction false} MarshallRoundTrip(m: map<string, Value>, attributes: map<string, string>,
                                             parseDouble: string -> Option<Double>)
    requires RadiusSettingsValid(m)
    requires parseDouble(m[KEY_RADIUS].d.text) == Some(m[KEY_RADIUS].d)
    ensures AttributeText(m, KEY_RADIUS, DoubleClass).Ok?
    ensures UnmarshalledSettings(attributes[KEY_RADIUS := AttributeText(m, KEY_RADIUS, DoubleClass).value], parseDouble)
            == Ok(m)
  {
    AttributeTextSucceeds(m, KEY_RADIUS, DoubleClass);
    DoubleAttributeRoundTrip(m, KEY_RADIUS, attributes, parseDouble);
    var back := map[KEY_RADIUS := m[KEY_RADIUS]];
    assert back.Keys == m.Keys;
    assert back == m by {
      forall k | k in m ensures back[k] == m[k] {
        assert k == KEY_RADIUS;
      }
    }
  }

  /** `getDefaultSettings()`: a fresh map holding the default radius alone. */
  function DefaultSettings(): (m: map<string, Value>)
    ensures RadiusSettingsValid(m)
    ensures m[KEY_RADIUS] == DoubleV(DEFAULT_RADIUS)
  {
    map[KEY_RADIUS := DoubleV(DEFAULT_RADIUS)]
  }

  /** The default settings pass `checkSettings` without a message, in the only order a one-key map has. */
  lemma DefaultSettingsPassChecks()
    ensures Enumerates([KEY_RADIUS], DefaultSettings().Keys)
    ensures RadiusSettingsReport(DefaultSettings(), [KEY_RADIUS]) == []
  {
    var m := DefaultSettings();
    assert (set k | k in [KEY_RADIUS]) == {KEY_RADIUS};
    assert UnexpectedKeyReport([KEY_RADIUS], Allowed([KEY_RADIUS], [])) == [] by {
      assert [KEY_RADIUS][..0] == [];
      assert KEY_RADIUS in Allowed([KEY_RADIUS], []);
    }
    assert MissingKeyReport([KEY_RADIUS], m.Keys) == [] by {
      assert [KEY_RADIUS][..0] == [];
    }
  }

  /**
   * One run of the detector `getDetector(interval, frame)` returns: the
   * spots it found, the results of `checkInput` and `process`, its error
   * message and its processing time.
   */
  datatype DetectorRun = DetectorRun(result: seq<nat>, inputOk: bool, processOk: bool,
                                     errorMessage: Option<string>, processingTime: int)

  /**
   * `getDetector(interval, frame)`: a detector that finds nothing, never
   * fails and takes no time, whatever frame it is given.
   */
  function GetDetector(frame: int): (run: DetectorRun)
    ensures |run.result| == 0 && run.inputOk && run.processOk
    ensures run.errorMessage.None? && run.processingTime == 0
  {
    DetectorRun([], true, true, None, 0)
  }

  /** `getKey()`, also the name the factory is registered under. */
  function GetKey(): (r: string)
    ensures r == DETECTOR_KEY && r != NAME
  {
    DETECTOR_KEY
  }

  // ---------------------------------------------------------------------------

  class ManualDetectorFactory {
    /** The message of the last failed check, read or write (`null` until one fails). */
    var errorMessage: Option<string>
    /** The settings given to `setTarget`, shared with the caller. */
    var settings: SettingsMap?

    constructor ()
      ensures errorMessage == None && settings == null
    {
      errorMessage := None;
      settings := null;
    }

    /** `getErrorMessage()`. */
    function GetErrorMessage(): (r: Option<string>)
      reads this
      ensures r == errorMessage
    {
      errorMessage
    }

    /**
     * `checkSettings(lSettings)`, with the map's keys visited in the iteration
     * order `order`. On success the previous error message stays.
     */
    method CheckSettings(lSettings: map<string, Value>, order: seq<string>) returns (ok: bool)
      requires Enumerates(order, lSettings.Keys)
      modifies this`errorMessage
      ensures ok <==> RadiusSettingsValid(lSettings)
      ensures ok ==> errorMessage == old(errorMessage)
      ensures !ok ==> errorMessage == Some(Concat(RadiusSettingsReport(lSettings, order)))
                      && RadiusSettingsReport(lSettings, order) != []
    {
      var radiusOk, radiusMessages := CheckParameter(lSettings, KEY_RADIUS, DoubleClass);
      var keysOk, keysMessages := CheckMapKeys(lSettings, order, Some([KEY_RADIUS]), None);
      RadiusKeysConform(lSettings.Keys);
      ok := radiusOk && keysOk;
      if !ok {
        errorMessage := Some(Concat(radiusMessages + keysMessages));
      }
    }

    /** `setTarget(img, settings)`: keeps the caller's map and reports whether it is valid. */
    method SetTarget(lSettings: SettingsMap, order: seq<string>) returns (ok: bool)
      requires Enumerates(order, lSettings.entries.Keys)
      modifies this`settings, this`errorMessage
      ensures settings == lSettings
      ensures ok <==> RadiusSettingsValid(lSettings.entries)
      ensures ok ==> errorMessage == old(errorMessage)
      ensures !ok ==> errorMessage == Some(Concat(RadiusSettingsReport(lSettings.entries, order)))
    {
      settings := lSettings;
      ok := CheckSettings(lSettings.entries, order);
    }

    /**
     * `marshall(lSettings, element)`: writes the radius attribute, or changes
     * nothing but the error message.
     */
    method Marshall(lSettings: map<string, Value>, element: Element) returns (ok: bool)
      modifies this`errorMessage, element
      ensures ok <==> KEY_RADIUS in lSettings && lSettings[KEY_RADIUS].DoubleV?
      ensures ok ==> element.attributes == old(element.attributes)[KEY_RADIUS := Show(lSettings[KEY_RADIUS])]
                     && errorMessage == old(errorMessage)
      ensures !ok ==> element.attributes == old(element.attributes)
                      && errorMessage == Some(AttributeText(lSettings, KEY_RADIUS, DoubleClass).message)
    {
      var written := AttributeText(lSettings, KEY_RADIUS, DoubleClass);
      if written.Err? {
        errorMessage := Some(written.message);
        return false;
      }
      element.SetAttribute(KEY_RADIUS, written.value);
      return true;
    }

    /**
     * `unmarshall(element, lSettings)`: clears the caller's map, reads the
     * radius into it and checks the result; a failed read sets the error
     * and skips the check.
     */
    method Unmarshall(element: Element, lSettings: SettingsMap, parseDouble: string -> Option<Double>)
      returns (ok: bool)
      modifies this`errorMessage, lSettings
      ensures ok <==> UnmarshalledSettings(element.attributes, parseDouble).Ok?
      ensures ok ==> lSettings.entries == UnmarshalledSettings(element.attributes, parseDouble).value
                     && errorMessage == old(errorMessage)
      ensures !ok ==> lSettings.entries == map[]
                      && errorMessage == Some(UnmarshalledSettings(element.attributes, parseDouble).message)
    {
      lSettings.Clear();
      if KEY_RADIUS !in element.attributes {
        errorMessage := Some(MissingAttributeMessage(KEY_RADIUS));
        return false;
      }
      var text := element.attributes[KEY_RADIUS];
      var parsed := parseDouble(text);
      if parsed.None? {
        errorMessage := Some(UnreadableDoubleMessage(KEY_RADIUS, text));
        return false;
      }
      lSettings.Put(KEY_RADIUS, DoubleV(parsed.value));
      assert (set k | k in [KEY_RADIUS]) == lSettings.entries.Keys;
      ok := CheckSettings(lSettings.entries, [KEY_RADIUS]);
    }
  }
}
