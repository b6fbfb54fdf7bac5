/**
 * `AbstractProvider`: the selected-key state of a provider, and the guarded
 * transfers of a settings parameter to and from an XML element attribute.
 */
module Providers {
  import opened Values
  import opened Parsing

  // ---------------------------------------------------------------------------
  // Messages, as the source spells them (including its typo "Exoected")

  function UnknownKeyMessage(key: string): string
  {
    "Unknown key: " + key + ".\n"
  }

  function MissingParameterMessage(key: string): string
  {
    "Could not find parameter " + key + " in settings map.\n"
  }

  function WrongParameterClassMessage(key: string, expected: JavaClass, v: Value): string
  {
    "Exoected " + key + " parameter to be a " + ClassName(expected) + " but was a " + RuntimeClassName(v) + ".\n"
  }

  function MissingAttributeMessage(key: string): string
  {
    "Attribute " + key + " could not be found in XML element.\n"
  }

  function UnreadableDoubleMessage(key: string, text: string): string
  {
    "Could not read " + key + " attribute as a double value. Got " + text + ".\n"
  }

  function UnreadableIntegerMessage(key: string, text: string): string
  {
    "Could not read " + key + " attribute as an integer value. Got " + text + ".\n"
  }

  // ---------------------------------------------------------------------------
  // What a transfer produces: the text or value it stores, or the message it sets

  /** `writeAttribute`: the attribute text `"" + value`, or why nothing is written. */
  function AttributeText(settings: map<string, Value>, key: string, expected: JavaClass): Result<string>
  {
    var v := Lookup(settings, key);
    if v == NullV then Err(MissingParameterMessage(key))
    else if !IsInstance(v, expected) then Err(WrongParameterClassMessage(key, expected, v))
    else Ok(Show(v))
  }

  /** `readDoubleAttribute`: `Double.parseDouble` is the partial function `parseDouble`. */
  function DoubleAttribute(attributes: map<string, string>, key: string,
                           parseDouble: string -> Option<Double>): Result<Value>
  {
    if key !in attributes then Err(MissingAttributeMessage(key))
    else
      var parsed := parseDouble(attributes[key]);
      if parsed.None? then Err(UnreadableDoubleMessage(key, attributes[key]))
      else Ok(DoubleV(parsed.value))
  }

  /** `readIntegerAttribute`. */
  function IntegerAttribute(attributes: map<string, string>, key: string): Result<Value>
  {
    if key !in attributes then Err(MissingAttributeMessage(key))
    else
      var parsed := ParseInt(attributes[key]);
      if parsed.None? then Err(UnreadableIntegerMessage(key, attributes[key]))
      else Ok(IntV(parsed.value))
  }

  /**
   * `readBooleanAttribute`. `Boolean.parseBoolean` never throws, so the
   * source's `NumberFormatException` handler is never reached and has no
   * counterpart here.
   */
  function BooleanAttribute(attributes: map<string, string>, key: string): Result<Value>
  {
    if key !in attributes then Err(MissingAttributeMessage(key))
    else Ok(BoolV(ParseBoolean(attributes[key])))
  }

  /** `writeAttribute` succeeds exactly for a present, non-null value of the expected class. */
  lemma AttributeTextSucceeds(settings: map<string, Value>, key: string, expected: JavaClass)
    ensures AttributeText(settings, key, expected).Ok? <==> key in settings && IsInstance(settings[key], expected)
  {
  }

  /** An Integer written by `writeAttribute` is read back unchanged by `readIntegerAttribute`. */
  lemma IntegerAttributeRoundTrip(settings: map<string, Value>, key: string, attributes: map<string, string>)
    requires AttributeText(settings, key, IntegerClass).Ok?
    ensures IntegerAttribute(attributes[key := AttributeText(settings, key, IntegerClass).value], key)
            == Ok(settings[key])
  {
    ParseIntRoundTrip(settings[key].i);
  }

  /** A Boolean written by `writeAttribute` is read back unchanged by `readBooleanAttribute`. */
  lemma BooleanAttributeRoundTrip(settings: map<string, Value>, key: string, attributes: map<string, string>)
    requires AttributeText(settings, key, BooleanClass).Ok?
    ensures BooleanAttribute(attributes[key := AttributeText(settings, key, BooleanClass).value], key)
            == Ok(settings[key])
  {
    ParseBooleanRoundTrip(settings[key].b);
  }

  /**
   * A Double written by `writeAttribute` is read back unchanged by
   * `readDoubleAttribute`, given that parsing the text `Double.toString`
   * prints gives the same double back.
   */
  lemma DoubleAttributeRoundTrip(settings: map<string, Value>, key: string, attributes: map<string, string>,
                                 parseDouble: string -> Option<Double>)
    requires AttributeText(settings, key, DoubleClass).Ok?
    requires parseDouble(settings[key].d.text) == Some(settings[key].d)
    ensures DoubleAttribute(attributes[key := AttributeText(settings, key, DoubleClass).value], key, parseDouble)
            == Ok(settings[key])
  {
  }

  /** `readBooleanAttribute` fails only for a missing attribute. */
  lemma BooleanAttributeFailsOnlyWhenMissing(attributes: map<string, string>, key: string)
    ensures BooleanAttribute(attributes, key).Err? <==> key !in attributes
  {
  }

  // ---------------------------------------------------------------------------

  /** The state every provider shares: its keys, the selected key and the last error. */
  class AbstractProvider {
    /** The target keys, in the order the GUI presents them. */
    var keys: seq<string>
    /** The currently selected key (`null` until one is selected). */
    var currentKey: Option<string>
    /** The error message of the last unsuccessful call, or `null`. */
    var errorMessage: Option<string>
    var names: seq<string>
    var infoTexts: seq<string>

    /** The selected key, when there is one, is one of the provider's keys. */
    ghost predicate Valid()
      reads this
    {
      currentKey.Some? ==> currentKey.value in keys
    }

    constructor (keys: seq<string>, names: seq<string>, infoTexts: seq<string>)
      ensures Valid()
      ensures this.keys == keys && this.names == names && this.infoTexts == infoTexts
      ensures currentKey == None && errorMessage == None
    {
      this.keys := keys;
      this.names := names;
      this.infoTexts := infoTexts;
      currentKey := None;
      errorMessage := None;
    }

    /** `getCurrentKey()`. */
    function GetCurrentKey(): (r: Option<string>)
      reads this
      ensures r == currentKey
      ensures Valid() && r.Some? ==> r.value in keys
    {
      currentKey
    }

    /** `getErrorMessage()`. */
    function GetErrorMessage(): (r: Option<string>)
      reads this
      ensures r == errorMessage
    {
      errorMessage
    }

    /**
     * `select(key)`: a known key becomes the current one and clears the error;
     * an unknown key leaves the selection as it was and sets the error.
     */
    method Select(key: string) returns (found: bool)
      requires Valid()
      modifies this`currentKey, this`errorMessage
      ensures Valid()
      ensures found <==> key in keys
      ensures found ==> GetCurrentKey() == Some(key) && GetErrorMessage() == None
      ensures !found ==> (GetCurrentKey() == old(GetCurrentKey())
                          && GetErrorMessage() == Some(UnknownKeyMessage(key)))
    {
      if key in keys {
        currentKey := Some(key);
        errorMessage := None;
        return true;
      } else {
        errorMessage := Some(UnknownKeyMessage(key));
        return false;
      }
    }

    /**
     * `writeAttribute(settings, element, parameterKey, expectedClass)`: sets
     * exactly one attribute, or changes nothing but the error message.
     */
    method WriteAttribute(settings: map<string, Value>, element: Element, key: string, expected: JavaClass)
      returns (ok: bool)
      modifies this`errorMessage, element
      ensures ok <==> key in settings && IsInstance(settings[key], expected)
      ensures ok ==> element.attributes == old(element.attributes)[key := Show(settings[key])]
                     && errorMessage == old(errorMessage)
      ensures !ok ==> element.attributes == old(element.attributes)
                      && errorMessage == Some(AttributeText(settings, key, expected).message)
    {
      var obj := Lookup(settings, key);
      if obj == NullV {
        errorMessage := Some(MissingParameterMessage(key));
        return false;
      }
      if !IsInstance(obj, expected) {
        errorMessage := Some(WrongParameterClassMessage(key, expected, obj));
        return false;
      }
      element.SetAttribute(key, Show(obj));
      return true;
    }

    /**
     * `readDoubleAttribute(element, settings, parameterKey)`: stores exactly the
     * parameter's entry, or changes nothing but the error message.
     */
    method ReadDoubleAttribute(element: Element, settings: SettingsMap, key: string,
                               parseDouble: string -> Option<Double>)
      returns (ok: bool)
      modifies this`errorMessage, settings
      ensures ok <==> key in element.attributes && parseDouble(element.attributes[key]).Some?
      ensures ok ==> settings.entries == old(settings.entries)[key := DoubleAttribute(element.attributes, key, parseDouble).value]
                     && errorMessage == old(errorMessage)
      ensures !ok ==> settings.entries == old(settings.entries)
                      && errorMessage == Some(DoubleAttribute(element.attributes, key, parseDouble).message)
    {
      if key !in element.attributes {
        errorMessage := Some(MissingAttributeMessage(key));
        return false;
      }
      var str := element.attributes[key];
      var parsed := parseDouble(str);
      if parsed.None? {
        errorMessage := Some(UnreadableDoubleMessage(key, str));
        return false;
      }
      settings.Put(key, DoubleV(parsed.value));
      return true;
    }

    /** `readIntegerAttribute(element, settings, parameterKey)`. */
    method ReadIntegerAttribute(element: Element, settings: SettingsMap, key: string) returns (ok: bool)
      modifies this`errorMessage, settings
      ensures ok <==> key in element.attributes && ParseInt(element.attributes[key]).Some?
      ensures ok ==> settings.entries == old(settings.entries)[key := IntegerAttribute(element.attributes, key).value]
                     && errorMessage == old(errorMessage)
      ensures !ok ==> settings.entries == old(settings.entries)
                      && errorMessage == Some(IntegerAttribute(element.attributes, key).message)
    {
      if key !in element.attributes {
        errorMessage := Some(MissingAttributeMessage(key));
        return false;
      }
      var str := element.attributes[key];
      var parsed := ParseInt(str);
      if parsed.None? {
        errorMessage := Some(UnreadableIntegerMessage(key, str));
        return false;
      }
      settings.Put(key, IntV(parsed.value));
      return true;
    }

    /** `readBooleanAttribute(element, settings, parameterKey)`. */
    method ReadBooleanAttribute(element: Element, settings: SettingsMap, key: string) returns (ok: bool)
      modifies this`errorMessage, settings
      ensures ok <==> key in element.attributes
      ensures ok ==> settings.entries == old(settings.entries)[key := BoolV(ParseBoolean(element.attributes[key]))]
                     && errorMessage == old(errorMessage)
      ensures !ok ==> settings.entries == old(settings.entries)
                      && errorMessage == Some(MissingAttributeMessage(key))
    {
      if key !in element.attributes {
        errorMessage := Some(MissingAttributeMessage(key));
        return false;
      }
      var str := element.attributes[key];
      settings.Put(key, BoolV(ParseBoolean(str)));
      return true;
    }
  }
}
