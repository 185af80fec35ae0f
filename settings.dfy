/**
 * The settings service (`commands/service_settings.go`): a store of
 * settings values backed by a table of defaults.  A value may be set only
 * for a key that has a default, and only to a value of the default's Go
 * type; a read falls back to the default.  Values are a tagged union of
 * the Go types that occur; JSON decoding is a parameter.
 */
module Settings {
  import opened Wrappers
  import opened MapOrder

  /** A settings value, tagged by its dynamic Go type. */
  datatype Value =
    | Null
    | Bool(b: bool)
    | Float(x: real)
    | Str(s: string)
    | Uint(n: nat)
    | StrList(strs: seq<string>)
    | List(items: seq<Value>)
    | Object(fields: map<string, Value>)

  /** The dynamic Go types of settings values; `NilType` is the type of a nil interface. */
  datatype GoType = NilType | BoolType | Float64Type | StringType | UintType | StringSliceType | InterfaceSliceType | MapType

  function TypeOf(v: Value): GoType
  {
    match v
    case Null => NilType
    case Bool(_) => BoolType
    case Float(_) => Float64Type
    case Str(_) => StringType
    case Uint(_) => UintType
    case StrList(_) => StringSliceType
    case List(_) => InterfaceSliceType
    case Object(_) => MapType
  }

  /** `reflect.Type.String()` of a non-nil type. */
  function TypeName(t: GoType): string
    requires t != NilType
  {
    match t
    case BoolType => "bool"
    case Float64Type => "float64"
    case StringType => "string"
    case UintType => "uint"
    case StringSliceType => "[]string"
    case InterfaceSliceType => "[]interface {}"
    case MapType => "map[string]interface {}"
  }

  /** Distinct types are reported under distinct names. */
  lemma TypeNameInjective(a: GoType, b: GoType)
    requires a != NilType && b != NilType
    ensures TypeName(a) == TypeName(b) <==> a == b
  {
  }

  /**
   * What `encoding/json` produces when it decodes into an `any`: nil,
   * bool, float64, string, `[]interface {}` and `map[string]interface {}`.
   */
  predicate IsDecodedJson(v: Value)
  {
    match v
    case Null => true
    case Bool(_) => true
    case Float(_) => true
    case Str(_) => true
    case List(items) => forall i :: 0 <= i < |items| ==> IsDecodedJson(items[i])
    case Object(fields) => forall k :: k in fields ==> IsDecodedJson(fields[k])
    case _ => false
  }

  datatype SettingsError =
    | KeyNotFound(key: string)
    | InvalidValue
    | TypeMismatch(expected: GoType, got: GoType)

  /**
   * The error of a set of `key` to the decoded value (None when the JSON
   * text does not decode), or None when the set goes through.
   */
  function SetRefusal(defaults: map<string, Value>, key: string, decoded: Option<Value>): (e: Option<SettingsError>)
    ensures e.None? <==> key in defaults && decoded.Some? && TypeOf(decoded.value) == TypeOf(defaults[key])
    ensures key !in defaults ==> e == Some(KeyNotFound(key))
    ensures key in defaults && decoded.None? ==> e == Some(InvalidValue)
  {
    if key !in defaults then Some(KeyNotFound(key))
    else if decoded.None? then Some(InvalidValue)
    else if TypeOf(decoded.value) != TypeOf(defaults[key]) then Some(TypeMismatch(TypeOf(defaults[key]), TypeOf(decoded.value)))
    else None
  }

  /**
   * A key whose default is a `uint` or a `[]string` can never be set:
   * no decoded JSON value has either type.
   */
  lemma UnsettableKinds(defaults: map<string, Value>, key: string, decoded: Option<Value>)
    requires key in defaults && (defaults[key].Uint? || defaults[key].StrList?)
    requires decoded.Some? ==> IsDecodedJson(decoded.value)
    ensures SetRefusal(defaults, key, decoded).Some?
  {
    if decoded.Some? {
      assert TypeOf(decoded.value) != UintType && TypeOf(decoded.value) != StringSliceType;
    }
  }

  /** A read: the stored value, else the default, else an error. */
  function Lookup(settings: map<string, Value>, defaults: map<string, Value>, key: string): (r: Result<Value, SettingsError>)
    ensures r.Err? <==> key !in settings && key !in defaults
    ensures r.Err? ==> r.error == KeyNotFound(key)
    ensures key in settings ==> r == Ok(settings[key])
    ensures key !in settings && key in defaults ==> r == Ok(defaults[key])
  {
    if key in settings then Ok(settings[key])
    else if key in defaults then Ok(defaults[key])
    else Err(KeyNotFound(key))
  }

  /** After a set of `key` to `v`, a read of `key` gives `v` and a read of any other key is unchanged. */
  lemma SetThenGet(settings: map<string, Value>, defaults: map<string, Value>, key: string, v: Value, other: string)
    requires other != key
    ensures Lookup(settings[key := v], defaults, key) == Ok(v)
    ensures Lookup(settings[key := v], defaults, other) == Lookup(settings, defaults, other)
  {
  }

  /** An entry of the settings listing: a key and the name of its default's type. */
  datatype Entry = Entry(key: string, typeName: string)

  /** The settings store and its defaults. */
  class SettingsStore {
    var settings: map<string, Value>
    var defaults: map<string, Value>

    constructor(defaults: map<string, Value>)
      ensures this.settings == map[] && this.defaults == defaults
    {
      this.settings := map[];
      this.defaults := defaults;
    }

    /**
     * `SettingsSetValue`: `decoded` is the request's JSON text decoded into
     * an `any` (None when it is not valid JSON).  The value is stored under
     * `key` only when the key has a default of the same type; otherwise
     * nothing changes.
     */
    method SetValue(key: string, decoded: Option<Value>) returns (err: Option<SettingsError>)
      modifies this
      ensures defaults == old(defaults)
      ensures err == SetRefusal(old(defaults), key, decoded)
      ensures err.None? ==> settings == old(settings)[key := decoded.value]
      ensures err.Some? ==> settings == old(settings)
    {
      if key !in defaults {
        return Some(KeyNotFound(key));
      }
      var expectedType := TypeOf(defaults[key]);
      if decoded.None? {
        return Some(InvalidValue);
      }
      var newValueType := TypeOf(decoded.value);
      if newValueType != expectedType {
        return Some(TypeMismatch(expectedType, newValueType));
      }
      settings := settings[key := decoded.value];
      return None;
    }

    /** `SettingsGetValue`, before the value is encoded back to JSON. */
    method GetValue(key: string) returns (r: Result<Value, SettingsError>)
      ensures r == Lookup(settings, defaults, key)
    {
      if key in settings {
        return Ok(settings[key]);
      }
      if key in defaults {
        return Ok(defaults[key]);
      }
      return Err(KeyNotFound(key));
    }

    /**
     * `SettingsEnumerate`: one entry per key of the defaults, in the order
     * `order` the defaults list their keys, with the name of the
     * default's type.  A nil default has no type name.
     */
    method Enumerate(order: seq<string>) returns (entries: seq<Entry>)
      requires Enumerates(order, defaults)
      requires forall k :: k in defaults ==> defaults[k] != Null
      ensures |entries| == |order| == |defaults|
      ensures forall i :: 0 <= i < |order| ==>
        order[i] in defaults && entries[i] == Entry(order[i], TypeName(TypeOf(defaults[order[i]])))
      ensures forall k :: k in defaults <==> exists i :: 0 <= i < |entries| && entries[i].key == k
    {
      entries := [];
      for i := 0 to |order|
        invariant |entries| == i
        invariant forall j :: 0 <= j < i ==>
          order[j] in defaults && entries[j] == Entry(order[j], TypeName(TypeOf(defaults[order[j]])))
      {
        var v := defaults[order[i]];
        entries := entries + [Entry(order[i], TypeName(TypeOf(v)))];
      }
      EnumeratesSize(order, defaults);
      forall k | k in defaults
        ensures exists i :: 0 <= i < |entries| && entries[i].key == k
      {
        var i :| 0 <= i < |order| && order[i] == k;
        assert entries[i].key == k;
      }
    }
  }
}
