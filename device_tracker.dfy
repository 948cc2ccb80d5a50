/** The device-tracker platform: position, location name, source type and
    attributes of a tracker, read from its record. */
module DeviceTracker {
  import opened Values
  import opened Declarations
  import opened Render

  const KIND := "device_tracker"

  /** Home Assistant's `SourceType` values a tracker can report. */
  datatype SourceType = GPS | Router | Bluetooth | BluetoothLE

  /** The string value of each source type. */
  function SourceTypeName(t: SourceType): string
  {
    match t
    case GPS => "gps"
    case Router => "router"
    case Bluetooth => "bluetooth"
    case BluetoothLE => "bluetooth_le"
  }

  /** The string-to-enum conversion: case-insensitive, and GPS for every
      string that names no other source type. */
  function ParseSourceType(s: string): (t: SourceType)
    ensures t == Router <==> Lower(s) == "router"
    ensures t == Bluetooth <==> Lower(s) == "bluetooth"
    ensures t == BluetoothLE <==> Lower(s) == "bluetooth_le"
    ensures t == GPS <==> Lower(s) != "router" && Lower(s) != "bluetooth" && Lower(s) != "bluetooth_le"
  {
    var l := Lower(s);
    if l == "router" then Router
    else if l == "bluetooth" then Bluetooth
    else if l == "bluetooth_le" then BluetoothLE
    else GPS
  }

  /** Parsing a source type's own name gives it back. */
  lemma {:induction false} ParseSourceTypeName(t: SourceType)
    ensures ParseSourceType(SourceTypeName(t)) == t
  {
    var n := SourceTypeName(t);
    assert forall i :: 0 <= i < |n| ==> 'a' <= n[i] <= 'z' || n[i] == '_';
    LowerOfLowerCase(n);
  }

  /** The conversion ignores case. */
  lemma {:induction false} ParseSourceTypeIgnoresCase(s: string)
    ensures ParseSourceType(Lower(s)) == ParseSourceType(s)
  {
    LowerIdempotent(s);
  }

  /** The `source_type` property. GPS without data or when the record has no
      `source_type` key; a string is converted; any other value, including
      an explicit None, has no `lower()` and raises AttributeError. */
  function SourceTypeOf(data: Option<Snapshot>, name: string): (r: Outcome<SourceType>)
    ensures !HasData(data) ==> r == Ok(GPS)
    ensures HasData(data) && "source_type" !in SensorData(data, name) ==> r == Ok(GPS)
    ensures HasData(data) && "source_type" in SensorData(data, name) ==>
              var v := SensorData(data, name)["source_type"];
              r == if v.VStr? then Ok(ParseSourceType(v.s)) else Raise(AttributeError)
  {
    if !HasData(data) then Ok(GPS)
    else
      var rec := SensorData(data, name);
      var source := if "source_type" in rec then rec["source_type"] else VStr("gps");
      match source
      case VStr(s) => Ok(ParseSourceType(s))
      case _ => Raise(AttributeError)
  }

  /** Decimal digits of a natural number, as `str()` writes them. */
  function NatToDecimal(n: nat): (r: string)
    ensures |r| >= 1
    ensures forall i :: 0 <= i < |r| ==> '0' <= r[i] <= '9'
    ensures n > 0 ==> r[0] != '0'
  {
    if n < 10 then ["0123456789"[n]]
    else NatToDecimal(n / 10) + ["0123456789"[n % 10]]
  }

  /** The number a string of decimal digits denotes (non-digits count as 0). */
  function DecimalValue(s: string): nat
  {
    if s == [] then 0
    else
      var c := s[|s| - 1];
      DecimalValue(s[..|s| - 1]) * 10 + (if '0' <= c <= '9' then c as int - '0' as int else 0)
  }

  /** The digits `NatToDecimal` writes denote the number it was given. */
  lemma {:induction false} NatToDecimalValue(n: nat)
    ensures DecimalValue(NatToDecimal(n)) == n
  {
    var digits := "0123456789";
    assert forall k :: 0 <= k < 10 ==> digits[k] as int - '0' as int == k;
    if n >= 10 {
      var s := NatToDecimal(n);
      assert s[..|s| - 1] == NatToDecimal(n / 10);
      NatToDecimalValue(n / 10);
    }
  }

  /** Python's `str(v)` for a non-None value. `floatStr` is `str()` of a
      float (its shortest-repr algorithm is not part of this model). */
  function PyStr(v: Value, floatStr: real -> string): string
  {
    match v
    case VNone => "None"
    case VBool(b) => if b then "True" else "False"
    case VInt(i) => if i < 0 then "-" + NatToDecimal(-i) else NatToDecimal(i)
    case VFloat(f) => floatStr(f)
    case VStr(s) => s
    case VOther(text, _) => text
  }

  /** The value `location_name` reports: the record's `location_name` if it
      is truthy, else its `state`. */
  function LocationSource(rec: Record): Value
  {
    var location := Get(rec, "location_name");
    if Truthy(location) then location else Get(rec, "state")
  }

  /** The `location_name` property: None without data or when the chosen
      value is None, otherwise that value as a string. */
  function LocationName(data: Option<Snapshot>, name: string, floatStr: real -> string): (r: Option<string>)
    ensures r.None? <==> !HasData(data) || LocationSource(SensorData(data, name)) == VNone
    ensures HasData(data) && Truthy(Field(data, name, "location_name")) ==>
              r == Some(PyStr(Field(data, name, "location_name"), floatStr))
    ensures HasData(data) && !Truthy(Field(data, name, "location_name")) && Field(data, name, "state") != VNone ==>
              r == Some(PyStr(Field(data, name, "state"), floatStr))
    ensures HasData(data) && Truthy(Field(data, name, "location_name")) && Field(data, name, "location_name").VStr? ==>
              r == Some(Field(data, name, "location_name").s)
    ensures HasData(data) && !Truthy(Field(data, name, "location_name")) && Field(data, name, "state").VStr? ==>
              r == Some(Field(data, name, "state").s)
  {
    if !HasData(data) then None
    else
      var chosen := LocationSource(SensorData(data, name));
      if chosen == VNone then None else Some(PyStr(chosen, floatStr))
  }

  /** An empty location name falls back to the state. */
  lemma EmptyLocationFallsBackToState(data: Option<Snapshot>, name: string, floatStr: real -> string)
    requires HasData(data)
    requires Field(data, name, "location_name") == VStr("")
    ensures LocationName(data, name, floatStr) ==
            (if Field(data, name, "state") == VNone then None else Some(PyStr(Field(data, name, "state"), floatStr)))
  {
  }

  /** A state that is not a string is reported through `str()`: an integer
      state of 21 reads "21", and a falsy location name falls back to the
      state -7, read "-7". */
  lemma {:induction false} NumericLocationIsDecimal(floatStr: real -> string)
    ensures LocationName(Some(map["t" := map["state" := VInt(21)]]), "t", floatStr) == Some("21")
    ensures LocationName(Some(map["t" := map["location_name" := VInt(0), "state" := VInt(-7)]]), "t", floatStr) == Some("-7")
    ensures LocationName(Some(map["t" := map["state" := VBool(true)]]), "t", floatStr) == Some("True")
  {
    var one: Snapshot := map["t" := map["state" := VInt(21)]];
    assert NatToDecimal(21) == NatToDecimal(2) + ["0123456789"[1]] == "21";
    assert LocationSource(SensorData(Some(one), "t")) == VInt(21);
    assert PyStr(VInt(21), floatStr) == "21";
    var two: Snapshot := map["t" := map["location_name" := VInt(0), "state" := VInt(-7)]];
    assert LocationSource(SensorData(Some(two), "t")) == VInt(-7);
    assert PyStr(VInt(-7), floatStr) == "-" + NatToDecimal(7) == "-7";
  }

  /** The `latitude` and `longitude` properties: None without data or
      without the coordinate, otherwise `float()` of it, None where that
      conversion fails. */
  function Coordinate(data: Option<Snapshot>, name: string, key: string, toFloat: Value -> Option<real>): (r: Option<real>)
    ensures !HasData(data) || Field(data, name, key) == VNone ==> r == None
    ensures HasData(data) && Field(data, name, key) != VNone ==> r == toFloat(Field(data, name, key))
  {
    if !HasData(data) then None
    else
      var v := Field(data, name, key);
      if v == VNone then None else toFloat(v)
  }

  /** The `latitude` property. */
  function Latitude(data: Option<Snapshot>, name: string, toFloat: Value -> Option<real>): Option<real>
  {
    Coordinate(data, name, "latitude", toFloat)
  }

  /** The `longitude` property. */
  function Longitude(data: Option<Snapshot>, name: string, toFloat: Value -> Option<real>): Option<real>
  {
    Coordinate(data, name, "longitude", toFloat)
  }

  /** The `extra_state_attributes` property: `color` only when truthy,
      `raw_latitude` and `raw_longitude` only when not None, each copied
      unchanged from the record, and no other key; `{}` without data. */
  function Attributes(data: Option<Snapshot>, name: string): (attrs: map<string, Value>)
    ensures attrs.Keys <= {"color", "raw_latitude", "raw_longitude"}
    ensures !HasData(data) ==> attrs == map[]
    ensures "color" in attrs <==> HasData(data) && Truthy(Field(data, name, "color"))
    ensures "raw_latitude" in attrs <==> HasData(data) && Field(data, name, "latitude") != VNone
    ensures "raw_longitude" in attrs <==> HasData(data) && Field(data, name, "longitude") != VNone
    ensures "color" in attrs ==> attrs["color"] == data.value[name]["color"]
    ensures "raw_latitude" in attrs ==> attrs["raw_latitude"] == data.value[name]["latitude"]
    ensures "raw_longitude" in attrs ==> attrs["raw_longitude"] == data.value[name]["longitude"]
  {
    if !HasData(data) then map[]
    else
      var rec := SensorData(data, name);
      var withColor := if Truthy(Get(rec, "color")) then map["color" := rec["color"]] else map[];
      var withLat := if Get(rec, "latitude") != VNone then withColor["raw_latitude" := rec["latitude"]] else withColor;
      if Get(rec, "longitude") != VNone then withLat["raw_longitude" := rec["longitude"]] else withLat
  }

  /** Without data a tracker has no icon, no location name and no
      attributes, and reports GPS. */
  lemma NoDataTracker(name: string, floatStr: real -> string)
    ensures Icon(None, name) == Ok(VNone)
    ensures LocationName(None, name, floatStr) == None
    ensures Attributes(None, name) == map[]
    ensures SourceTypeOf(None, name) == Ok(GPS)
  {
  }

  /** `async_setup_entry`: one tracker per declaration of kind
      "device_tracker", with unique id `entry_id + "_" + name`, bound to the
      first declaration carrying its name. */
  method SetupEntry(entryId: string, decls: seq<Decl>) returns (es: seq<Entity>)
    requires Named(decls)
    ensures |es| == |OfKind(decls, KIND)|
    ensures forall i :: 0 <= i < |es| ==>
              NAME in OfKind(decls, KIND)[i] &&
              es[i] == LookupEntity(entryId, decls, OfKind(decls, KIND)[i][NAME])
  {
    es := LookupEntities(entryId, decls, KIND);
    EntitiesOfKindMatchDecls(entryId, decls, decls, KIND);
  }
}
