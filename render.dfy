/** Rendering rules common to the four entity platforms: reading one sensor's
    record out of the coordinator's data, the `mdi:` icon rule and the
    `color` attribute. */
module Render {
  import opened Values

  /** `if not self.coordinator.data`: no data means None or an empty dict. */
  predicate HasData(data: Option<Snapshot>)
  {
    data.Some? && data.value != map[]
  }

  /** `self.coordinator.data.get(self.sensor_name, {})`. */
  function SensorData(data: Option<Snapshot>, name: string): Record
  {
    if data.Some? && name in data.value then data.value[name] else map[]
  }

  /** `sensor_data.get(key)`. */
  function Field(data: Option<Snapshot>, name: string, key: string): (v: Value)
    ensures data.Some? && name in data.value && key in data.value[name] ==> v == data.value[name][key]
    ensures data.None? || name !in data.value || key !in data.value[name] ==> v == VNone
  {
    Get(SensorData(data, name), key)
  }

  const ICON_PREFIX := "mdi:"

  /** `if icon and not icon.startswith("mdi:"): icon = f"mdi:{icon}"`. A falsy
      icon is returned as it is; a truthy icon that is not a string has no
      `startswith` and raises AttributeError. */
  function NormalizeIcon(icon: Value): (r: Outcome<Value>)
    ensures !Truthy(icon) ==> r == Ok(icon)
    ensures r.Raise? <==> Truthy(icon) && !icon.VStr?
    ensures r.Raise? ==> r.error == AttributeError
    ensures icon.VStr? && StartsWith(icon.s, ICON_PREFIX) ==> r == Ok(icon)
    ensures icon.VStr? && icon.s != "" && !StartsWith(icon.s, ICON_PREFIX) ==> r == Ok(VStr(ICON_PREFIX + icon.s))
    ensures r.Ok? && Truthy(r.value) ==> r.value.VStr? && StartsWith(r.value.s, ICON_PREFIX)
  {
    if !Truthy(icon) then Ok(icon)
    else
      match icon
      case VStr(s) => if StartsWith(s, ICON_PREFIX) then Ok(icon) else Ok(VStr(ICON_PREFIX + s))
      case _ => Raise(AttributeError)
  }

  /** Normalising an icon twice gives what normalising it once gives. */
  lemma NormalizeIconIdempotent(icon: Value)
    requires NormalizeIcon(icon).Ok?
    ensures NormalizeIcon(NormalizeIcon(icon).value) == NormalizeIcon(icon)
  {
    if icon.VStr? && icon.s != "" && !StartsWith(icon.s, ICON_PREFIX) {
      var t := ICON_PREFIX + icon.s;
      assert t[..|ICON_PREFIX|] == ICON_PREFIX;
    }
  }

  /** The `icon` property of every platform: None without data, otherwise the
      record's `icon` field normalised. */
  function Icon(data: Option<Snapshot>, name: string): (r: Outcome<Value>)
    ensures !HasData(data) ==> r == Ok(VNone)
    ensures HasData(data) ==> r == NormalizeIcon(Field(data, name, "icon"))
  {
    if !HasData(data) then Ok(VNone) else NormalizeIcon(Field(data, name, "icon"))
  }

  /** The attributes of the sensor, binary-sensor and number entities: `color`
      exactly when the record's colour is truthy, copied unchanged, and nothing
      else; `{}` without data. */
  function ColorAttributes(data: Option<Snapshot>, name: string): (attrs: map<string, Value>)
    ensures attrs.Keys <= {"color"}
    ensures "color" in attrs <==> HasData(data) && Truthy(Field(data, name, "color"))
    ensures "color" in attrs ==> attrs["color"] == data.value[name]["color"]
  {
    if !HasData(data) then map[]
    else
      var color := Field(data, name, "color");
      if Truthy(color) then map["color" := color] else map[]
  }

  /** Worked cases of the icon rule: a bare name gains the prefix, a
      prefixed one is kept, and falsy icons are returned as they are. */
  lemma IconExamples()
    ensures NormalizeIcon(VStr("home")) == Ok(VStr("mdi:home"))
    ensures NormalizeIcon(VStr("mdi:home")) == Ok(VStr("mdi:home"))
    ensures NormalizeIcon(VStr("")) == Ok(VStr(""))
    ensures NormalizeIcon(VNone) == Ok(VNone)
  {
    assert !StartsWith("home", ICON_PREFIX) by { assert "home"[..4][0] != ICON_PREFIX[0]; }
    assert ICON_PREFIX + "home" == "mdi:home";
    assert StartsWith("mdi:home", ICON_PREFIX) by { assert "mdi:home"[..4] == ICON_PREFIX; }
  }
}
