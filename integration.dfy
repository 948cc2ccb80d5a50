/** Entry setup and unload: which platforms an entry needs, and the
    per-entry record the integration keeps under its domain in the host's
    shared data. */
module Integration {
  import opened Values
  import opened Declarations
  import opened Config

  /** The entity platforms the integration provides. */
  datatype Platform = SensorPlatform | BinarySensorPlatform | NumberPlatform | DeviceTrackerPlatform

  /** `PLATFORMS`, in declaration order. */
  const PLATFORMS: seq<Platform> := [SensorPlatform, BinarySensorPlatform, NumberPlatform, DeviceTrackerPlatform]

  /** The platform that serves a sensor kind; unknown kinds have none. */
  function PlatformForKind(kind: string): (p: Option<Platform>)
    ensures p == Some(SensorPlatform) <==> kind == "sensor"
    ensures p == Some(BinarySensorPlatform) <==> kind == "binary_sensor"
    ensures p == Some(NumberPlatform) <==> kind == "number"
    ensures p == Some(DeviceTrackerPlatform) <==> kind == "device_tracker"
  {
    if kind == "sensor" then Some(SensorPlatform)
    else if kind == "binary_sensor" then Some(BinarySensorPlatform)
    else if kind == "number" then Some(NumberPlatform)
    else if kind == "device_tracker" then Some(DeviceTrackerPlatform)
    else None
  }

  /** The platforms the declarations `ds` need, gathered in order. */
  function PlatformsOf(ds: seq<Decl>): set<Platform>
  {
    if ds == [] then {}
    else
      var kind := KindOf(ds[|ds| - 1]);
      PlatformsOf(ds[..|ds| - 1]) + (if PlatformForKind(kind).Some? then {PlatformForKind(kind).value} else {})
  }

  /** A platform is needed exactly when some declaration's kind (with
      "sensor" for a declaration without one) maps to it. */
  lemma {:induction false} PlatformsOfExactly(ds: seq<Decl>, p: Platform)
    ensures p in PlatformsOf(ds) <==> exists i :: 0 <= i < |ds| && PlatformForKind(KindOf(ds[i])) == Some(p)
  {
    if ds != [] {
      var init := ds[..|ds| - 1];
      PlatformsOfExactly(init, p);
      if p in PlatformsOf(init) {
        var i :| 0 <= i < |init| && PlatformForKind(KindOf(init[i])) == Some(p);
        assert ds[i] == init[i];
      }
      if exists i :: 0 <= i < |ds| && PlatformForKind(KindOf(ds[i])) == Some(p) {
        var i :| 0 <= i < |ds| && PlatformForKind(KindOf(ds[i])) == Some(p);
        if i < |init| {
          assert init[i] == ds[i];
        }
      }
    }
  }

  /** Unknown kinds are ignored: declarations of kinds no platform serves
      need no platform. */
  lemma UnknownKindsNeedNothing(ds: seq<Decl>)
    requires forall i :: 0 <= i < |ds| ==> PlatformForKind(KindOf(ds[i])).None?
    ensures PlatformsOf(ds) == {}
  {
    forall p | p in PlatformsOf(ds)
      ensures false
    {
      PlatformsOfExactly(ds, p);
    }
  }

  /** The needed platforms are always among `PLATFORMS`. This holds by
      construction, since `PLATFORMS` lists every value of `Platform`. */
  lemma PlatformsOfWithinPlatforms(ds: seq<Decl>)
    ensures forall p :: p in PlatformsOf(ds) ==> p in PLATFORMS
  {
    forall p | p in PlatformsOf(ds)
      ensures p in PLATFORMS
    {
      match p
      case SensorPlatform => assert PLATFORMS[0] == p;
      case BinarySensorPlatform => assert PLATFORMS[1] == p;
      case NumberPlatform => assert PLATFORMS[2] == p;
      case DeviceTrackerPlatform => assert PLATFORMS[3] == p;
    }
  }

  /** The `needed_platforms` loop. */
  method NeededPlatforms(data: ConfData) returns (needed: set<Platform>)
    ensures needed == PlatformsOf(SensorsOf(data))
  {
    var ds := SensorsOf(data);
    needed := {};
    var i := 0;
    while i < |ds|
      invariant 0 <= i <= |ds|
      invariant needed == PlatformsOf(ds[..i])
    {
      assert ds[..i + 1][..i] == ds[..i];
      var kind := KindOf(ds[i]);
      if kind == "sensor" {
        needed := needed + {SensorPlatform};
      } else if kind == "binary_sensor" {
        needed := needed + {BinarySensorPlatform};
      } else if kind == "number" {
        needed := needed + {NumberPlatform};
      } else if kind == "device_tracker" {
        needed := needed + {DeviceTrackerPlatform};
      }
      i := i + 1;
    }
    assert ds[..i] == ds;
  }

  /** The polling coordinator, reduced to the configuration it was built
      from and whether its HTTP session was closed. */
  class Coordinator {
    var config: ConfData
    var closed: bool

    constructor (config: ConfData)
      ensures this.config == config && !closed
    {
      this.config := config;
      closed := false;
    }

    /** `async_close`. */
    method Close()
      modifies this`closed
      ensures closed
    {
      closed := true;
    }
  }

  /** What `hass.data[DOMAIN][entry_id]` holds. */
  datatype EntryRecord = EntryRecord(coordinator: Coordinator, platforms: set<Platform>)

  /** The host's shared data, reduced to the per-domain entry maps. */
  class Hass {
    var data: map<string, map<string, EntryRecord>>

    constructor (data: map<string, map<string, EntryRecord>>)
      ensures this.data == data
    {
      this.data := data;
    }
  }

  /** `async_setup_entry`. The first refresh is the host's call and its
      outcome is `refreshOk`; on failure it raises ConfigEntryNotReady after
      the domain map was created. Otherwise the entry's record is stored,
      nothing else in the shared data changes, and the needed platforms are
      forwarded only when there are any. */
  method SetupEntry(hass: Hass, entryId: string, entryData: ConfData, entryOptions: ConfData, refreshOk: bool)
    returns (r: Outcome<bool>, coordinator: Coordinator, forwarded: Option<set<Platform>>)
    modifies hass
    ensures fresh(coordinator) && coordinator.config == Merge(entryData, entryOptions) && !coordinator.closed
    ensures DOMAIN in hass.data
    ensures forall d :: d in old(hass.data) && d != DOMAIN ==> d in hass.data && hass.data[d] == old(hass.data)[d]
    ensures hass.data.Keys == old(hass.data).Keys + {DOMAIN}
    ensures !refreshOk ==>
              && r == Raise(ConfigEntryNotReady) && forwarded == None
              && hass.data[DOMAIN] == (if DOMAIN in old(hass.data) then old(hass.data)[DOMAIN] else map[])
    ensures refreshOk ==>
              var needed := PlatformsOf(SensorsOf(Merge(entryData, entryOptions)));
              && r == Ok(true)
              && hass.data[DOMAIN] == (if DOMAIN in old(hass.data) then old(hass.data)[DOMAIN] else map[])
                                        [entryId := EntryRecord(coordinator, needed)]
              && forwarded == (if needed != {} then Some(needed) else None)
  {
    if DOMAIN !in hass.data {
      hass.data := hass.data[DOMAIN := map[]];
    }
    var data := Merge(entryData, entryOptions);
    coordinator := new Coordinator(data);
    if !refreshOk {
      return Raise(ConfigEntryNotReady), coordinator, None;
    }
    var needed := NeededPlatforms(data);
    hass.data := hass.data[DOMAIN := hass.data[DOMAIN][entryId := EntryRecord(coordinator, needed)]];
    if needed != {} {
      forwarded := Some(needed);
    } else {
      forwarded := None;
    }
    r := Ok(true);
  }

  /** `async_unload_entry`. An entry that was never stored raises KeyError.
      Otherwise its coordinator is closed first; unloading succeeds when no
      platforms were set up, or else when the host reports the platforms
      unloaded (`platformsUnloaded`); the entry is removed exactly when
      unloading succeeded, and nothing else changes. */
  method UnloadEntry(hass: Hass, entryId: string, platformsUnloaded: bool) returns (r: Outcome<bool>)
    modifies hass, if DOMAIN in hass.data && entryId in hass.data[DOMAIN] then {hass.data[DOMAIN][entryId].coordinator} else {}
    ensures !(DOMAIN in old(hass.data) && entryId in old(hass.data)[DOMAIN]) ==>
              r == Raise(KeyError) && hass.data == old(hass.data)
    ensures DOMAIN in old(hass.data) && entryId in old(hass.data)[DOMAIN] ==>
              var record := old(hass.data)[DOMAIN][entryId];
              var ok := record.platforms == {} || platformsUnloaded;
              && record.coordinator.closed
              && r == Ok(ok)
              && hass.data == if ok then old(hass.data)[DOMAIN := old(hass.data)[DOMAIN] - {entryId}] else old(hass.data)
  {
    if DOMAIN !in hass.data || entryId !in hass.data[DOMAIN] {
      return Raise(KeyError);
    }
    var record := hass.data[DOMAIN][entryId];
    record.coordinator.Close();
    var ok := if record.platforms != {} then platformsUnloaded else true;
    if ok {
      hass.data := hass.data[DOMAIN := hass.data[DOMAIN] - {entryId}];
    }
    r := Ok(ok);
  }

  /** Setting an entry up and then unloading it, with the first refresh
      succeeding and the platforms unloading cleanly, closes the entry's new
      coordinator and leaves the domain's entry map as setup found it, apart
      from a previous record of the same entry, which is gone. Other domains
      are untouched. */
  method SetupThenUnloadRestores(hass: Hass, entryId: string, entryData: ConfData, entryOptions: ConfData)
    returns (setup: Outcome<bool>, unload: Outcome<bool>, coordinator: Coordinator)
    modifies hass
    ensures setup == Ok(true) && unload == Ok(true)
    ensures fresh(coordinator) && coordinator.closed
    ensures DOMAIN in hass.data
    ensures hass.data[DOMAIN] == (if DOMAIN in old(hass.data) then old(hass.data)[DOMAIN] else map[]) - {entryId}
    ensures DOMAIN in old(hass.data) && entryId !in old(hass.data)[DOMAIN] ==> hass.data[DOMAIN] == old(hass.data)[DOMAIN]
    ensures hass.data.Keys == old(hass.data).Keys + {DOMAIN}
    ensures forall d :: d in old(hass.data) && d != DOMAIN ==> hass.data[d] == old(hass.data)[d]
  {
    var forwarded;
    setup, coordinator, forwarded := SetupEntry(hass, entryId, entryData, entryOptions, true);
    unload := UnloadEntry(hass, entryId, true);
  }
}
