/** The sensor platform: the entities it creates, the value it reports, and
    the clean-up of registry entries whose sensor is no longer declared. */
module Sensor {
  import opened Values
  import opened Declarations
  import opened Config
  import opened Render

  const KIND := "sensor"

  /** The `native_value` property: the record's `state` exactly, and None
      when there is no data, the sensor is absent or it has no `state`. */
  function NativeValue(data: Option<Snapshot>, name: string): (v: Value)
    ensures !HasData(data) ==> v == VNone
    ensures HasData(data) && name !in data.value ==> v == VNone
    ensures HasData(data) && name in data.value && "state" !in data.value[name] ==> v == VNone
    ensures HasData(data) && name in data.value && "state" in data.value[name] ==> v == data.value[name]["state"]
  {
    if !HasData(data) then VNone else Field(data, name, "state")
  }

  /** The entities the setup loop creates while walking `ds`: unlike the
      other platforms, a sensor is handed its own declaration. */
  function SensorEntities(entryId: string, ds: seq<Decl>): seq<Entity>
    requires Named(ds)
  {
    if ds == [] then []
    else
      var last := ds[|ds| - 1];
      assert last in ds;
      SensorEntities(entryId, ds[..|ds| - 1])
        + (if KindOf(last) == KIND then [Entity(last[NAME], UniqueIdFor(entryId, last[NAME]), Some(last))] else [])
  }

  /** Exactly the declarations of kind "sensor" (the default) produce
      sensor entities, in order, each bound to itself. */
  lemma {:induction false} SensorEntitiesMatchDecls(entryId: string, ds: seq<Decl>)
    requires Named(ds)
    ensures Named(OfKind(ds, KIND))
    ensures |SensorEntities(entryId, ds)| == |OfKind(ds, KIND)|
    ensures forall i :: 0 <= i < |OfKind(ds, KIND)| ==>
              var d := OfKind(ds, KIND)[i];
              SensorEntities(entryId, ds)[i] == Entity(d[NAME], UniqueIdFor(entryId, d[NAME]), Some(d))
  {
    if ds != [] {
      var init := ds[..|ds| - 1];
      assert Named(init) by {
        forall d | d in init ensures NAME in d { assert d in ds; }
      }
      SensorEntitiesMatchDecls(entryId, init);
    }
  }

  /** `current_sensor_names`: the names of all declarations, whatever their
      kind. */
  function CurrentNames(decls: seq<Decl>): (names: set<string>)
    requires Named(decls)
    ensures forall d :: d in decls ==> d[NAME] in names
    ensures forall n :: n in names ==> exists d :: d in decls && d[NAME] == n
  {
    set d | d in decls :: d[NAME]
  }

  /** `s.split(c, 1)[1]`: what follows the first occurrence of `c`. */
  function AfterFirst(s: string, c: char): (r: string)
    requires c in s
    ensures |r| < |s|
    ensures s[|s| - |r| - 1] == c && c !in s[..|s| - |r| - 1]
    ensures r == s[|s| - |r|..]
  {
    if s[0] == c then s[1..]
    else
      assert c in s[1..] by {
        var k :| 0 <= k < |s| && s[k] == c;
        assert s[1..][k - 1] == c;
      }
      var r := AfterFirst(s[1..], c);
      assert s[..|s| - |r| - 1] == [s[0]] + s[1..][..|s| - 1 - |r| - 1];
      r
  }

  /** Splitting `a + [c] + b` at the first `c` gives `b` back when `a` has
      no `c`. */
  lemma {:induction false} AfterFirstConcat(a: string, c: char, b: string)
    requires c !in a
    ensures c in a + [c] + b
    ensures AfterFirst(a + [c] + b, c) == b
  {
    var s := a + [c] + b;
    assert s[|a|] == c;
    if a != [] {
      assert s[1..] == a[1..] + [c] + b;
      AfterFirstConcat(a[1..], c, b);
    }
  }

  /** Splitting a unique id built by `UniqueIdFor` at its first `_` gives the
      sensor name back, as long as the entry id has no `_` of its own. */
  lemma AfterFirstUniqueId(entryId: string, name: string)
    requires '_' !in entryId
    ensures '_' in UniqueIdFor(entryId, name)
    ensures AfterFirst(UniqueIdFor(entryId, name), '_') == name
  {
    AfterFirstConcat(entryId, '_', name);
    assert UniqueIdFor(entryId, name) == entryId + ['_'] + name;
  }

  /** One entry of the host's entity registry. */
  datatype RegistryEntry = RegistryEntry(configEntryId: Option<string>, domain: string, platform: string, uniqueId: string)

  /** The removal test of the clean-up loop: the entry belongs to this config
      entry, is a sensor of this integration, its unique id contains `_`, and
      the part after the first `_` is not a current name. */
  predicate Obsolete(e: RegistryEntry, entryId: string, names: set<string>)
  {
    && e.configEntryId == Some(entryId)
    && e.domain == "sensor"
    && e.platform == DOMAIN
    && e.uniqueId != ""
    && '_' in e.uniqueId
    && AfterFirst(e.uniqueId, '_') !in names
  }

  /** The registry ids the clean-up removes. */
  function ObsoleteIds(entities: map<string, RegistryEntry>, entryId: string, names: set<string>): set<string>
  {
    set id | id in entities && Obsolete(entities[id], entryId, names)
  }

  /** The first clean-up loop, which collects `entities_to_remove`. */
  method FindObsolete(entities: map<string, RegistryEntry>, entryId: string, names: set<string>)
    returns (toRemove: set<string>)
    ensures toRemove <= entities.Keys
    ensures forall id :: id in entities ==> (id in toRemove <==> Obsolete(entities[id], entryId, names))
  {
    toRemove := {};
    var pending := entities.Keys;
    while pending != {}
      invariant pending <= entities.Keys
      invariant toRemove <= entities.Keys - pending
      invariant forall id :: id in entities && id !in pending ==>
                  (id in toRemove <==> Obsolete(entities[id], entryId, names))
      decreases pending
    {
      var id :| id in pending;
      if Obsolete(entities[id], entryId, names) {
        toRemove := toRemove + {id};
      }
      pending := pending - {id};
    }
  }

  /** A live sensor is never removed: the registry entry of a declared
      sensor of this entry is not obsolete. */
  lemma LiveSensorKept(entryId: string, decls: seq<Decl>, d: Decl)
    requires Named(decls) && d in decls
    requires '_' !in entryId
    ensures !Obsolete(RegistryEntry(Some(entryId), "sensor", DOMAIN, UniqueIdFor(entryId, d[NAME])), entryId, CurrentNames(decls))
  {
    AfterFirstUniqueId(entryId, d[NAME]);
  }

  /** Conversely, the registry entry of a sensor whose name is no longer
      declared is removed. */
  lemma RemovedSensorIsObsolete(entryId: string, decls: seq<Decl>, name: string)
    requires Named(decls)
    requires '_' !in entryId
    requires forall d :: d in decls ==> d[NAME] != name
    ensures Obsolete(RegistryEntry(Some(entryId), "sensor", DOMAIN, UniqueIdFor(entryId, name)), entryId, CurrentNames(decls))
  {
    AfterFirstUniqueId(entryId, name);
    assert UniqueIdFor(entryId, name) != "";
  }

  /** The host's entity registry, reduced to its entries. */
  class EntityRegistry {
    var entities: map<string, RegistryEntry>

    constructor (entities: map<string, RegistryEntry>)
      ensures this.entities == entities
    {
      this.entities := entities;
    }

    /** `async_remove(entity_id)`. */
    method Remove(id: string)
      modifies this
      ensures entities == old(entities) - {id}
    {
      entities := entities - {id};
    }
  }

  /** The second clean-up loop, which removes each collected id. */
  method RemoveAll(registry: EntityRegistry, ids: set<string>)
    modifies registry
    ensures registry.entities == old(registry.entities) - ids
  {
    var pending := ids;
    while pending != {}
      invariant registry.entities == old(registry.entities) - (ids - pending)
      decreases pending
    {
      var id :| id in pending;
      registry.Remove(id);
      pending := pending - {id};
    }
  }

  /** `async_setup_entry`: the sensor entities, then the removal of every
      obsolete registry entry of this config entry, and of nothing else. */
  method SetupEntry(entryId: string, decls: seq<Decl>, registry: EntityRegistry) returns (es: seq<Entity>)
    requires Named(decls)
    modifies registry
    ensures es == SensorEntities(entryId, decls)
    ensures registry.entities == old(registry.entities) - ObsoleteIds(old(registry.entities), entryId, CurrentNames(decls))
  {
    es := [];
    var i := 0;
    while i < |decls|
      invariant 0 <= i <= |decls|
      invariant Named(decls[..i])
      invariant es == SensorEntities(entryId, decls[..i])
    {
      assert decls[..i + 1][..i] == decls[..i];
      assert decls[i] in decls;
      assert Named(decls[..i + 1]) by {
        forall d | d in decls[..i + 1] ensures NAME in d { assert d in decls; }
      }
      if KindOf(decls[i]) == KIND {
        es := es + [Entity(decls[i][NAME], UniqueIdFor(entryId, decls[i][NAME]), Some(decls[i]))];
      }
      i := i + 1;
    }
    assert decls[..i] == decls;
    var names := CurrentNames(decls);
    var toRemove := FindObsolete(registry.entities, entryId, names);
    assert toRemove == ObsoleteIds(registry.entities, entryId, names);
    RemoveAll(registry, toRemove);
  }
}
