/** Sensor declarations as the two configuration flows store them, the
    first-match search by name that the entity constructors and the options
    flow run over them, and the kind filter every platform applies. */
module Declarations {
  import opened Values

  /** A stored sensor declaration: a dictionary of string fields. */
  type Decl = map<string, string>

  // Dictionary keys of a declaration. The literal strings live in const.py,
  // which is not part of this model; only their being distinct matters.
  const NAME := "name"
  const TYPE := "sensor_type"
  const STATE := "state"
  const ICON := "icon"
  const COLOR := "color"
  const DEVICE_CLASS := "device_class"
  const UNIT := "unit_of_measurement"
  const LATITUDE := "latitude"
  const LONGITUDE := "longitude"
  const LOCATION_NAME := "location_name"
  const SOURCE_TYPE := "source_type"

  /** `config.get(CONF_SENSOR_TYPE, "sensor")`. */
  function KindOf(d: Decl): string
  {
    if TYPE in d then d[TYPE] else "sensor"
  }

  /** Every declaration carries a name (both flows always store one). */
  predicate Named(decls: seq<Decl>)
  {
    forall d :: d in decls ==> NAME in d
  }

  /** Outcome of scanning the declarations in order for a name: the first
      match, no match at all, or a declaration without a name reached first
      (where `config[CONF_SENSOR_NAME]` raises KeyError). */
  datatype Search = Found(index: nat) | NotFound | Nameless(index: nat)

  /** The scan from position `i` onwards. */
  function FindFrom(decls: seq<Decl>, name: string, i: nat): Search
    requires i <= |decls|
    decreases |decls| - i
  {
    if i == |decls| then NotFound
    else if NAME !in decls[i] then Nameless(i)
    else if decls[i][NAME] == name then Found(i)
    else FindFrom(decls, name, i + 1)
  }

  /** Where the scan stopped (|decls| when it ran off the end). */
  function StopIndex(r: Search, n: nat): nat
  {
    match r
    case Found(i) => i
    case Nameless(i) => i
    case NotFound => n
  }

  /** The scan is a first-match search: every declaration before the stop
      point is named and carries a different name, and the stop point is a
      match, a nameless declaration, or the end of the list. */
  lemma {:induction false} FindFromIsFirstMatch(decls: seq<Decl>, name: string, i: nat)
    requires i <= |decls|
    ensures var r := FindFrom(decls, name, i);
      && i <= StopIndex(r, |decls|) <= |decls|
      && (forall j :: i <= j < StopIndex(r, |decls|) ==> NAME in decls[j] && decls[j][NAME] != name)
      && (r.Found? ==> r.index < |decls| && NAME in decls[r.index] && decls[r.index][NAME] == name)
      && (r.Nameless? ==> r.index < |decls| && NAME !in decls[r.index])
    decreases |decls| - i
  {
    if i < |decls| && NAME in decls[i] && decls[i][NAME] != name {
      FindFromIsFirstMatch(decls, name, i + 1);
    }
  }

  /** With every declaration named, the scan never stops at a nameless one. */
  lemma {:induction false} FindFromNamed(decls: seq<Decl>, name: string, i: nat)
    requires i <= |decls|
    requires Named(decls)
    ensures !FindFrom(decls, name, i).Nameless?
    decreases |decls| - i
  {
    if i < |decls| {
      assert decls[i] in decls;
      FindFromNamed(decls, name, i + 1);
    }
  }

  /** The search loop `for config in ...: if config[NAME] == name: ... break`. */
  method FindByName(decls: seq<Decl>, name: string) returns (r: Search)
    ensures r == FindFrom(decls, name, 0)
  {
    var i := 0;
    while i < |decls|
      invariant 0 <= i <= |decls|
      invariant FindFrom(decls, name, 0) == FindFrom(decls, name, i)
    {
      if NAME !in decls[i] {
        return Nameless(i);
      }
      if decls[i][NAME] == name {
        return Found(i);
      }
      i := i + 1;
    }
    return NotFound;
  }

  /** What an entity constructor binds as `self.sensor_config`: the first
      declaration with that name, or None when there is none. */
  function BoundConfig(decls: seq<Decl>, name: string): (c: Option<Decl>)
    requires Named(decls)
    ensures c.Some? ==> c.value in decls && c.value[NAME] == name
    ensures c.None? ==> forall d :: d in decls ==> d[NAME] != name
    ensures forall j :: 0 <= j < |decls| && decls[j][NAME] == name ==>
              c.Some? && exists k :: 0 <= k <= j && decls[k] == c.value
  {
    FindFromIsFirstMatch(decls, name, 0);
    FindFromNamed(decls, name, 0);
    match FindFrom(decls, name, 0)
    case Found(i) => Some(decls[i])
    case _ => None
  }

  /** The constructor's search loop, run as a method. */
  method BindConfig(decls: seq<Decl>, name: string) returns (c: Option<Decl>)
    requires Named(decls)
    ensures c == BoundConfig(decls, name)
  {
    var r := FindByName(decls, name);
    FindFromIsFirstMatch(decls, name, 0);
    FindFromNamed(decls, name, 0);
    if r.Found? {
      c := Some(decls[r.index]);
    } else {
      c := None;
    }
  }

  /** The declarations of one kind, in declaration order. */
  function OfKind(decls: seq<Decl>, kind: string): (r: seq<Decl>)
    ensures forall d :: d in r ==> d in decls && KindOf(d) == kind
    ensures forall d :: d in decls && KindOf(d) == kind ==> d in r
    ensures |r| <= |decls|
  {
    if decls == [] then []
    else
      var last := decls[|decls| - 1];
      OfKind(decls[..|decls| - 1], kind) + (if KindOf(last) == kind then [last] else [])
  }

  /** Each declaration of the kind occurs in the filtered list as often as
      in `decls`, and no other declaration occurs. */
  lemma {:induction false} OfKindCounts(decls: seq<Decl>, kind: string, d: Decl)
    ensures multiset(OfKind(decls, kind))[d] == if KindOf(d) == kind then multiset(decls)[d] else 0
  {
    if decls != [] {
      var init := decls[..|decls| - 1];
      var last := decls[|decls| - 1];
      assert decls == init + [last];
      OfKindCounts(init, kind, d);
    }
  }

  /** Filtering keeps the order: filtering a concatenation concatenates the
      filtered parts. */
  lemma {:induction false} OfKindConcat(a: seq<Decl>, b: seq<Decl>, kind: string)
    ensures OfKind(a + b, kind) == OfKind(a, kind) + OfKind(b, kind)
    decreases |b|
  {
    if b == [] {
      assert a + b == a;
    } else {
      var init := b[..|b| - 1];
      var last := b[|b| - 1];
      assert (a + b)[..|a + b| - 1] == a + init;
      assert (a + b)[|a + b| - 1] == last;
      OfKindConcat(a, init, kind);
    }
  }

  /** An entity as its constructor sets it up: name, unique id and the bound
      declaration. */
  datatype Entity = Entity(name: string, uniqueId: string, config: Option<Decl>)

  /** `f"{entry.entry_id}_{sensor_name}"`. */
  function UniqueIdFor(entryId: string, name: string): (id: string)
    ensures |id| == |entryId| + 1 + |name|
    ensures id[..|entryId|] == entryId && id[|entryId|] == '_' && id[|entryId| + 1..] == name
  {
    entryId + "_" + name
  }

  /** The entity the binary-sensor, number and tracker constructors build for
      a name. */
  function LookupEntity(entryId: string, decls: seq<Decl>, name: string): Entity
    requires Named(decls)
  {
    Entity(name, UniqueIdFor(entryId, name), BoundConfig(decls, name))
  }

  /** The entities the binary-sensor, number and tracker setups create while
      walking `ds` (a prefix of `decls`): one per declaration of `kind`, each
      bound by a search over all of `decls`. */
  function EntitiesOfKind(entryId: string, decls: seq<Decl>, ds: seq<Decl>, kind: string): seq<Entity>
    requires Named(decls) && Named(ds)
  {
    if ds == [] then []
    else
      var last := ds[|ds| - 1];
      EntitiesOfKind(entryId, decls, ds[..|ds| - 1], kind)
        + (if KindOf(last) == kind then [LookupEntity(entryId, decls, last[NAME])] else [])
  }

  /** The entities are exactly those of the declarations of `kind`, in
      order, each named after its declaration. */
  lemma {:induction false} EntitiesOfKindMatchDecls(entryId: string, decls: seq<Decl>, ds: seq<Decl>, kind: string)
    requires Named(decls) && Named(ds)
    ensures Named(OfKind(ds, kind))
    ensures |EntitiesOfKind(entryId, decls, ds, kind)| == |OfKind(ds, kind)|
    ensures forall i :: 0 <= i < |OfKind(ds, kind)| ==>
              EntitiesOfKind(entryId, decls, ds, kind)[i] == LookupEntity(entryId, decls, OfKind(ds, kind)[i][NAME])
  {
    if ds != [] {
      var init := ds[..|ds| - 1];
      assert Named(init) by {
        forall d | d in init ensures NAME in d { assert d in ds; }
      }
      EntitiesOfKindMatchDecls(entryId, decls, init, kind);
    }
  }

  /** The setup loop shared by the binary-sensor, number and tracker
      platforms, proved against `EntitiesOfKind`. */
  method LookupEntities(entryId: string, decls: seq<Decl>, kind: string) returns (es: seq<Entity>)
    requires Named(decls)
    ensures es == EntitiesOfKind(entryId, decls, decls, kind)
  {
    es := [];
    var i := 0;
    while i < |decls|
      invariant 0 <= i <= |decls|
      invariant Named(decls[..i])
      invariant es == EntitiesOfKind(entryId, decls, decls[..i], kind)
    {
      assert decls[..i + 1][..i] == decls[..i];
      assert decls[i] in decls;
      assert Named(decls[..i + 1]) by {
        forall d | d in decls[..i + 1] ensures NAME in d { assert d in decls; }
      }
      if KindOf(decls[i]) == kind {
        var name := decls[i][NAME];
        var config := BindConfig(decls, name);
        es := es + [Entity(name, UniqueIdFor(entryId, name), config)];
      }
      i := i + 1;
    }
    assert decls[..i] == decls;
  }

  /** `self.sensor_config.get(key)` behind the `device_class` and
      `native_unit_of_measurement` properties: None when no declaration is
      bound, when the bound declaration is empty, or when it lacks the key. */
  function ConfigField(config: Option<Decl>, key: string): (r: Option<string>)
    ensures r.Some? <==> config.Some? && key in config.value
    ensures r.Some? ==> r.value == config.value[key]
  {
    if config.Some? && config.value != map[] && key in config.value then Some(config.value[key]) else None
  }
}
