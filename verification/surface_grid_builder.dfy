/**
 * The surface grid builder: one setter per way of sourcing each surface
 * attribute (fuel load, fuel depth, fuel moisture, FBFM, SAVR), and the
 * accumulating modification setter.
 */
module SurfaceGridBuilder {
  import opened Values
  import opened GridBuilders

  const FuelLoad := "fuelLoad"
  const FuelDepth := "fuelDepth"
  const FuelMoisture := "fuelMoisture"
  const Fbfm := "FBFM"
  const Savr := "SAVR"

  const DefaultLandfireVersion := "2022"
  const DefaultInterpolation := "nearest"

  /** The nullable fields of the by-size-class source, which keep an explicit `null`. */
  const SizeClassNullable: set<string> := {"oneHour", "tenHour", "hundredHour", "liveHerbaceous", "liveWoody", "groups"}

  /** A uniform source: a value and optional feature masks, absent masks dropped. */
  function Uniform(value: Json, masks: Option<seq<string>>): (j: Json)
    ensures j.Obj? && "source" in j.fields && j.fields["source"] == Str("uniform")
    ensures "value" in j.fields <==> value != Null
    ensures "value" in j.fields ==> j.fields["value"] == value
    ensures "featureMasks" in j.fields <==> masks.Some?
    ensures masks.Some? ==> j.fields["featureMasks"] == StrArr(masks.value)
    ensures j.fields.Keys <= {"source", "value", "featureMasks"}
  {
    Obj(DropNulls(map["source" := Str("uniform"), "value" := value, "featureMasks" := OptStrArr(masks)], {}))
  }

  /** A uniform-by-size-class source: the five size classes and groups keep `null` when unset; absent masks are dropped. */
  function BySizeClass(oneHour: Option<real>, tenHour: Option<real>, hundredHour: Option<real>,
                       liveHerbaceous: Option<real>, liveWoody: Option<real>,
                       groups: Option<seq<string>>, masks: Option<seq<string>>): (j: Json)
    ensures j.Obj? && SizeClassNullable + {"source"} <= j.fields.Keys
    ensures j.fields["source"] == Str("uniformBySizeClass")
    ensures j.fields["oneHour"] == OptNum(oneHour) && j.fields["tenHour"] == OptNum(tenHour)
    ensures j.fields["hundredHour"] == OptNum(hundredHour)
    ensures j.fields["liveHerbaceous"] == OptNum(liveHerbaceous) && j.fields["liveWoody"] == OptNum(liveWoody)
    ensures j.fields["groups"] == OptStrArr(groups)
    ensures "featureMasks" in j.fields <==> masks.Some?
  {
    Obj(DropNulls(map["source" := Str("uniformBySizeClass"), "oneHour" := OptNum(oneHour),
                      "tenHour" := OptNum(tenHour), "hundredHour" := OptNum(hundredHour),
                      "liveHerbaceous" := OptNum(liveHerbaceous), "liveWoody" := OptNum(liveWoody),
                      "groups" := OptStrArr(groups), "featureMasks" := OptStrArr(masks)], SizeClassNullable))
  }

  /** A LANDFIRE source: product, version and interpolation, plus `extra` members; unset optional lists are dropped. */
  function Landfire(product: string, version: string, interpolation: string, extra: map<string, Json>,
                    masks: Option<seq<string>>, removeNonBurnable: Option<seq<string>>): (j: Json)
    requires extra.Keys !! {"source", "product", "version", "interpolationMethod", "featureMasks", "removeNonBurnable"}
    ensures j.Obj? && {"source", "product", "version", "interpolationMethod"} <= j.fields.Keys
    ensures j.fields["source"] == Str("LANDFIRE") && j.fields["product"] == Str(product)
    ensures j.fields["version"] == Str(version) && j.fields["interpolationMethod"] == Str(interpolation)
    ensures "featureMasks" in j.fields <==> masks.Some?
    ensures "removeNonBurnable" in j.fields <==> removeNonBurnable.Some?
    ensures forall k :: k in extra ==> (k in j.fields <==> extra[k] != Null)
    ensures forall k :: k in extra && k in j.fields ==> j.fields[k] == extra[k]
  {
    var members := extra + map["source" := Str("LANDFIRE"), "product" := Str(product), "version" := Str(version),
                              "interpolationMethod" := Str(interpolation), "featureMasks" := OptStrArr(masks),
                              "removeNonBurnable" := OptStrArr(removeNonBurnable)];
    Obj(DropNulls(members, {}))
  }

  /** `with_uniform_fuel_load`. */
  function WithUniformFuelLoad(b: Builder, value: real, masks: Option<seq<string>>): (r: Builder)
    ensures Sets(b, r, "fuel_load", FuelLoad)
    ensures r.config["fuel_load"] == Uniform(Num(value), masks)
  {
    With(b, "fuel_load", Uniform(Num(value), masks), FuelLoad)
  }

  /** Without feature masks the fuel-load entry is exactly the source tag and the value. */
  lemma UniformFuelLoadWithoutMasks(b: Builder, value: real)
    ensures WithUniformFuelLoad(b, value, None).config["fuel_load"]
         == Obj(map["source" := Str("uniform"), "value" := Num(value)])
  {
    var j := Uniform(Num(value), None);
    assert j.fields.Keys == {"source", "value"};
  }

  /** `with_uniform_fuel_load_by_size_class`. */
  function WithUniformFuelLoadBySizeClass(b: Builder, oneHour: Option<real>, tenHour: Option<real>,
                                          hundredHour: Option<real>, liveHerbaceous: Option<real>,
                                          liveWoody: Option<real>, groups: Option<seq<string>>,
                                          masks: Option<seq<string>>): (r: Builder)
    ensures Sets(b, r, "fuel_load", FuelLoad)
    ensures r.config["fuel_load"] == BySizeClass(oneHour, tenHour, hundredHour, liveHerbaceous, liveWoody, groups, masks)
  {
    With(b, "fuel_load", BySizeClass(oneHour, tenHour, hundredHour, liveHerbaceous, liveWoody, groups, masks), FuelLoad)
  }

  /** The members the fuel-load LANDFIRE source adds: the two curing values and the groups. */
  function CuringMembers(curingLiveHerbaceous: real, curingLiveWoody: real, groups: Option<seq<string>>): (m: map<string, Json>)
    ensures m.Keys == {"curingLiveHerbaceous", "curingLiveWoody", "groups"}
    ensures m["curingLiveHerbaceous"] == Num(curingLiveHerbaceous) && m["curingLiveWoody"] == Num(curingLiveWoody)
    ensures m["groups"] == OptStrArr(groups)
  {
    map["curingLiveHerbaceous" := Num(curingLiveHerbaceous), "curingLiveWoody" := Num(curingLiveWoody),
        "groups" := OptStrArr(groups)]
  }

  /** `with_fuel_load_from_landfire`: the LANDFIRE source with curing values and groups. */
  function WithFuelLoadFromLandfire(b: Builder, product: string, version: string, interpolation: string,
                                    curingLiveHerbaceous: real, curingLiveWoody: real, groups: Option<seq<string>>,
                                    masks: Option<seq<string>>, removeNonBurnable: Option<seq<string>>): (r: Builder)
    ensures Sets(b, r, "fuel_load", FuelLoad)
    ensures r.config["fuel_load"] == Landfire(product, version, interpolation,
                                               CuringMembers(curingLiveHerbaceous, curingLiveWoody, groups),
                                               masks, removeNonBurnable)
  {
    With(b, "fuel_load", Landfire(product, version, interpolation,
                                  CuringMembers(curingLiveHerbaceous, curingLiveWoody, groups), masks, removeNonBurnable),
         FuelLoad)
  }

  /**
   * The fuel-load LANDFIRE entry always carries both curing values (0.0
   * unless given) and carries groups exactly when they were given.
   */
  lemma LandfireFuelLoadCarriesCuring(b: Builder, product: string, version: string, interpolation: string,
                                      curingLiveHerbaceous: real, curingLiveWoody: real, groups: Option<seq<string>>,
                                      masks: Option<seq<string>>, removeNonBurnable: Option<seq<string>>)
    ensures var e := WithFuelLoadFromLandfire(b, product, version, interpolation, curingLiveHerbaceous, curingLiveWoody,
                                              groups, masks, removeNonBurnable).config["fuel_load"];
            && e.Obj? && "curingLiveHerbaceous" in e.fields && "curingLiveWoody" in e.fields
            && e.fields["curingLiveHerbaceous"] == Num(curingLiveHerbaceous)
            && e.fields["curingLiveWoody"] == Num(curingLiveWoody)
            && ("groups" in e.fields <==> groups.Some?)
  {
    var m := CuringMembers(curingLiveHerbaceous, curingLiveWoody, groups);
    assert m["curingLiveHerbaceous"] != Null && m["curingLiveWoody"] != Null;
    assert m["groups"] != Null <==> groups.Some?;
  }

  /** `with_uniform_fuel_depth`. */
  function WithUniformFuelDepth(b: Builder, value: real, masks: Option<seq<string>>): (r: Builder)
    ensures Sets(b, r, "fuel_depth", FuelDepth)
    ensures r.config["fuel_depth"] == Uniform(Num(value), masks)
  {
    With(b, "fuel_depth", Uniform(Num(value), masks), FuelDepth)
  }

  /** `with_fuel_depth_from_landfire`. */
  function WithFuelDepthFromLandfire(b: Builder, product: string, version: string, interpolation: string,
                                     masks: Option<seq<string>>, removeNonBurnable: Option<seq<string>>): (r: Builder)
    ensures Sets(b, r, "fuel_depth", FuelDepth)
    ensures r.config["fuel_depth"] == Landfire(product, version, interpolation, map[], masks, removeNonBurnable)
  {
    With(b, "fuel_depth", Landfire(product, version, interpolation, map[], masks, removeNonBurnable), FuelDepth)
  }

  /** `with_uniform_fuel_moisture`. */
  function WithUniformFuelMoisture(b: Builder, value: real, masks: Option<seq<string>>): (r: Builder)
    ensures Sets(b, r, "fuel_moisture", FuelMoisture)
    ensures r.config["fuel_moisture"] == Uniform(Num(value), masks)
  {
    With(b, "fuel_moisture", Uniform(Num(value), masks), FuelMoisture)
  }

  /** `with_uniform_fuel_moisture_by_size_class`: here every size class is required. */
  function WithUniformFuelMoistureBySizeClass(b: Builder, oneHour: real, tenHour: real, hundredHour: real,
                                              liveHerbaceous: real, liveWoody: real, groups: Option<seq<string>>,
                                              masks: Option<seq<string>>): (r: Builder)
    ensures Sets(b, r, "fuel_moisture", FuelMoisture)
    ensures r.config["fuel_moisture"] == BySizeClass(Some(oneHour), Some(tenHour), Some(hundredHour),
                                                     Some(liveHerbaceous), Some(liveWoody), groups, masks)
  {
    With(b, "fuel_moisture", BySizeClass(Some(oneHour), Some(tenHour), Some(hundredHour),
                                         Some(liveHerbaceous), Some(liveWoody), groups, masks), FuelMoisture)
  }

  /** `with_uniform_fbfm`: the value is a fuel-model code. */
  function WithUniformFbfm(b: Builder, value: string, masks: Option<seq<string>>): (r: Builder)
    ensures Sets(b, r, "fbfm", Fbfm)
    ensures r.config["fbfm"] == Uniform(Str(value), masks)
  {
    With(b, "fbfm", Uniform(Str(value), masks), Fbfm)
  }

  /** `with_fbfm_from_landfire`. */
  function WithFbfmFromLandfire(b: Builder, product: string, version: string, interpolation: string,
                                masks: Option<seq<string>>, removeNonBurnable: Option<seq<string>>): (r: Builder)
    ensures Sets(b, r, "fbfm", Fbfm)
    ensures r.config["fbfm"] == Landfire(product, version, interpolation, map[], masks, removeNonBurnable)
  {
    With(b, "fbfm", Landfire(product, version, interpolation, map[], masks, removeNonBurnable), Fbfm)
  }

  /** `with_uniform_savr`. */
  function WithUniformSavr(b: Builder, value: real, masks: Option<seq<string>>): (r: Builder)
    ensures Sets(b, r, "savr", Savr)
    ensures r.config["savr"] == Uniform(Num(value), masks)
  {
    With(b, "savr", Uniform(Num(value), masks), Savr)
  }

  /** `with_savr_from_landfire`: the LANDFIRE source with groups. */
  function WithSavrFromLandfire(b: Builder, product: string, version: string, interpolation: string,
                                groups: Option<seq<string>>, masks: Option<seq<string>>,
                                removeNonBurnable: Option<seq<string>>): (r: Builder)
    ensures Sets(b, r, "savr", Savr)
    ensures r.config["savr"] == Landfire(product, version, interpolation, map["groups" := OptStrArr(groups)],
                                          masks, removeNonBurnable)
  {
    With(b, "savr", Landfire(product, version, interpolation, map["groups" := OptStrArr(groups)], masks, removeNonBurnable), Savr)
  }

  /** The modifications recorded so far. */
  function Modifications(b: Builder): seq<Json>
  {
    if "modifications" in b.config && b.config["modifications"].Arr? then b.config["modifications"].items else []
  }

  /** The actions argument as a list: a list as given, anything else wrapped. */
  function ActionList(actions: Json): (r: seq<Json>)
    ensures actions.Arr? ==> r == actions.items
    ensures !actions.Arr? ==> r == [actions]
  {
    if actions.Arr? then actions.items else [actions]
  }

  /** The conditions argument as a list: a falsy value gives none, a list is as given, anything else is wrapped. */
  function ConditionList(conditions: Json): (r: seq<Json>)
    ensures !Truthy(conditions) ==> r == []
    ensures Truthy(conditions) && conditions.Arr? ==> r == conditions.items
    ensures Truthy(conditions) && !conditions.Arr? ==> r == [conditions]
  {
    if !Truthy(conditions) then [] else if conditions.Arr? then conditions.items else [conditions]
  }

  /**
   * One modification entry: the actions and conditions, each as a list. A
   * list of actions is kept as given and a single action is wrapped; the
   * conditions are empty exactly when the argument is falsy.
   */
  function Modification(actions: Json, conditions: Json): (m: Json)
    ensures m.Obj? && m.fields.Keys == {"actions", "conditions"}
    ensures m.fields["actions"].Arr? && m.fields["conditions"].Arr?
    ensures actions.Arr? ==> m.fields["actions"] == actions
    ensures !actions.Arr? ==> m.fields["actions"].items == [actions]
    ensures m.fields["conditions"].items == [] <==> !Truthy(conditions)
    ensures Truthy(conditions) && conditions.Arr? ==> m.fields["conditions"] == conditions
  {
    Obj(map["actions" := Arr(ActionList(actions)), "conditions" := Arr(ConditionList(conditions))])
  }

  /** Building an entry again from an entry's own actions and conditions gives the same entry. */
  lemma ModificationIdempotent(actions: Json, conditions: Json)
    ensures var m := Modification(actions, conditions);
            Modification(m.fields["actions"], m.fields["conditions"]) == m
  {
  }

  /**
   * `with_modification`: appends one modification built from the actions
   * and conditions; no attribute is requested and no other entry changes.
   */
  function WithModification(b: Builder, actions: Json, conditions: Json): (r: Builder)
    ensures r.domainId == b.domainId && r.attributes == b.attributes
    ensures Modifications(r) == Modifications(b) + [Modification(actions, conditions)]
    ensures forall k :: k in b.config && k != "modifications" ==> k in r.config && r.config[k] == b.config[k]
    ensures r.config.Keys == b.config.Keys + {"modifications"}
  {
    Builder(b.domainId, b.attributes, b.config["modifications" := Arr(Modifications(b) + [Modification(actions, conditions)])])
  }

  /** Modifications accumulate in call order, unlike attribute sources, where the last setting wins. */
  lemma ModificationsAccumulate(b: Builder, a1: Json, c1: Json, a2: Json, c2: Json)
    ensures Modifications(WithModification(WithModification(b, a1, c1), a2, c2))
         == Modifications(b) + [Modification(a1, c1), Modification(a2, c2)]
  {
    assert Modifications(b) + [Modification(a1, c1)] + [Modification(a2, c2)]
        == Modifications(b) + [Modification(a1, c1), Modification(a2, c2)];
  }

  /** A missing condition and an empty condition list are treated alike. */
  lemma NoConditionsIsEmptyList(b: Builder, actions: Json)
    ensures WithModification(b, actions, Null) == WithModification(b, actions, Arr([]))
  {
  }

  /**
   * Setting the fuel load twice, uniform then from LANDFIRE, builds the
   * same request as setting it from LANDFIRE alone: the attribute is
   * requested once and the LANDFIRE source replaces the uniform one.
   */
  lemma ResettingFuelLoadBuildsOnce(domainId: string, value: real, product: string, groups: Option<seq<string>>)
    ensures Build(WithFuelLoadFromLandfire(WithUniformFuelLoad(New(domainId), value, None), product,
                                           DefaultLandfireVersion, DefaultInterpolation, 0.0, 0.0, groups, None, None))
         == Build(WithFuelLoadFromLandfire(New(domainId), product,
                                           DefaultLandfireVersion, DefaultInterpolation, 0.0, 0.0, groups, None, None))
  {
    var b := WithFuelLoadFromLandfire(WithUniformFuelLoad(New(domainId), value, None), product,
                                      DefaultLandfireVersion, DefaultInterpolation, 0.0, 0.0, groups, None, None);
    var direct := WithFuelLoadFromLandfire(New(domainId), product,
                                           DefaultLandfireVersion, DefaultInterpolation, 0.0, 0.0, groups, None, None);
    assert b.config == direct.config;
    assert b.attributes == [] + [FuelLoad] + [FuelLoad];
    assert direct.attributes == [] + [FuelLoad];
    RepeatIsAbsorbed([], FuelLoad);
  }
}
