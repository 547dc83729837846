/** The tree grid builder: bulk density, species code (SPCD) and fuel moisture. */
module TreeGridBuilder {
  import opened Values
  import opened GridBuilders

  /** The source that reads an attribute from the domain's tree inventory. */
  const FromInventory: Json := Obj(map["source" := Str("TreeInventory")])

  /** A uniform source. */
  function UniformValue(value: real): Json
  {
    Obj(map["source" := Str("uniform"), "value" := Num(value)])
  }

  /** `with_bulk_density_from_tree_inventory`. */
  function WithBulkDensityFromTreeInventory(b: Builder): (r: Builder)
    ensures Sets(b, r, "bulk_density", "bulkDensity") && r.config["bulk_density"] == FromInventory
  {
    With(b, "bulk_density", FromInventory, "bulkDensity")
  }

  /** `with_uniform_bulk_density`. */
  function WithUniformBulkDensity(b: Builder, value: real): (r: Builder)
    ensures Sets(b, r, "bulk_density", "bulkDensity") && r.config["bulk_density"] == UniformValue(value)
  {
    With(b, "bulk_density", UniformValue(value), "bulkDensity")
  }

  /** `with_spcd_from_tree_inventory`. */
  function WithSpcdFromTreeInventory(b: Builder): (r: Builder)
    ensures Sets(b, r, "spcd", "SPCD") && r.config["spcd"] == FromInventory
  {
    With(b, "spcd", FromInventory, "SPCD")
  }

  /** `with_uniform_fuel_moisture`. */
  function WithUniformFuelMoisture(b: Builder, value: real): (r: Builder)
    ensures Sets(b, r, "fuel_moisture", "fuelMoisture") && r.config["fuel_moisture"] == UniformValue(value)
  {
    With(b, "fuel_moisture", UniformValue(value), "fuelMoisture")
  }

  /**
   * The two bulk-density setters replace each other: whichever is called
   * last decides the source, and the attribute is requested once.
   */
  lemma BulkDensitySettersReplace(domainId: string, value: real)
    ensures var b := WithBulkDensityFromTreeInventory(WithUniformBulkDensity(New(domainId), value));
            Build(b).config == map["bulk_density" := FromInventory] && Build(b).attributes == ["bulkDensity"]
  {
    var b := WithBulkDensityFromTreeInventory(WithUniformBulkDensity(New(domainId), value));
    assert b.attributes == [] + ["bulkDensity"] + ["bulkDensity"];
    RepeatIsAbsorbed([], "bulkDensity");
    DedupOfDistinct(["bulkDensity"]);
    assert [] + ["bulkDensity"] == ["bulkDensity"];
  }

  /** Clearing a builder and rebuilding from scratch are the same. */
  lemma ClearForgetsEverything(b: Builder, value: real)
    ensures WithUniformFuelMoisture(Clear(b), value) == WithUniformFuelMoisture(New(b.domainId), value)
  {
  }
}
