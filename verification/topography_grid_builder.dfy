/** The topography grid builder: elevation, aspect and slope, each from 3DEP or LANDFIRE (elevation also uniform). */
module TopographyGridBuilder {
  import opened Values
  import opened GridBuilders

  const DefaultInterpolation := "cubic"

  /** The two remote elevation and slope sources. */
  datatype Remote = ThreeDep | Landfire

  function SourceName(r: Remote): string
  {
    match r
    case ThreeDep => "3DEP"
    case Landfire => "LANDFIRE"
  }

  /** A remote source with its interpolation method. */
  function Interpolated(r: Remote, interpolation: string): Json
  {
    Obj(map["source" := Str(SourceName(r)), "interpolationMethod" := Str(interpolation)])
  }

  /** `with_elevation_from_3dep` / `with_elevation_from_landfire`. */
  function WithElevationFrom(b: Builder, r: Remote, interpolation: string): (out: Builder)
    ensures Sets(b, out, "elevation", "elevation")
    ensures out.config["elevation"] == Interpolated(r, interpolation)
  {
    With(b, "elevation", Interpolated(r, interpolation), "elevation")
  }

  /** `with_elevation_from_uniform_value`. */
  function WithUniformElevation(b: Builder, value: real): (out: Builder)
    ensures Sets(b, out, "elevation", "elevation")
    ensures out.config["elevation"] == Obj(map["source" := Str("uniform"), "value" := Num(value)])
  {
    With(b, "elevation", Obj(map["source" := Str("uniform"), "value" := Num(value)]), "elevation")
  }

  /** Aspect supports nearest-neighbour interpolation only. */
  const AspectInterpolation := "nearest"

  /** The one LANDFIRE aspect product version. */
  const LandfireAspectVersion := "2020"

  /**
   * The aspect entry the generated source class produces from `{"source": s}`:
   * the interpolation method defaults to "nearest", and the LANDFIRE class
   * also fills in its product version.
   */
  function AspectEntry(r: Remote): (j: Json)
    ensures j.Obj? && "source" in j.fields && j.fields["source"] == Str(SourceName(r))
    ensures "interpolationMethod" in j.fields && j.fields["interpolationMethod"] == Str(AspectInterpolation)
    ensures "version" in j.fields <==> r == Landfire
    ensures r == Landfire ==> j.fields["version"] == Str(LandfireAspectVersion)
    ensures j.fields.Keys <= {"source", "version", "interpolationMethod"}
  {
    match r
    case ThreeDep => Obj(map["source" := Str("3DEP"), "interpolationMethod" := Str(AspectInterpolation)])
    case Landfire => Obj(map["source" := Str("LANDFIRE"), "version" := Str(LandfireAspectVersion),
                             "interpolationMethod" := Str(AspectInterpolation)])
  }

  /** `with_aspect_from_3dep` / `with_aspect_from_landfire`: no argument, so the class defaults decide the entry. */
  function WithAspectFrom(b: Builder, r: Remote): (out: Builder)
    ensures Sets(b, out, "aspect", "aspect")
    ensures out.config["aspect"] == AspectEntry(r)
  {
    With(b, "aspect", AspectEntry(r), "aspect")
  }

  /**
   * The aspect entry names the same source as the setter that made it and
   * always asks for nearest-neighbour interpolation, whatever came before.
   */
  lemma AspectIsNearest(b: Builder, r: Remote)
    ensures var a := WithAspectFrom(b, r).config["aspect"];
            a.Obj? && a.fields["interpolationMethod"] == Str("nearest")
            && (a.fields["source"] == Str("LANDFIRE") <==> r == Landfire)
  {
  }

  /** `with_slope_from_3dep` / `with_slope_from_landfire`. */
  function WithSlopeFrom(b: Builder, r: Remote, interpolation: string): (out: Builder)
    ensures Sets(b, out, "slope", "slope")
    ensures out.config["slope"] == Interpolated(r, interpolation)
  {
    With(b, "slope", Interpolated(r, interpolation), "slope")
  }

  /**
   * Requesting elevation, aspect and slope once each builds those three
   * attributes in that order and a configuration with exactly those keys.
   */
  lemma FullTopographyBuild(domainId: string)
    ensures var b := WithSlopeFrom(WithAspectFrom(WithElevationFrom(New(domainId), ThreeDep, DefaultInterpolation),
                                                  Landfire), ThreeDep, DefaultInterpolation);
            Build(b).attributes == ["elevation", "aspect", "slope"] &&
            Build(b).config.Keys == {"elevation", "aspect", "slope"}
  {
    var b := WithSlopeFrom(WithAspectFrom(WithElevationFrom(New(domainId), ThreeDep, DefaultInterpolation),
                                          Landfire), ThreeDep, DefaultInterpolation);
    assert b.attributes == ["elevation", "aspect", "slope"];
    DedupOfDistinct(b.attributes);
  }
}
