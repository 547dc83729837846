/**
 * The QUIC-Fire export of a FastFuels zarr store: the validation of the
 * required groups and arrays, the first-layer overlay of surface fuels on the
 * canopy grids, and the axis order of the Fortran records.
 */
module Exports {
  import opened Values

  /** A grid of shape (y, x): `rows[i][j]`. */
  predicate Box2(rows: seq<seq<real>>, ny: nat, nx: nat)
  {
    |rows| == ny && forall i :: 0 <= i < ny ==> |rows[i]| == nx
  }

  /** A grid of shape (d0, d1, d2): `cells[i][j][k]`. */
  predicate Box3(cells: seq<seq<seq<real>>>, d0: nat, d1: nat, d2: nat)
  {
    |cells| == d0 &&
    (forall i :: 0 <= i < d0 ==> |cells[i]| == d1) &&
    (forall i, j :: 0 <= i < d0 && 0 <= j < d1 ==> |cells[i][j]| == d2)
  }

  /** A zarr array: two- or three-dimensional, with its shape. */
  datatype Array =
    | Array2(ny: nat, nx: nat, rows: seq<seq<real>>)
    | Array3(d0: nat, d1: nat, d2: nat, cells: seq<seq<seq<real>>>)

  /** The array's values have the shape it declares. */
  predicate Shaped(a: Array)
  {
    match a
    case Array2(ny, nx, rows) => Box2(rows, ny, nx)
    case Array3(d0, d1, d2, cells) => Box3(cells, d0, d1, d2)
  }

  /** A zarr group maps array names to arrays; the root maps group names to groups. */
  type Group = map<string, Array>
  type Store = map<string, Group>

  /** The arrays required in one group, in the order they are checked. */
  datatype Required = Required(group: string, arrays: seq<string>)

  function GroupMessage(group: string): string
  {
    "The zarr file does not contain the required '" + group + "' group."
  }

  function ArrayMessage(group: string, name: string): string
  {
    "The zarr file does not contain the required '" + name + "' array in the '" + group + "' group."
  }

  /** The first required group the store lacks, if any. */
  function FirstMissingGroup(store: Store, groups: seq<string>): (r: Option<string>)
    ensures r.None? <==> forall i :: 0 <= i < |groups| ==> groups[i] in store
    ensures r.Some? ==> exists i :: 0 <= i < |groups| && groups[i] == r.value && groups[i] !in store &&
                                    forall j :: 0 <= j < i ==> groups[j] in store
  {
    if |groups| == 0 then None
    else if groups[0] !in store then Some(groups[0])
    else
      var rest := FirstMissingGroup(store, groups[1..]);
      assert forall i :: 0 < i < |groups| ==> groups[i] == groups[1..][i - 1];
      if rest.Some? then
        var i' :| 0 <= i' < |groups[1..]| && groups[1..][i'] == rest.value && groups[1..][i'] !in store &&
                  forall j :: 0 <= j < i' ==> groups[1..][j] in store;
        assert groups[i' + 1] == rest.value;
        rest
      else rest
  }

  /** The (group, array) pairs of the requirements, in iteration order. */
  function Pairs(required: seq<Required>): (r: seq<(string, string)>)
    ensures forall p :: p in r ==> exists i :: 0 <= i < |required| && p.0 == required[i].group && p.1 in required[i].arrays
    ensures forall i, a :: 0 <= i < |required| && a in required[i].arrays ==> (required[i].group, a) in r
  {
    if |required| == 0 then []
    else
      var head := seq(|required[0].arrays|, k requires 0 <= k < |required[0].arrays| => (required[0].group, required[0].arrays[k]));
      var rest := Pairs(required[1..]);
      assert forall p :: p in rest ==> exists i :: 0 <= i < |required| && p.0 == required[i].group && p.1 in required[i].arrays by {
        forall p | p in rest
          ensures exists i :: 0 <= i < |required| && p.0 == required[i].group && p.1 in required[i].arrays
        {
          var i' :| 0 <= i' < |required[1..]| && p.0 == required[1..][i'].group && p.1 in required[1..][i'].arrays;
          assert required[i' + 1] == required[1..][i'];
        }
      }
      assert forall i, a :: 0 < i < |required| && a in required[i].arrays ==> (required[i].group, a) in rest by {
        forall i, a | 0 < i < |required| && a in required[i].arrays
          ensures (required[i].group, a) in rest
        {
          assert required[1..][i - 1] == required[i];
        }
      }
      assert forall a :: a in required[0].arrays ==> (required[0].group, a) in head by {
        forall a | a in required[0].arrays
          ensures (required[0].group, a) in head
        {
          var k :| 0 <= k < |required[0].arrays| && required[0].arrays[k] == a;
          assert head[k] == (required[0].group, a);
        }
      }
      head + rest
  }

  /** The first (group, array) pair whose array is missing from its group, if any. */
  function FirstMissingArray(store: Store, pairs: seq<(string, string)>): (r: Option<(string, string)>)
    requires forall p :: p in pairs ==> p.0 in store
    ensures r.None? <==> forall i :: 0 <= i < |pairs| ==> pairs[i].1 in store[pairs[i].0]
    ensures r.Some? ==> exists i :: 0 <= i < |pairs| && pairs[i] == r.value && pairs[i].1 !in store[pairs[i].0] &&
                                    forall j :: 0 <= j < i ==> pairs[j].1 in store[pairs[j].0]
  {
    if |pairs| == 0 then None
    else if pairs[0].1 !in store[pairs[0].0] then Some(pairs[0])
    else
      var rest := FirstMissingArray(store, pairs[1..]);
      assert forall i :: 0 < i < |pairs| ==> pairs[i] == pairs[1..][i - 1];
      if rest.Some? then
        var i' :| 0 <= i' < |pairs[1..]| && pairs[1..][i'] == rest.value && pairs[1..][i'].1 !in store[pairs[1..][i'].0] &&
                  forall j :: 0 <= j < i' ==> pairs[1..][j].1 in store[pairs[1..][j].0];
        assert pairs[i' + 1] == rest.value;
        rest
      else rest
  }

  /**
   * `_validate_zarr_file`: every required group is checked, in order, before
   * any array; the first missing group is reported. With all groups present
   * the first missing array, in iteration order, is reported; `None` means
   * the store passes. Every group named in the array requirements is among
   * the required groups, as in each exporter's constants.
   */
  function Validate(store: Store, groups: seq<string>, required: seq<Required>): (r: Option<string>)
    requires forall i :: 0 <= i < |required| ==> required[i].group in groups
    ensures r.None? <==>
              (forall g :: g in groups ==> g in store) &&
              (forall i, a :: 0 <= i < |required| && a in required[i].arrays ==> a in store[required[i].group])
    ensures FirstMissingGroup(store, groups).Some? ==> r == Some(GroupMessage(FirstMissingGroup(store, groups).value))
    ensures FirstMissingGroup(store, groups).None? ==>
              (forall p :: p in Pairs(required) ==> p.0 in store) &&
              r == (match FirstMissingArray(store, Pairs(required))
                    case None => None
                    case Some(p) => Some(ArrayMessage(p.0, p.1)))
  {
    match FirstMissingGroup(store, groups)
    case Some(g) =>
      assert exists i :: 0 <= i < |groups| && groups[i] !in store;
      Some(GroupMessage(g))
    case None =>
      assert forall g :: g in groups ==> g in store by {
        forall g | g in groups ensures g in store {
          var i :| 0 <= i < |groups| && groups[i] == g;
        }
      }
      var pairs := Pairs(required);
      assert forall p :: p in pairs ==> p.0 in store;
      match FirstMissingArray(store, pairs)
      case Some(p) =>
        var i :| 0 <= i < |pairs| && pairs[i] == p && p.1 !in store[p.0];
        var k :| 0 <= k < |required| && p.0 == required[k].group && p.1 in required[k].arrays;
        Some(ArrayMessage(p.0, p.1))
      case None =>
        assert forall i, a :: 0 <= i < |required| && a in required[i].arrays ==> a in store[required[i].group] by {
          forall i, a | 0 <= i < |required| && a in required[i].arrays
            ensures a in store[required[i].group]
          {
            var n :| 0 <= n < |pairs| && pairs[n] == (required[i].group, a);
          }
        }
        None
  }

  const QuicFireGroups := ["canopy", "surface"]
  const QuicFireArrays := [Required("canopy", ["bulk-density", "FMC", "SAV"]),
                           Required("surface", ["bulk-density", "FMC", "SAV", "fuel-depth", "DEM"])]

  /**
   * A store without the "surface" group is rejected for that group, even
   * when the canopy group lacks arrays too.
   */
  lemma MissingSurfaceReportedFirst(canopy: Group)
    ensures Validate(map["canopy" := canopy], QuicFireGroups, QuicFireArrays) == Some(GroupMessage("surface"))
  {
    var store := map["canopy" := canopy];
    var r := FirstMissingGroup(store, QuicFireGroups);
    assert QuicFireGroups[1] == "surface" && "surface" !in store;
    assert r.Some?;
    var i :| 0 <= i < 2 && QuicFireGroups[i] == r.value && QuicFireGroups[i] !in store;
    assert i == 1;
  }

  /** `2 / sav` with the infinities of a zero divisor replaced by 0. */
  function SizeScale(sav: real): (r: real)
    ensures sav != 0.0 ==> r * sav == 2.0
    ensures sav == 0.0 ==> r == 0.0
  {
    if sav == 0.0 then 0.0 else 2.0 / sav
  }

  /** The size scale is its own inverse: a size scale turned back gives the surface-area-to-volume ratio. */
  lemma SizeScaleInvolution(sav: real)
    ensures SizeScale(SizeScale(sav)) == sav
  {
    if sav != 0.0 {
      var s := SizeScale(sav);
      assert s != 0.0;
      assert SizeScale(s) * s == 2.0;
      assert sav * s == 2.0;
      assert SizeScale(s) * s == sav * s;
    }
  }

  /** How a surface value combines with the canopy's first layer. */
  datatype Overlay = AddSurface | ReplaceWithSurface

  function Combine(o: Overlay, canopy: real, surface: real): real
  {
    match o
    case AddSurface => canopy + surface
    case ReplaceWithSurface => surface
  }

  /**
   * `array[..., 0] op= surface`: the first z layer of every column combines
   * with the surface value; all other layers keep the canopy values.
   */
  function OverlayLayer0(o: Overlay, canopy: seq<seq<seq<real>>>, surface: seq<seq<real>>, ny: nat, nx: nat, nz: nat)
    : (r: seq<seq<seq<real>>>)
    requires Box3(canopy, ny, nx, nz) && Box2(surface, ny, nx) && nz >= 1
    ensures Box3(r, ny, nx, nz)
    ensures forall i, j :: 0 <= i < ny && 0 <= j < nx ==> r[i][j][0] == Combine(o, canopy[i][j][0], surface[i][j])
    ensures forall i, j, k :: 0 <= i < ny && 0 <= j < nx && 1 <= k < nz ==> r[i][j][k] == canopy[i][j][k]
  {
    seq(ny, i requires 0 <= i < ny =>
      seq(nx, j requires 0 <= j < nx =>
        seq(nz, k requires 0 <= k < nz =>
          if k == 0 then Combine(o, canopy[i][j][0], surface[i][j]) else canopy[i][j][k])))
  }

  /** `np.zeros_like(canopy)`: zeros in the canopy's shape. */
  function Zeros(ny: nat, nx: nat, nz: nat): (r: seq<seq<seq<real>>>)
    ensures Box3(r, ny, nx, nz)
    ensures forall i, j, k :: 0 <= i < ny && 0 <= j < nx && 0 <= k < nz ==> r[i][j][k] == 0.0
  {
    seq(ny, i requires 0 <= i < ny => seq(nx, j requires 0 <= j < nx => seq(nz, k requires 0 <= k < nz => 0.0)))
  }

  /** The element-wise size scale of a grid. */
  function ScaleGrid(g: seq<seq<seq<real>>>, ny: nat, nx: nat, nz: nat): (r: seq<seq<seq<real>>>)
    requires Box3(g, ny, nx, nz)
    ensures Box3(r, ny, nx, nz)
    ensures forall i, j, k :: 0 <= i < ny && 0 <= j < nx && 0 <= k < nz ==> r[i][j][k] == SizeScale(g[i][j][k])
  {
    seq(ny, i requires 0 <= i < ny =>
      seq(nx, j requires 0 <= j < nx =>
        seq(nz, k requires 0 <= k < nz => SizeScale(g[i][j][k]))))
  }

  /** `np.moveaxis(a, 2, 0)`: shape (y, x, z) becomes (z, y, x). */
  function MoveAxis(a: seq<seq<seq<real>>>, ny: nat, nx: nat, nz: nat): (r: seq<seq<seq<real>>>)
    requires Box3(a, ny, nx, nz)
    ensures Box3(r, nz, ny, nx)
    ensures forall k, i, j :: 0 <= k < nz && 0 <= i < ny && 0 <= j < nx ==> r[k][i][j] == a[i][j][k]
  {
    seq(nz, k requires 0 <= k < nz =>
      seq(ny, i requires 0 <= i < ny =>
        seq(nx, j requires 0 <= j < nx => a[i][j][k])))
  }

  /** `np.moveaxis(b, 0, 2)`: shape (z, y, x) back to (y, x, z). */
  function MoveAxisBack(b: seq<seq<seq<real>>>, nz: nat, ny: nat, nx: nat): (r: seq<seq<seq<real>>>)
    requires Box3(b, nz, ny, nx)
    ensures Box3(r, ny, nx, nz)
    ensures forall i, j, k :: 0 <= i < ny && 0 <= j < nx && 0 <= k < nz ==> r[i][j][k] == b[k][i][j]
  {
    seq(ny, i requires 0 <= i < ny =>
      seq(nx, j requires 0 <= j < nx =>
        seq(nz, k requires 0 <= k < nz => b[k][i][j])))
  }

  /** Two grids of one shape with the same cells are the same grid. */
  lemma {:induction false} Box3Extensional(a: seq<seq<seq<real>>>, b: seq<seq<seq<real>>>, d0: nat, d1: nat, d2: nat)
    requires Box3(a, d0, d1, d2) && Box3(b, d0, d1, d2)
    requires forall i, j, k :: 0 <= i < d0 && 0 <= j < d1 && 0 <= k < d2 ==> a[i][j][k] == b[i][j][k]
    ensures a == b
  {
    forall i | 0 <= i < d0 ensures a[i] == b[i] {
      forall j | 0 <= j < d1 ensures a[i][j] == b[i][j] {
        assert |a[i][j]| == d2 == |b[i][j]|;
      }
    }
  }

  /** Moving the z axis to the front and back again gives the grid unchanged. */
  lemma MoveAxisRoundTrip(a: seq<seq<seq<real>>>, ny: nat, nx: nat, nz: nat)
    requires Box3(a, ny, nx, nz)
    ensures MoveAxisBack(MoveAxis(a, ny, nx, nz), nz, ny, nx) == a
  {
    Box3Extensional(MoveAxisBack(MoveAxis(a, ny, nx, nz), nz, ny, nx), a, ny, nx, nz);
  }

  /**
   * `_write_np_array_to_dat`: a three-dimensional array is written with its
   * last axis moved to the front; any other array is written as it is.
   */
  function DatRecord(a: Array): (r: Array)
    requires Shaped(a)
    ensures Shaped(r)
    ensures a.Array2? ==> r == a
    ensures a.Array3? ==> r.Array3? && r.d0 == a.d2 && r.d1 == a.d0 && r.d2 == a.d1 &&
                          forall k, i, j :: 0 <= k < a.d2 && 0 <= i < a.d0 && 0 <= j < a.d1 ==>
                            r.cells[k][i][j] == a.cells[i][j][k]
  {
    match a
    case Array2(_, _, _) => a
    case Array3(d0, d1, d2, cells) => Array3(d2, d0, d1, MoveAxis(cells, d0, d1, d2))
  }

  /** A canopy array and a surface array the first-layer overlay can combine. */
  predicate Fits(canopy: Array, surface: Array)
  {
    canopy.Array3? && surface.Array2? && Shaped(canopy) && Shaped(surface) &&
    canopy.d2 >= 1 && surface.ny == canopy.d0 && surface.nx == canopy.d1
  }

  function Overlaid(o: Overlay, canopy: Array, surface: Array): (r: Array)
    requires Fits(canopy, surface)
    ensures Shaped(r) && r.Array3? && r.d0 == canopy.d0 && r.d1 == canopy.d1 && r.d2 == canopy.d2
  {
    Array3(canopy.d0, canopy.d1, canopy.d2,
           OverlayLayer0(o, canopy.cells, surface.rows, canopy.d0, canopy.d1, canopy.d2))
  }

  /** The fuel-depth grid: zeros in the canopy's shape with the surface depth as the first layer. */
  function FuelDepth(canopy: Array, surface: Array): (r: Array)
    requires Fits(canopy, surface)
    ensures Shaped(r) && r.Array3? && r.d0 == canopy.d0 && r.d1 == canopy.d1 && r.d2 == canopy.d2
  {
    var z := Zeros(canopy.d0, canopy.d1, canopy.d2);
    Array3(canopy.d0, canopy.d1, canopy.d2,
           OverlayLayer0(ReplaceWithSurface, z, surface.rows, canopy.d0, canopy.d1, canopy.d2))
  }

  /** The size-scale grid: the SAV overlay, then `2 / sav` cell by cell. */
  function SizeScaleGrid(canopy: Array, surface: Array): (r: Array)
    requires Fits(canopy, surface)
    ensures Shaped(r) && r.Array3? && r.d0 == canopy.d0 && r.d1 == canopy.d1 && r.d2 == canopy.d2
  {
    var sav := Overlaid(ReplaceWithSurface, canopy, surface);
    Array3(sav.d0, sav.d1, sav.d2, ScaleGrid(sav.cells, sav.d0, sav.d1, sav.d2))
  }

  /** One `.dat` file: its name and the record written to it. */
  datatype DatFile = DatFile(name: string, record: Array)

  /** Why an export stopped: the validation message, or a grid the overlay cannot combine. */
  datatype Failure = Invalid(message: string) | ShapeMismatch(file: string)

  /** The files written, in order, and the failure that stopped the export, if any. */
  datatype Export = Export(files: seq<DatFile>, failure: Option<Failure>)

  const QuicFireFiles := ["treesrhof.dat", "treesmoist.dat", "treesfueldepth.dat", "treesss.dat", "topo.dat"]

  /** The arrays the QUIC-Fire export reads, once validation has passed. */
  predicate HasQuicFireArrays(store: Store)
  {
    "canopy" in store && "surface" in store &&
    "bulk-density" in store["canopy"] && "FMC" in store["canopy"] && "SAV" in store["canopy"] &&
    "bulk-density" in store["surface"] && "FMC" in store["surface"] && "SAV" in store["surface"] &&
    "fuel-depth" in store["surface"] && "DEM" in store["surface"]
  }

  lemma ValidStoreHasQuicFireArrays(store: Store)
    requires Validate(store, QuicFireGroups, QuicFireArrays).None?
    ensures HasQuicFireArrays(store)
  {
    assert "canopy" in QuicFireGroups && "surface" in QuicFireGroups;
    assert "bulk-density" in QuicFireArrays[0].arrays && "FMC" in QuicFireArrays[0].arrays && "SAV" in QuicFireArrays[0].arrays;
    assert "bulk-density" in QuicFireArrays[1].arrays && "FMC" in QuicFireArrays[1].arrays && "SAV" in QuicFireArrays[1].arrays;
    assert "fuel-depth" in QuicFireArrays[1].arrays && "DEM" in QuicFireArrays[1].arrays;
  }

  /** Every array of the store has the shape it declares, as a zarr array always does. */
  predicate WellShaped(store: Store)
  {
    forall g, a :: g in store && a in store[g] ==> Shaped(store[g][a])
  }

  /**
   * `treesrhof.dat`: the canopy bulk density with z as the record's leading
   * axis; its first z layer also holds the surface bulk density, every
   * higher layer is the canopy's alone.
   */
  function RhofFile(c: Group, s: Group): (f: DatFile)
    requires "bulk-density" in c && "bulk-density" in s && Fits(c["bulk-density"], s["bulk-density"])
    ensures f.name == "treesrhof.dat"
    ensures var a := c["bulk-density"];
            Shaped(f.record) && f.record.Array3? && f.record.d0 == a.d2 && f.record.d1 == a.d0 && f.record.d2 == a.d1
    ensures var a := c["bulk-density"];
            forall k, i, j :: 0 <= k < a.d2 && 0 <= i < a.d0 && 0 <= j < a.d1 ==>
              f.record.cells[k][i][j] == if k == 0 then a.cells[i][j][0] + s["bulk-density"].rows[i][j] else a.cells[i][j][k]
  {
    DatFile(QuicFireFiles[0], DatRecord(Overlaid(AddSurface, c["bulk-density"], s["bulk-density"])))
  }

  /**
   * `treesmoist.dat`: the canopy moisture with z leading; the first z layer
   * is the surface moisture instead, every higher layer the canopy's.
   */
  function MoistFile(c: Group, s: Group): (f: DatFile)
    requires "FMC" in c && "FMC" in s && Fits(c["FMC"], s["FMC"])
    ensures f.name == "treesmoist.dat"
    ensures var a := c["FMC"];
            Shaped(f.record) && f.record.Array3? && f.record.d0 == a.d2 && f.record.d1 == a.d0 && f.record.d2 == a.d1
    ensures var a := c["FMC"];
            forall k, i, j :: 0 <= k < a.d2 && 0 <= i < a.d0 && 0 <= j < a.d1 ==>
              f.record.cells[k][i][j] == if k == 0 then s["FMC"].rows[i][j] else a.cells[i][j][k]
  {
    DatFile(QuicFireFiles[1], DatRecord(Overlaid(ReplaceWithSurface, c["FMC"], s["FMC"])))
  }

  /**
   * `treesfueldepth.dat`: in the canopy bulk density's shape with z leading,
   * the first z layer is the surface fuel depth and every higher layer is zero.
   */
  function DepthFile(c: Group, s: Group): (f: DatFile)
    requires "bulk-density" in c && "fuel-depth" in s && Fits(c["bulk-density"], s["fuel-depth"])
    ensures f.name == "treesfueldepth.dat"
    ensures var a := c["bulk-density"];
            Shaped(f.record) && f.record.Array3? && f.record.d0 == a.d2 && f.record.d1 == a.d0 && f.record.d2 == a.d1
    ensures var a := c["bulk-density"];
            forall k, i, j :: 0 <= k < a.d2 && 0 <= i < a.d0 && 0 <= j < a.d1 ==>
              f.record.cells[k][i][j] == if k == 0 then s["fuel-depth"].rows[i][j] else 0.0
  {
    DatFile(QuicFireFiles[2], DatRecord(FuelDepth(c["bulk-density"], s["fuel-depth"])))
  }

  /**
   * `treesss.dat`: with z leading, the size scale of the canopy SAV, whose
   * first z layer is the surface SAV instead.
   */
  function SsFile(c: Group, s: Group): (f: DatFile)
    requires "SAV" in c && "SAV" in s && Fits(c["SAV"], s["SAV"])
    ensures f.name == "treesss.dat"
    ensures var a := c["SAV"];
            Shaped(f.record) && f.record.Array3? && f.record.d0 == a.d2 && f.record.d1 == a.d0 && f.record.d2 == a.d1
    ensures var a := c["SAV"];
            forall k, i, j :: 0 <= k < a.d2 && 0 <= i < a.d0 && 0 <= j < a.d1 ==>
              f.record.cells[k][i][j] == SizeScale(if k == 0 then s["SAV"].rows[i][j] else a.cells[i][j][k])
  {
    DatFile(QuicFireFiles[3], DatRecord(SizeScaleGrid(c["SAV"], s["SAV"])))
  }

  /**
   * `topo.dat`: the surface elevation model, unchanged when it is a (y, x)
   * grid and with its last axis leading when it has three.
   */
  function TopoFile(s: Group): (f: DatFile)
    requires "DEM" in s && Shaped(s["DEM"])
    ensures f.name == "topo.dat"
    ensures s["DEM"].Array2? ==> f.record == s["DEM"]
    ensures var a := s["DEM"];
            a.Array3? ==>
              && Shaped(f.record) && f.record.Array3? && f.record.d0 == a.d2 && f.record.d1 == a.d0 && f.record.d2 == a.d1
              && forall k, i, j :: 0 <= k < a.d2 && 0 <= i < a.d0 && 0 <= j < a.d1 ==> f.record.cells[k][i][j] == a.cells[i][j][k]
  {
    DatFile(QuicFireFiles[4], DatRecord(s["DEM"]))
  }

  /** The group-level arrays the writing steps read. */
  predicate Readable(c: Group, s: Group)
  {
    "bulk-density" in c && "FMC" in c && "SAV" in c &&
    "bulk-density" in s && "FMC" in s && "SAV" in s && "fuel-depth" in s && "DEM" in s && Shaped(s["DEM"])
  }

  /**
   * The writing steps of `export_zarr_to_quicfire`: the five files in order;
   * a grid the overlay cannot combine stops the export after the files
   * before it.
   */
  function WriteQuicFire(c: Group, s: Group): (e: Export)
    requires Readable(c, s)
    ensures e.failure.None? <==>
              Fits(c["bulk-density"], s["bulk-density"]) && Fits(c["FMC"], s["FMC"]) &&
              Fits(c["bulk-density"], s["fuel-depth"]) && Fits(c["SAV"], s["SAV"])
    ensures e.failure.None? ==> |e.files| == 5
    ensures e.failure.Some? ==> |e.files| < 4 && e.failure.value == ShapeMismatch(QuicFireFiles[|e.files|])
    ensures |e.files| > 0 ==> Fits(c["bulk-density"], s["bulk-density"]) && e.files[0] == RhofFile(c, s)
    ensures |e.files| > 1 ==> Fits(c["FMC"], s["FMC"]) && e.files[1] == MoistFile(c, s)
    ensures |e.files| > 2 ==> Fits(c["bulk-density"], s["fuel-depth"]) && e.files[2] == DepthFile(c, s)
    ensures |e.files| > 3 ==> Fits(c["SAV"], s["SAV"]) && e.files[3] == SsFile(c, s)
    ensures |e.files| > 4 ==> e.files[4] == TopoFile(s)
  {
    if !Fits(c["bulk-density"], s["bulk-density"]) then Export([], Some(ShapeMismatch(QuicFireFiles[0]))) else
    var f0 := RhofFile(c, s);
    if !Fits(c["FMC"], s["FMC"]) then Export([f0], Some(ShapeMismatch(QuicFireFiles[1]))) else
    var f1 := MoistFile(c, s);
    if !Fits(c["bulk-density"], s["fuel-depth"]) then Export([f0, f1], Some(ShapeMismatch(QuicFireFiles[2]))) else
    var f2 := DepthFile(c, s);
    if !Fits(c["SAV"], s["SAV"]) then Export([f0, f1, f2], Some(ShapeMismatch(QuicFireFiles[3]))) else
    Export([f0, f1, f2, SsFile(c, s), TopoFile(s)], None)
  }

  /** Each written file carries its QUIC-Fire name, in the fixed order. */
  lemma WrittenFilesNamedInOrder(c: Group, s: Group)
    requires Readable(c, s)
    ensures forall n :: 0 <= n < |WriteQuicFire(c, s).files| ==> WriteQuicFire(c, s).files[n].name == QuicFireFiles[n]
  {
    var e := WriteQuicFire(c, s);
    forall n | 0 <= n < |e.files| ensures e.files[n].name == QuicFireFiles[n] {
      if n == 0 { assert e.files[0] == RhofFile(c, s); }
      else if n == 1 { assert e.files[1] == MoistFile(c, s); }
      else if n == 2 { assert e.files[2] == DepthFile(c, s); }
      else if n == 3 { assert e.files[3] == SsFile(c, s); }
      else { assert e.files[4] == TopoFile(s); }
    }
  }

  /**
   * `export_zarr_to_quicfire`: the store is validated before anything is
   * written; a store that fails writes nothing and reports the validation
   * message, and a store that passes goes through the writing steps.
   */
  function ExportQuicFire(store: Store): (e: Export)
    requires WellShaped(store)
    ensures Validate(store, QuicFireGroups, QuicFireArrays).Some? ==>
              e == Export([], Some(Invalid(Validate(store, QuicFireGroups, QuicFireArrays).value)))
    ensures Validate(store, QuicFireGroups, QuicFireArrays).None? ==>
              HasQuicFireArrays(store) && Readable(store["canopy"], store["surface"]) &&
              e == WriteQuicFire(store["canopy"], store["surface"])
  {
    match Validate(store, QuicFireGroups, QuicFireArrays)
    case Some(message) => Export([], Some(Invalid(message)))
    case None =>
      ValidStoreHasQuicFireArrays(store);
      WriteQuicFire(store["canopy"], store["surface"])
  }
}
