/** Labeled rasters as xarray holds them: a grid together with its coordinates and
    attributes, and datasets that gather several such variables under names. */
module Labeled {
  import opened Bits
  import opened Floats
  import opened NdArray

  /** Attribute values met in Landsat scenes and in the composite's metadata. */
  datatype AttrValue = Text(s: string) | Texts(items: seq<string>) | Number(x: real)

  type Attrs = map<string, AttrValue>

  /** Coordinate variables (such as "x" and "y") by name. */
  type Coords = map<string, seq<real>>

  /** The numpy array behind a variable: an integer (uint8) grid or a floating-point one. */
  datatype Raster = Flags(flags: array2<byte>) | Samples(samples: array2<Float>)

  /** An xarray DataArray. */
  datatype Variable = Variable(data: Raster, coords: Coords, attrs: Attrs)

  /** An xarray Dataset: data variables by name plus dataset-level coordinates and attributes. */
  datatype Dataset = Dataset(vars: map<string, Variable>, coords: Coords, attrs: Attrs)

  function RasterObject(r: Raster): object
  {
    match r
    case Flags(a) => a
    case Samples(a) => a
  }

  /** Every array held by the dataset's variables. */
  function Footprint(ds: Dataset): set<object>
  {
    set name | name in ds.vars :: RasterObject(ds.vars[name].data)
  }

  function RasterRows(r: Raster): nat
  {
    match r
    case Flags(a) => a.Length0
    case Samples(a) => a.Length0
  }

  function RasterCols(r: Raster): nat
  {
    match r
    case Flags(a) => a.Length1
    case Samples(a) => a.Length1
  }

  /** A cell as numpy's arithmetic sees it: uint8 values are promoted to floats. */
  function SampleAt(r: Raster, i: nat, j: nat): Float
    requires i < RasterRows(r) && j < RasterCols(r)
    reads RasterObject(r)
  {
    match r
    case Flags(a) => Num(a[i, j] as real)
    case Samples(a) => a[i, j]
  }

  /** The floating-point operand numpy uses for `raster * other`: the array itself when it
      already holds floats, a promoted copy when it holds uint8 values. */
  method AsSamples(r: Raster) returns (a: array2<Float>)
    ensures a.Length0 == RasterRows(r) && a.Length1 == RasterCols(r)
    ensures forall i, j :: InGrid(a, i, j) ==> a[i, j] == SampleAt(r, i, j)
    ensures r.Samples? ==> a == r.samples
    ensures r.Flags? ==> fresh(a)
  {
    match r
    case Samples(s) => a := s;
    case Flags(f) => a := AsFloat(f);
  }

  /** A raster's cells as a value, with its dtype: skimage treats integer and
      floating-point images differently. */
  datatype Pixels = BytePixels(bytes: seq<seq<byte>>) | FloatPixels(floats: seq<seq<Float>>)

  predicate PixelsHaveShape(p: Pixels, rows: nat, cols: nat)
  {
    match p
    case BytePixels(g) => HasShape(g, rows, cols)
    case FloatPixels(g) => HasShape(g, rows, cols)
  }

  /** `image.data` as a value: the cells of the raster's array with their dtype. */
  function PixelsOf(r: Raster): (p: Pixels)
    reads RasterObject(r)
    ensures PixelsHaveShape(p, RasterRows(r), RasterCols(r))
    ensures p.BytePixels? <==> r.Flags?
    ensures r.Flags? ==> forall i, j :: InGrid(r.flags, i, j) ==> p.bytes[i][j] == r.flags[i, j]
    ensures r.Samples? ==> forall i, j :: InGrid(r.samples, i, j) ==> p.floats[i][j] == r.samples[i, j]
  {
    match r
    case Flags(a) => BytePixels(Rows(a))
    case Samples(a) => FloatPixels(Rows(a))
  }

  /** A Python dict as the list of its (key, value) pairs in insertion order; keys are unique. */
  predicate DistinctKeys<V>(entries: seq<(string, V)>)
  {
    forall i, j :: 0 <= i < j < |entries| ==> entries[i].0 != entries[j].0
  }

  function KeysOf<V>(entries: seq<(string, V)>): set<string>
  {
    set i | 0 <= i < |entries| :: entries[i].0
  }

  /** The dict's contents as a map: every key, each with its own value. */
  function ToMap<V>(entries: seq<(string, V)>): (m: map<string, V>)
    requires DistinctKeys(entries)
    ensures m.Keys == KeysOf(entries)
    ensures forall i :: 0 <= i < |entries| ==> m[entries[i].0] == entries[i].1
  {
    if entries == [] then map[]
    else ToMap(entries[1..])[entries[0].0 := entries[0].1]
  }
}
