/** The Landsat helpers of sat_lib: assembling a dataset from bands, the usable-pixel
    mask derived from fmask, masking a band with caller-chosen fmask bits, and the
    histogram-equalised false-colour composite. */
module SatLib {
  import opened Bits
  import opened Floats
  import opened Results
  import opened NdArray
  import opened Labeled

  // ---------------------------------------------------------------------------
  // make_dataset
  // ---------------------------------------------------------------------------

  /** All bands become data variables; coordinates and attributes come from the
      band inserted first. An empty dict fails on `the_keys[0]`. */
  function MakeDataset(sceneDict: seq<(string, Variable)>): (r: Result<Dataset>)
    requires DistinctKeys(sceneDict)
    ensures r.Ok? <==> |sceneDict| > 0
    ensures r.Err? ==> r.error == IndexError
    ensures r.Ok? ==> r.value.vars.Keys == KeysOf(sceneDict)
    ensures r.Ok? ==> forall i :: 0 <= i < |sceneDict| ==> r.value.vars[sceneDict[i].0] == sceneDict[i].1
    ensures r.Ok? ==> r.value.coords == sceneDict[0].1.coords && r.value.attrs == sceneDict[0].1.attrs
  {
    if |sceneDict| == 0 then Err(IndexError)
    else
      var firstBand := sceneDict[0].0;
      var vars := ToMap(sceneDict);
      Ok(Dataset(vars, vars[firstBand].coords, vars[firstBand].attrs))
  }

  // ---------------------------------------------------------------------------
  // make_bool_mask
  // ---------------------------------------------------------------------------

  /** The documented meaning of a mask cell: 1 for a cloud-free, cirrus-free land
      pixel, 0 for every pixel flagged as water, cloud or cirrus. */
  function UsablePixel(f: byte): byte
  {
    if IsWater(f) || IsCloud(f) || IsCirrus(f) then 0 else 1
  }

  function UsableGrid(g: seq<seq<byte>>): (m: seq<seq<byte>>)
    ensures |m| == |g| && forall i :: 0 <= i < |g| ==> |m[i]| == |g[i]|
  {
    seq(|g|, i requires 0 <= i < |g| => seq(|g[i]|, j requires 0 <= j < |g[i]| => UsablePixel(g[i][j])))
  }

  /** `ref_mask = np.zeros_like(scene_mask); ref_mask[...] = bits;
      masked_values = np.bitwise_and(scene_mask, ref_mask)`: a new grid of the selected bits. */
  method SelectBits(sceneMask: array2<byte>, bits: byte) returns (maskedValues: array2<byte>)
    ensures fresh(maskedValues) && SameShape(maskedValues, sceneMask)
    ensures forall i, j :: InGrid(maskedValues, i, j) ==>
              maskedValues[i, j] == AndBytes(sceneMask[i, j], bits)
  {
    var refMask := ZerosLike(sceneMask);
    Fill(refMask, bits);
    maskedValues := BitwiseAnd(sceneMask, refMask);
  }

  /** Lines 50-54 of make_bool_mask: the selected bits, then `masked_values[masked_values>0]=1`
      and `masked_values[masked_values==0]=0`, giving 1 exactly where a selected bit is set. */
  method MarkSelected(sceneMask: array2<byte>) returns (maskedValues: array2<byte>)
    ensures fresh(maskedValues) && SameShape(maskedValues, sceneMask)
    ensures forall i, j :: InGrid(maskedValues, i, j) ==>
              maskedValues[i, j] == (if AndBytes(sceneMask[i, j], MaskSelect) != 0 then 1 else 0)
  {
    maskedValues := SelectBits(sceneMask, MaskSelect);
    var positive := Where(maskedValues, (x: byte) => x > 0);
    AssignWhere(maskedValues, positive, 1);           // cloud or water
    var zero := Where(maskedValues, (x: byte) => x == 0);
    AssignWhere(maskedValues, zero, 0);               // rest of scene
  }

  /** `bool_mask = masked_values[...]` followed by the three placeholder assignments:
      the view shares the array, so each selection is taken from the grid as the
      previous assignment left it. On a 0/1 grid this swaps 0 and 1 and leaves no 9. */
  method InvertWithPlaceholder(maskedValues: array2<byte>) returns (boolMask: array2<byte>)
    requires forall i, j :: InGrid(maskedValues, i, j) ==> maskedValues[i, j] == 0 || maskedValues[i, j] == 1
    modifies maskedValues
    ensures boolMask == maskedValues
    ensures forall i, j :: InGrid(boolMask, i, j) ==> boolMask[i, j] == 1 - old(maskedValues[i, j])
  {
    boolMask := maskedValues;
    var isOne := Where(maskedValues, (x: byte) => x == 1);
    AssignWhere(boolMask, isOne, 9);
    var isZero := Where(maskedValues, (x: byte) => x == 0);
    AssignWhere(boolMask, isZero, 1);
    var isNine := Where(maskedValues, (x: byte) => x == 9);
    AssignWhere(boolMask, isNine, 0);
  }

  /** The body of make_bool_mask on an integer fmask: 1 for usable pixels, 0 for water,
      cloud and cirrus. The input grid is not modified: every write goes to the array
      `np.bitwise_and` created. */
  method BoolMaskOfFlags(sceneMask: array2<byte>) returns (boolMask: array2<byte>)
    ensures fresh(boolMask) && SameShape(boolMask, sceneMask)
    ensures forall i, j :: InGrid(boolMask, i, j) ==> boolMask[i, j] == 0 || boolMask[i, j] == 1
    ensures forall i, j :: InGrid(boolMask, i, j) ==>
              (boolMask[i, j] == 0 <==> AndBytes(sceneMask[i, j], MaskSelect) != 0)
    ensures forall i, j :: InGrid(boolMask, i, j) ==> boolMask[i, j] == UsablePixel(sceneMask[i, j])
    ensures Rows(boolMask) == UsableGrid(Rows(sceneMask))
    ensures unchanged(sceneMask)
  {
    var maskedValues := MarkSelected(sceneMask);
    boolMask := InvertWithPlaceholder(maskedValues);
    forall i, j | InGrid(boolMask, i, j)
      ensures boolMask[i, j] == UsablePixel(sceneMask[i, j])
    {
      MaskSelectFlags(sceneMask[i, j]);
    }
    assert Rows(boolMask) == UsableGrid(Rows(sceneMask)) by {
      forall i | 0 <= i < boolMask.Length0
        ensures Rows(boolMask)[i] == UsableGrid(Rows(sceneMask))[i]
      {
      }
    }
  }

  /** make_bool_mask: `np.bitwise_and` refuses a floating-point fmask with a TypeError;
      an integer fmask gives its usable-pixel grid. */
  method MakeBoolMask(daFmask: Raster) returns (r: Result<array2<byte>>)
    ensures r.Err? <==> daFmask.Samples?
    ensures r.Err? ==> r.error == TypeError
    ensures r.Ok? ==> fresh(r.value) && SameShape(r.value, daFmask.flags)
    ensures r.Ok? ==> forall i, j :: InGrid(r.value, i, j) ==>
              (r.value[i, j] == 0 || r.value[i, j] == 1) &&
              (r.value[i, j] == 0 <==> AndBytes(daFmask.flags[i, j], MaskSelect) != 0) &&
              r.value[i, j] == UsablePixel(daFmask.flags[i, j])
    ensures r.Ok? ==> Rows(r.value) == UsableGrid(Rows(daFmask.flags))
    ensures unchanged(RasterObject(daFmask))
  {
    match daFmask
    case Samples(_) =>
      r := Err(TypeError);
    case Flags(sceneMask) =>
      var boolMask := BoolMaskOfFlags(sceneMask);
      r := Ok(boolMask);
  }

  // ---------------------------------------------------------------------------
  // mask_image
  // ---------------------------------------------------------------------------

  /** `hit = masked_values > 0; masked_values[hit] = 40`: 40 marks every pixel whose
      fmask cell shares a bit with `maskValue`, 0 every other pixel. */
  method MarkHits(fmask: array2<byte>, maskValue: byte) returns (maskedValues: array2<byte>)
    ensures fresh(maskedValues) && SameShape(maskedValues, fmask)
    ensures forall i, j :: InGrid(maskedValues, i, j) ==>
              maskedValues[i, j] == (if AndBytes(fmask[i, j], maskValue) != 0 then 40 else 0)
  {
    maskedValues := SelectBits(fmask, maskValue);
    var hit := Where(maskedValues, (x: byte) => x > 0);
    AssignWhere(maskedValues, hit, 40);               // placeholder
  }

  /** `fmask_float = masked_values.astype(np.float32)`, then 40 becomes NaN and 0 becomes 1:
      the factor each image pixel is multiplied by. */
  method HitsToFactors(maskedValues: array2<byte>) returns (fmaskFloat: array2<Float>)
    requires forall i, j :: InGrid(maskedValues, i, j) ==> maskedValues[i, j] == 0 || maskedValues[i, j] == 40
    ensures fresh(fmaskFloat) && SameShape(fmaskFloat, maskedValues)
    ensures forall i, j :: InGrid(fmaskFloat, i, j) ==>
              fmaskFloat[i, j] == (if maskedValues[i, j] == 40 then NaN else Num(1.0))
  {
    fmaskFloat := AsFloat(maskedValues);
    var isForty := Where(fmaskFloat, (x: Float) => FloatEq(x, Num(40.0)));
    AssignWhere(fmaskFloat, isForty, NaN);            // bad pixels are all 40
    var isZero := Where(fmaskFloat, (x: Float) => FloatEq(x, Num(0.0)));
    AssignWhere(fmaskFloat, isZero, Num(1.0));        // good pixels are all 0
  }

  /** mask_image: a copy of the band in which every pixel whose fmask cell shares a bit
      with `maskValue` is NaN and every other pixel is multiplied by 1. A floating-point
      fmask is refused by `np.bitwise_and` with a TypeError, and grids of different
      shapes by the product. The fmask grid and the band's own array are left as they were. */
  method MaskImage(image: Variable, fmaskDa: Raster, maskValue: byte) returns (r: Result<Variable>)
    ensures r.Ok? <==>
              fmaskDa.Flags? && RasterRows(image.data) == RasterRows(fmaskDa) &&
              RasterCols(image.data) == RasterCols(fmaskDa)
    ensures fmaskDa.Samples? ==> r == Err(TypeError)
    ensures fmaskDa.Flags? && r.Err? ==> r.error == BroadcastError
    ensures r.Ok? ==> r.value.data.Samples? && fresh(r.value.data.samples)
    ensures r.Ok? ==> SameShape(r.value.data.samples, fmaskDa.flags)
    ensures r.Ok? ==> r.value.coords == image.coords && r.value.attrs == image.attrs
    ensures r.Ok? ==> forall i, j :: InGrid(fmaskDa.flags, i, j) ==>
              (r.value.data.samples[i, j].NaN? <==>
                 AndBytes(fmaskDa.flags[i, j], maskValue) != 0 || SampleAt(image.data, i, j).NaN?)
    ensures r.Ok? ==> forall i, j :: InGrid(fmaskDa.flags, i, j) && AndBytes(fmaskDa.flags[i, j], maskValue) == 0 ==>
              r.value.data.samples[i, j] == SampleAt(image.data, i, j)
    ensures unchanged(RasterObject(fmaskDa)) && unchanged(RasterObject(image.data))
  {
    if fmaskDa.Samples? {
      return Err(TypeError);
    }
    var fmask := fmaskDa.flags;
    var maskedValues := MarkHits(fmask, maskValue);
    var fmaskFloat := HitsToFactors(maskedValues);
    // deepcopy keeps coordinates and attributes; the data is replaced by the product
    var imageData := AsSamples(image.data);
    if !SameShape(imageData, fmaskFloat) {
      return Err(BroadcastError);
    }
    var product := Multiply(imageData, fmaskFloat);
    r := Ok(Variable(Samples(product), image.coords, image.attrs));
  }

  /** mask_image with the selection 0b00100011 blanks exactly the pixels that
      make_bool_mask marks unusable. */
  lemma MaskSelectHitsAreUnusable(f: byte)
    ensures AndBytes(f, MaskSelect) != 0 <==> UsablePixel(f) == 0
  {
    MaskSelectFlags(f);
  }

  // ---------------------------------------------------------------------------
  // make_false_color
  // ---------------------------------------------------------------------------

  const RgbNames: seq<string> := ["band_red", "band_green", "band_blue"]

  /** Source attributes that survive into the composite. */
  const KeepAttrs: seq<string> := ["cloud_cover", "date", "day", "target_lat", "target_lon"]

  const HistoryKey: string := "history"
  const HistoryText: string := "written by make_false_color"
  const RgbBandsKey: string := "landsat_rgb_bands"

  /** `exposure.equalize_hist(image, mask=bool_mask)`, supplied by the caller; it sees the
      image's dtype as well as its cells. */
  type Equalizer = (Pixels, seq<seq<byte>>) -> seq<seq<real>>

  /** `img_as_ubyte`, supplied by the caller. */
  type Quantizer = seq<seq<real>> -> seq<seq<byte>>

  /** The composite: a 3 x rows x cols uint8 grid with its band, y and x coordinates and attributes. */
  datatype FalseColor = FalseColor(values: array3<byte>, bandNums: seq<int>, y: seq<real>, x: seq<real>, attrs: Attrs)

  /** What `scene_dict` holds for a colour: first the band, then its equalised grid. */
  datatype SceneEntry = Band(band: Variable) | Equalized(stretched: seq<seq<real>>)

  lemma RgbNamesDistinct()
    ensures forall s, t :: 0 <= s < t < 3 ==> RgbNames[s] != RgbNames[t]
  {
  }

  /** The number of (colour, band name) pairs that `zip(rgb_names, band_names)` yields. */
  function Zipped(bandNames: seq<string>): (n: nat)
    ensures n <= 3 && n <= |bandNames|
    ensures n == 3 || n == |bandNames|
  {
    if |bandNames| < 3 then |bandNames| else 3
  }

  /** The colours that the first `n` zipped pairs put into `scene_dict`. */
  function RgbKeys(n: nat): set<string>
    requires n <= 3
  {
    if n == 0 then {} else if n == 1 then {RgbNames[0]}
    else if n == 2 then {RgbNames[0], RgbNames[1]} else {RgbNames[0], RgbNames[1], RgbNames[2]}
  }

  /** The KeyError of the first zipped band name, from position k on, that the dataset lacks. */
  function MissingBand(ds: Dataset, bandNames: seq<string>, k: nat): (e: Option<Error>)
    requires k <= Zipped(bandNames)
    ensures e.None? <==> forall t :: k <= t < Zipped(bandNames) ==> bandNames[t] in ds.vars
    ensures e.Some? ==>
              exists t :: k <= t < Zipped(bandNames) && bandNames[t] !in ds.vars &&
                e.value == KeyError(bandNames[t]) &&
                forall u :: k <= u < t ==> bandNames[u] in ds.vars
    decreases Zipped(bandNames) - k
  {
    if k == Zipped(bandNames) then None
    else if bandNames[k] !in ds.vars then Some(KeyError(bandNames[k]))
    else MissingBand(ds, bandNames, k + 1)
  }

  /** `scene_dict` after the zip loop: each zipped colour holds its band from the dataset. */
  ghost predicate ZippedScene(sceneDict: map<string, SceneEntry>, ds: Dataset, bandNames: seq<string>)
  {
    sceneDict.Keys == RgbKeys(Zipped(bandNames)) &&
    forall s :: 0 <= s < Zipped(bandNames) ==>
      bandNames[s] in ds.vars && sceneDict[RgbNames[s]] == Band(ds.vars[bandNames[s]])
  }

  /** The loop `for the_rgb, the_band in zip(rgb_names, band_names)`. */
  method ZipBands(ds: Dataset, bandNames: seq<string>) returns (r: Result<map<string, SceneEntry>>)
    ensures r.Err? <==> MissingBand(ds, bandNames, 0).Some?
    ensures r.Err? ==> MissingBand(ds, bandNames, 0) == Some(r.error)
    ensures r.Ok? ==> ZippedScene(r.value, ds, bandNames)
  {
    var n := Zipped(bandNames);
    var sceneDict: map<string, SceneEntry> := map[];
    var t := 0;
    while t < n
      invariant 0 <= t <= n
      invariant MissingBand(ds, bandNames, 0) == MissingBand(ds, bandNames, t)
      invariant sceneDict.Keys == RgbKeys(t)
      invariant forall s :: 0 <= s < t ==>
                  bandNames[s] in ds.vars && sceneDict[RgbNames[s]] == Band(ds.vars[bandNames[s]])
    {
      if bandNames[t] !in ds.vars {
        return Err(KeyError(bandNames[t]));
      }
      RgbNamesDistinct();
      sceneDict := sceneDict[RgbNames[t] := Band(ds.vars[bandNames[t]])];
      t := t + 1;
    }
    r := Ok(sceneDict);
  }

  /** `exposure.equalize_hist(image.data, mask=bool_mask)` for one band. */
  function Stretch(image: Variable, equalize: Equalizer, mask: seq<seq<byte>>): seq<seq<real>>
    reads RasterObject(image.data)
  {
    equalize(PixelsOf(image.data), mask)
  }

  /** `image[mask]` inside equalize_hist accepts the rows x cols mask for this band:
      see MaskFitsSqueezedPrefix for the rule this case split spells out. */
  predicate MaskFits(r: Raster, rows: nat, cols: nat)
  {
    var bandRows, bandCols := RasterRows(r), RasterCols(r);
    if rows != 1 && cols != 1 then bandRows == rows && bandCols == cols
    else if rows == 1 && cols == 1 then true
    else
      var axis := if rows == 1 then cols else rows;
      bandRows == axis || (bandRows == 1 && bandCols == axis)
  }

  /** numpy's rule, with both shapes taken after `squeeze()`: a boolean index is accepted
      exactly when its shape is the leading part of the indexed array's shape (it then
      selects along those axes); any other raises IndexError. */
  lemma {:induction false} MaskFitsSqueezedPrefix(r: Raster, rows: nat, cols: nat)
    ensures var mask, band := SqueezedShape(rows, cols), SqueezedShape(RasterRows(r), RasterCols(r));
            MaskFits(r, rows, cols) <==> |mask| <= |band| && band[..|mask|] == mask
  {
    var mask, band := SqueezedShape(rows, cols), SqueezedShape(RasterRows(r), RasterCols(r));
    SqueezedShapeTwoAxes(rows, cols);
    SqueezedShapeTwoAxes(RasterRows(r), RasterCols(r));
    assert band[..|band|] == band;
    if |mask| == 1 {
      assert mask == [if rows == 1 then cols else rows];
      if |band| > 0 {
        assert band[..1] == [band[0]];
        assert band[0] == if RasterRows(r) == 1 then RasterCols(r) else RasterRows(r);
      }
    }
  }

  /** A single-column mask squeezes to one axis, which selects the rows of any band with
      as many rows, whatever its number of columns. */
  lemma ColumnMaskFits(r: Raster, rows: nat)
    requires rows != 1 && RasterRows(r) == rows
    ensures MaskFits(r, rows, 1)
  {
  }

  /** Every one of the first n colours of `scene_dict` holds a band that the rows x cols mask fits. */
  predicate SceneFitsMask(sceneDict: map<string, SceneEntry>, n: nat, rows: nat, cols: nat)
    requires n <= 3 && sceneDict.Keys == RgbKeys(n)
    requires forall s :: 0 <= s < n ==> sceneDict[RgbNames[s]].Band?
  {
    forall s :: 0 <= s < n ==> MaskFits(sceneDict[RgbNames[s]].band.data, rows, cols)
  }

  /** The loop `for key, image in scene_dict.items()`, which replaces every band, in
      insertion order, by its equalised grid, and stops with the IndexError of the
      first band the rows x cols mask does not fit. */
  method EqualizeBands(sceneDict: map<string, SceneEntry>, n: nat, equalize: Equalizer,
                       mask: seq<seq<byte>>, rows: nat, cols: nat)
    returns (r: Result<map<string, SceneEntry>>)
    requires n <= 3 && sceneDict.Keys == RgbKeys(n)
    requires forall s :: 0 <= s < n ==> sceneDict[RgbNames[s]].Band?
    requires HasShape(mask, rows, cols)
    ensures r.Err? <==> !SceneFitsMask(sceneDict, n, rows, cols)
    ensures r.Err? ==> r.error == IndexError
    ensures r.Ok? ==> r.value.Keys == sceneDict.Keys
    ensures r.Ok? ==> forall s :: 0 <= s < n ==>
              r.value[RgbNames[s]] == Equalized(old(Stretch(sceneDict[RgbNames[s]].band, equalize, mask)))
  {
    RgbNamesDistinct();
    var equalized := sceneDict;
    var t := 0;
    while t < n
      invariant 0 <= t <= n
      invariant equalized.Keys == sceneDict.Keys
      invariant forall s :: 0 <= s < t ==> MaskFits(sceneDict[RgbNames[s]].band.data, rows, cols)
      invariant forall s :: 0 <= s < t ==>
                  equalized[RgbNames[s]] == Equalized(old(Stretch(sceneDict[RgbNames[s]].band, equalize, mask)))
    {
      // the items are those of the dict as it was: each key is replaced once, after it is read
      var key := RgbNames[t];
      var image := sceneDict[key].band;
      if !MaskFits(image.data, rows, cols) {
        return Err(IndexError);
      }
      assert MaskFits(sceneDict[RgbNames[t]].band.data, rows, cols);
      equalized := equalized[key := Equalized(Stretch(image, equalize, mask))];
      t := t + 1;
    }
    r := Ok(equalized);
  }

  /** The equalised grids held by `scene_dict` for its first `n` colours. */
  function StretchedOf(sceneDict: map<string, SceneEntry>, n: nat): (g: seq<seq<seq<real>>>)
    requires n <= 3 && sceneDict.Keys == RgbKeys(n)
    requires forall s :: 0 <= s < n ==> sceneDict[RgbNames[s]].Equalized?
    ensures |g| == n && forall s :: 0 <= s < n ==> g[s] == sceneDict[RgbNames[s]].stretched
  {
    seq(n, s requires 0 <= s < n => sceneDict[RgbNames[s]].stretched)
  }

  /** Colour k has an equalised grid whose quantised form fits the rows x cols slice. */
  predicate ChannelFits(stretched: seq<seq<seq<real>>>, quantize: Quantizer, rows: nat, cols: nat, k: nat)
  {
    k < |stretched| && HasShape(quantize(stretched[k]), rows, cols)
  }

  /** The first failure of the channel loop from colour k on: a colour that `zip` left
      out (KeyError on `scene_dict[key]`), or a quantised grid that does not fit the
      rows x cols slice it is written to. */
  function ChannelFailure(stretched: seq<seq<seq<real>>>, quantize: Quantizer, rows: nat, cols: nat, k: nat)
    : (e: Option<Error>)
    requires k <= 3
    ensures e.None? <==> forall s :: k <= s < 3 ==> ChannelFits(stretched, quantize, rows, cols, s)
    ensures e.Some? ==> e.value == BroadcastError || exists s :: k <= s < 3 && e.value == KeyError(RgbNames[s])
    decreases 3 - k
  {
    if k == 3 then None
    else if !ChannelFits(stretched, quantize, rows, cols, k) then
      if k >= |stretched| then Some(KeyError(RgbNames[k])) else Some(BroadcastError)
    else ChannelFailure(stretched, quantize, rows, cols, k + 1)
  }

  /** `band_values = np.empty([3, nrows, ncols])` and the loop that writes
      `img_as_ubyte(stretched)` into `band_values[index, :, :]`. */
  method StackChannels(sceneDict: map<string, SceneEntry>, n: nat, quantize: Quantizer, rows: nat, cols: nat)
    returns (r: Result<array3<byte>>)
    requires n <= 3 && sceneDict.Keys == RgbKeys(n)
    requires forall s :: 0 <= s < n ==> sceneDict[RgbNames[s]].Equalized?
    ensures r.Err? <==> ChannelFailure(StretchedOf(sceneDict, n), quantize, rows, cols, 0).Some?
    ensures r.Err? ==> ChannelFailure(StretchedOf(sceneDict, n), quantize, rows, cols, 0) == Some(r.error)
    ensures r.Ok? ==> n == 3 && fresh(r.value)
    ensures r.Ok? ==> r.value.Length0 == 3 && r.value.Length1 == rows && r.value.Length2 == cols
    ensures r.Ok? ==> forall k :: 0 <= k < 3 ==>
              HasShape(quantize(StretchedOf(sceneDict, n)[k]), rows, cols) &&
              forall i, j :: 0 <= i < rows && 0 <= j < cols ==>
                r.value[k, i, j] == quantize(StretchedOf(sceneDict, n)[k])[i][j]
  {
    RgbNamesDistinct();
    ghost var stretchedAll := StretchedOf(sceneDict, n);
    var bandValues := new byte[3, rows, cols];
    var index := 0;
    while index < 3
      invariant 0 <= index <= 3 && index <= n
      invariant ChannelFailure(stretchedAll, quantize, rows, cols, 0)
             == ChannelFailure(stretchedAll, quantize, rows, cols, index)
      invariant forall k :: 0 <= k < index ==>
                  HasShape(quantize(stretchedAll[k]), rows, cols) &&
                  forall i, j :: 0 <= i < rows && 0 <= j < cols ==>
                    bandValues[k, i, j] == quantize(stretchedAll[k])[i][j]
    {
      var key := RgbNames[index];
      if key !in sceneDict {
        return Err(KeyError(key));
      }
      var quantized := quantize(sceneDict[key].stretched);
      if !HasShape(quantized, rows, cols) {
        return Err(BroadcastError);
      }
      forall i, j | 0 <= i < rows && 0 <= j < cols {
        bandValues[index, i, j] := quantized[i][j];
      }
      index := index + 1;
    }
    r := Ok(bandValues);
  }

  /** The fmask grid of a dataset whose fmask holds integers. */
  function FmaskOf(ds: Dataset): array2<byte>
    requires "fmask" in ds.vars && ds.vars["fmask"].data.Flags?
  {
    ds.vars["fmask"].data.flags
  }

  /** The cells of the zipped bands, red first, as they are now (a band the dataset
      lacks contributes an empty grid). */
  ghost function BandGrids(ds: Dataset, bandNames: seq<string>): (g: seq<Pixels>)
    reads Footprint(ds)
    ensures |g| == Zipped(bandNames)
    ensures forall s :: 0 <= s < |g| && bandNames[s] in ds.vars ==> g[s] == PixelsOf(ds.vars[bandNames[s]].data)
  {
    seq(Zipped(bandNames), s requires 0 <= s < Zipped(bandNames) reads Footprint(ds) =>
      if bandNames[s] in ds.vars then
        assert RasterObject(ds.vars[bandNames[s]].data) in Footprint(ds);
        PixelsOf(ds.vars[bandNames[s]].data)
      else BytePixels([]))
  }

  /** The cells of the fmask grid as they are now (empty when there is no integer fmask). */
  ghost function FlagRows(ds: Dataset): seq<seq<byte>>
    reads Footprint(ds)
  {
    if "fmask" in ds.vars && ds.vars["fmask"].data.Flags? then
      assert RasterObject(ds.vars["fmask"].data) in Footprint(ds);
      Rows(FmaskOf(ds))
    else []
  }

  /** Reference definition of what the equalisation loop leaves in `scene_dict`: every
      band equalised over the same mask, in order. */
  function StretchedGrids(bands: seq<Pixels>, equalize: Equalizer, mask: seq<seq<byte>>)
    : (g: seq<seq<seq<real>>>)
    ensures |g| == |bands| && forall s :: 0 <= s < |bands| ==> g[s] == equalize(bands[s], mask)
  {
    seq(|bands|, s requires 0 <= s < |bands| => equalize(bands[s], mask))
  }

  /** After the equalisation loop, `scene_dict` holds the equalised bands in colour order. */
  lemma EqualizedScene(bands: seq<Pixels>, sceneDict: map<string, SceneEntry>, equalize: Equalizer,
                       mask: seq<seq<byte>>)
    requires |bands| <= 3 && sceneDict.Keys == RgbKeys(|bands|)
    requires forall s :: 0 <= s < |bands| ==> sceneDict[RgbNames[s]] == Equalized(equalize(bands[s], mask))
    ensures forall s :: 0 <= s < |bands| ==> sceneDict[RgbNames[s]].Equalized?
    ensures StretchedOf(sceneDict, |bands|) == StretchedGrids(bands, equalize, mask)
  {
  }

  /** Every zipped band that the dataset holds fits the rows x cols mask. */
  predicate BandsFitMask(ds: Dataset, bandNames: seq<string>, rows: nat, cols: nat)
  {
    forall s :: 0 <= s < Zipped(bandNames) && bandNames[s] in ds.vars ==>
      MaskFits(ds.vars[bandNames[s]].data, rows, cols)
  }

  /** The zipped `scene_dict` fits the mask exactly when the zipped bands of the dataset do. */
  lemma ZippedSceneFitsMask(ds: Dataset, bandNames: seq<string>, zipped: map<string, SceneEntry>, rows: nat, cols: nat)
    requires ZippedScene(zipped, ds, bandNames)
    ensures SceneFitsMask(zipped, Zipped(bandNames), rows, cols) <==> BandsFitMask(ds, bandNames, rows, cols)
  {
  }

  /** The exception lines 100-114 raise, if any: the TypeError of make_bool_mask (a
      floating-point fmask, or a 1 x 1 one that `squeeze()` turned into a 0-d array), the
      IndexError of equalize_hist, the ValueError of `nrows, ncols = bool_mask.shape`
      when `squeeze()` left fewer than two axes, then the channel loop's. */
  function ChannelsFailure(ds: Dataset, bandNames: seq<string>, bands: seq<Pixels>, flags: seq<seq<byte>>,
                           equalize: Equalizer, quantize: Quantizer): (e: Option<Error>)
    requires "fmask" in ds.vars
    ensures e.None? ==> ds.vars["fmask"].data.Flags?
  {
    if !ds.vars["fmask"].data.Flags? then Some(TypeError)
    else if FmaskOf(ds).Length0 == 1 && FmaskOf(ds).Length1 == 1 then Some(TypeError)
    else StretchFailure(ds, bandNames, bands, flags, equalize, quantize)
  }

  /** The exception lines 105-114 raise, if any, once the mask of an integer fmask is built. */
  function StretchFailure(ds: Dataset, bandNames: seq<string>, bands: seq<Pixels>, flags: seq<seq<byte>>,
                          equalize: Equalizer, quantize: Quantizer): (e: Option<Error>)
    requires "fmask" in ds.vars && ds.vars["fmask"].data.Flags?
    ensures var rows, cols := FmaskOf(ds).Length0, FmaskOf(ds).Length1;
            e.None? <==>
              BandsFitMask(ds, bandNames, rows, cols) && rows != 1 && cols != 1 &&
              forall s :: 0 <= s < 3 ==>
                ChannelFits(StretchedGrids(bands, equalize, UsableGrid(flags)), quantize, rows, cols, s)
    ensures !BandsFitMask(ds, bandNames, FmaskOf(ds).Length0, FmaskOf(ds).Length1) ==> e == Some(IndexError)
    ensures e.Some? ==>
              e.value in {IndexError, NotTwoDimensional, BroadcastError} ||
              exists s :: 0 <= s < 3 && e.value == KeyError(RgbNames[s])
  {
    var rows, cols := FmaskOf(ds).Length0, FmaskOf(ds).Length1;
    if !BandsFitMask(ds, bandNames, rows, cols) then Some(IndexError)
    else if rows == 1 || cols == 1 then Some(NotTwoDimensional)
    else ChannelFailure(StretchedGrids(bands, equalize, UsableGrid(flags)), quantize, rows, cols, 0)
  }

  /** The exception make_false_color raises, if any, after the channel loop: the band
      numbers, the y and x coordinates and the sizes the DataArray constructor compares. */
  function MetadataFailure(ds: Dataset, bandNames: seq<string>, rows: nat, cols: nat): (e: Option<Error>)
    ensures e.None? <==>
              (forall t :: 0 <= t < |bandNames| ==> BandNumber(bandNames[t]).Ok?) &&
              "y" in ds.coords && "x" in ds.coords &&
              |bandNames| == 3 && |ds.coords["y"]| == rows && |ds.coords["x"]| == cols
    ensures e.Some? ==>
              e.value in {IndexError, KeyError("y"), KeyError("x"), ConflictingSizes} || e.value.InvalidLiteral?
  {
    if BandNumbers(bandNames).Err? then Some(BandNumbers(bandNames).error)
    else if "y" !in ds.coords then Some(KeyError("y"))
    else if "x" !in ds.coords then Some(KeyError("x"))
    else if |bandNames| != 3 || |ds.coords["y"]| != rows || |ds.coords["x"]| != cols then Some(ConflictingSizes)
    else None
  }

  /** The exception make_false_color raises, if any, in the order the code meets them,
      given the cells of the zipped bands and of fmask. */
  function FalseColorFailure(ds: Dataset, bandNames: seq<string>, bands: seq<Pixels>,
                             flags: seq<seq<byte>>, equalize: Equalizer, quantize: Quantizer): (e: Option<Error>)
    ensures MissingBand(ds, bandNames, 0).Some? ==> e == MissingBand(ds, bandNames, 0)
    ensures MissingBand(ds, bandNames, 0).None? && "fmask" !in ds.vars ==> e == Some(KeyError("fmask"))
    ensures e.None? ==>
              |bandNames| == 3 && (forall k :: 0 <= k < 3 ==> bandNames[k] in ds.vars) &&
              "fmask" in ds.vars && ds.vars["fmask"].data.Flags?
  {
    var missing := MissingBand(ds, bandNames, 0);
    if missing.Some? then missing
    else if "fmask" !in ds.vars then Some(KeyError("fmask"))
    else
      var channels := ChannelsFailure(ds, bandNames, bands, flags, equalize, quantize);
      if channels.Some? then channels
      else MetadataFailure(ds, bandNames, FmaskOf(ds).Length0, FmaskOf(ds).Length1)
  }

  /** The attribute comprehension plus the two synthetic attributes. */
  function FalseColorAttrs(attrs: Attrs, bandNames: seq<string>): (r: Attrs)
    ensures r.Keys == (set k | k in attrs && k in KeepAttrs) + {HistoryKey, RgbBandsKey}
    ensures forall k :: k in r ==> k in KeepAttrs || k == HistoryKey || k == RgbBandsKey
    ensures forall k :: k in r && k in KeepAttrs ==> k in attrs && r[k] == attrs[k]
    ensures r[HistoryKey] == Text(HistoryText) && r[RgbBandsKey] == Texts(bandNames)
  {
    var kept := map key | key in attrs && key in KeepAttrs :: attrs[key];
    kept[HistoryKey := Text(HistoryText)][RgbBandsKey := Texts(bandNames)]
  }

  predicate IsDigit(c: char) { '0' <= c <= '9' }

  /** `int(name[-1])`: the band number is read from the last character alone. */
  function BandNumber(name: string): (r: Result<int>)
    ensures |name| == 0 ==> r == Err(IndexError)
    ensures |name| > 0 && !IsDigit(name[|name| - 1]) ==> r == Err(InvalidLiteral([name[|name| - 1]]))
    ensures r.Ok? ==> |name| > 0 && 0 <= r.value <= 9 && ('0' as int + r.value) as char == name[|name| - 1]
  {
    if |name| == 0 then Err(IndexError)
    else if IsDigit(name[|name| - 1]) then Ok(name[|name| - 1] as int - '0' as int)
    else Err(InvalidLiteral([name[|name| - 1]]))
  }

  /** `[int(item[-1]) for item in band_names]`: all numbers, or the first name's error. */
  function BandNumbers(bandNames: seq<string>): (r: Result<seq<int>>)
    ensures r.Ok? <==> forall t :: 0 <= t < |bandNames| ==> BandNumber(bandNames[t]).Ok?
    ensures r.Ok? ==> |r.value| == |bandNames|
    ensures r.Ok? ==> forall t :: 0 <= t < |bandNames| ==>
              0 <= r.value[t] <= 9 && Ok(r.value[t]) == BandNumber(bandNames[t])
    ensures r.Err? ==>
              exists t :: 0 <= t < |bandNames| && BandNumber(bandNames[t]) == Err(r.error) &&
                forall u :: 0 <= u < t ==> BandNumber(bandNames[u]).Ok?
  {
    if bandNames == [] then Ok([])
    else match BandNumber(bandNames[0])
      case Err(e) => Err(e)
      case Ok(n) =>
        match BandNumbers(bandNames[1..])
        case Err(e) => Err(e)
        case Ok(ns) => Ok([n] + ns)
  }

  /** Filtering the attributes of a composite again gives the same attributes. */
  lemma FalseColorAttrsIdempotent(attrs: Attrs, bandNames: seq<string>)
    ensures FalseColorAttrs(FalseColorAttrs(attrs, bandNames), bandNames) == FalseColorAttrs(attrs, bandNames)
  {
  }

  /** Only the last character counts: a name ending in a digit has that digit's band number. */
  lemma BandNumberOfLastDigit(prefix: string, d: char)
    requires IsDigit(d)
    ensures BandNumber(prefix + [d]) == Ok(d as int - '0' as int)
  {
  }

  /** make_false_color raises nothing exactly when three bands are named and present,
      fmask holds integers, has more than one row and column and has the shape of every
      band, every quantised channel has fmask's shape, every band name ends in a digit,
      and the y and x coordinates match fmask's rows and columns. */
  lemma {:induction false} FalseColorFailureNone(ds: Dataset, bandNames: seq<string>, bands: seq<Pixels>,
                                                 flags: seq<seq<byte>>, equalize: Equalizer, quantize: Quantizer)
    ensures FalseColorFailure(ds, bandNames, bands, flags, equalize, quantize).None? <==>
              |bandNames| == 3 && (forall k :: 0 <= k < 3 ==> bandNames[k] in ds.vars) &&
              "fmask" in ds.vars && ds.vars["fmask"].data.Flags? && 3 <= |bands| &&
              FmaskOf(ds).Length0 != 1 && FmaskOf(ds).Length1 != 1 &&
              (forall k :: 0 <= k < 3 ==>
                 RasterRows(ds.vars[bandNames[k]].data) == FmaskOf(ds).Length0 &&
                 RasterCols(ds.vars[bandNames[k]].data) == FmaskOf(ds).Length1) &&
              (forall k :: 0 <= k < 3 ==>
                 HasShape(quantize(equalize(bands[k], UsableGrid(flags))), FmaskOf(ds).Length0, FmaskOf(ds).Length1)) &&
              (forall k :: 0 <= k < 3 ==> |bandNames[k]| > 0 && IsDigit(bandNames[k][|bandNames[k]| - 1])) &&
              "y" in ds.coords && "x" in ds.coords &&
              |ds.coords["y"]| == FmaskOf(ds).Length0 && |ds.coords["x"]| == FmaskOf(ds).Length1
  {
  }

  /** With routines that keep the shape of the grid they are given, as equalize_hist and
      img_as_ubyte do, and bands of the rows x cols shape, the channel loop cannot fail. */
  lemma ShapeKeepingChannelsFit(bands: seq<Pixels>, equalize: Equalizer, quantize: Quantizer,
                                mask: seq<seq<byte>>, rows: nat, cols: nat)
    requires forall p, m, h: nat, w: nat :: PixelsHaveShape(p, h, w) ==> HasShape(equalize(p, m), h, w)
    requires forall g, h: nat, w: nat :: HasShape(g, h, w) ==> HasShape(quantize(g), h, w)
    requires 3 <= |bands| && forall s :: 0 <= s < |bands| ==> PixelsHaveShape(bands[s], rows, cols)
    ensures ChannelFailure(StretchedGrids(bands, equalize, mask), quantize, rows, cols, 0).None?
  {
  }

  /** Lines 105-106 of make_false_color on the zipped `scene_dict`: the IndexError of the
      first band the mask does not fit, or every zipped band equalised over the mask.
      `bands` are the cells of the zipped bands. */
  method EqualizeZipped(ds: Dataset, bandNames: seq<string>, zipped: map<string, SceneEntry>,
                        ghost bands: seq<Pixels>, equalize: Equalizer, mask: seq<seq<byte>>, rows: nat, cols: nat)
    returns (r: Result<map<string, SceneEntry>>)
    requires ZippedScene(zipped, ds, bandNames)
    requires HasShape(mask, rows, cols)
    requires |bands| == Zipped(bandNames)
    requires forall s :: 0 <= s < |bands| ==> bands[s] == PixelsOf(ds.vars[bandNames[s]].data)
    ensures r.Err? <==> !BandsFitMask(ds, bandNames, rows, cols)
    ensures r.Err? ==> r.error == IndexError
    ensures r.Ok? ==> r.value.Keys == RgbKeys(|bands|)
    ensures r.Ok? ==> forall s :: 0 <= s < |bands| ==> r.value[RgbNames[s]].Equalized?
    ensures r.Ok? ==> StretchedOf(r.value, |bands|) == StretchedGrids(bands, equalize, mask)
  {
    var n := Zipped(bandNames);
    assert forall s :: 0 <= s < n ==> Stretch(zipped[RgbNames[s]].band, equalize, mask) == equalize(bands[s], mask);
    r := EqualizeBands(zipped, n, equalize, mask, rows, cols);
    ZippedSceneFitsMask(ds, bandNames, zipped, rows, cols);
    if r.Ok? {
      EqualizedScene(bands, r.value, equalize, mask);
    }
  }

  /** Lines 105-114 of make_false_color: every zipped band equalised over the usable-pixel
      mask of fmask, and the quantised grids stacked into the new 3 x rows x cols array.
      `bands` and `flags` are the cells of the zipped bands and of fmask. */
  method StretchAndStack(ds: Dataset, bandNames: seq<string>, zipped: map<string, SceneEntry>,
                         boolMask: array2<byte>, ghost bands: seq<Pixels>, ghost flags: seq<seq<byte>>,
                         equalize: Equalizer, quantize: Quantizer)
    returns (r: Result<array3<byte>>)
    requires ZippedScene(zipped, ds, bandNames)
    requires "fmask" in ds.vars && ds.vars["fmask"].data.Flags?
    requires SameShape(boolMask, FmaskOf(ds)) && Rows(boolMask) == UsableGrid(flags)
    requires |bands| == Zipped(bandNames)
    requires forall s :: 0 <= s < |bands| ==> bands[s] == PixelsOf(ds.vars[bandNames[s]].data)
    ensures var failure := StretchFailure(ds, bandNames, bands, flags, equalize, quantize);
            (r.Err? <==> failure.Some?) && (r.Err? ==> failure == Some(r.error))
    ensures r.Ok? ==> Zipped(bandNames) == 3 && fresh(r.value)
    ensures r.Ok? ==>
              r.value.Length0 == 3 && r.value.Length1 == FmaskOf(ds).Length0 && r.value.Length2 == FmaskOf(ds).Length1
    ensures r.Ok? ==> forall k :: 0 <= k < 3 ==>
              var channel := quantize(equalize(bands[k], UsableGrid(flags)));
              HasShape(channel, r.value.Length1, r.value.Length2) &&
              forall i, j :: 0 <= i < r.value.Length1 && 0 <= j < r.value.Length2 ==> r.value[k, i, j] == channel[i][j]
  {
    var rows, cols := boolMask.Length0, boolMask.Length1;
    var mask := Rows(boolMask);
    var equalized := EqualizeZipped(ds, bandNames, zipped, bands, equalize, mask, rows, cols);
    if equalized.Err? {
      return Err(equalized.error);
    }
    if rows == 1 || cols == 1 {
      // `squeeze()` dropped an axis of length 1, so `nrows, ncols = bool_mask.shape` fails
      return Err(NotTwoDimensional);
    }
    r := StackChannels(equalized.value, Zipped(bandNames), quantize, rows, cols);
  }

  /** Lines 100-114 of make_false_color: the usable-pixel mask of fmask, every zipped
      band equalised over it, and the quantised grids stacked into the new
      3 x rows x cols array. */
  method FalseColorChannels(ds: Dataset, bandNames: seq<string>, zipped: map<string, SceneEntry>,
                            equalize: Equalizer, quantize: Quantizer)
    returns (r: Result<array3<byte>>)
    requires ZippedScene(zipped, ds, bandNames)
    requires "fmask" in ds.vars
    ensures var failure := ChannelsFailure(ds, bandNames, old(BandGrids(ds, bandNames)), old(FlagRows(ds)),
                                           equalize, quantize);
            (r.Err? <==> failure.Some?) && (r.Err? ==> failure == Some(r.error))
    ensures r.Ok? ==> Zipped(bandNames) == 3 && ds.vars["fmask"].data.Flags? && fresh(r.value)
    ensures r.Ok? ==>
              r.value.Length0 == 3 && r.value.Length1 == FmaskOf(ds).Length0 && r.value.Length2 == FmaskOf(ds).Length1
    ensures r.Ok? ==> forall k :: 0 <= k < 3 ==>
              var channel := quantize(equalize(old(BandGrids(ds, bandNames))[k], UsableGrid(old(FlagRows(ds)))));
              HasShape(channel, r.value.Length1, r.value.Length2) &&
              forall i, j :: 0 <= i < r.value.Length1 && 0 <= j < r.value.Length2 ==> r.value[k, i, j] == channel[i][j]
  {
    ghost var bands := BandGrids(ds, bandNames);
    ghost var flags := FlagRows(ds);
    var madeMask := MakeBoolMask(ds.vars["fmask"].data);
    if madeMask.Err? {
      return Err(madeMask.error);
    }
    if madeMask.value.Length0 == 1 && madeMask.value.Length1 == 1 {
      // `squeeze()` made a 1 x 1 fmask a 0-d array: `np.bitwise_and` of 0-d operands is a
      // numpy scalar, and the item assignment of line 53 raises TypeError
      return Err(TypeError);
    }
    assert flags == Rows(FmaskOf(ds));
    // MakeBoolMask only allocates: the bands hold what they held on entry
    assert forall s :: 0 <= s < Zipped(bandNames) ==> old(allocated(RasterObject(ds.vars[bandNames[s]].data)));
    assert forall s :: 0 <= s < Zipped(bandNames) ==> bands[s] == PixelsOf(ds.vars[bandNames[s]].data);
    r := StretchAndStack(ds, bandNames, zipped, madeMask.value, bands, flags, equalize, quantize);
  }

  /** make_false_color: red, green and blue channels from the bands named by
      `bandNames[0..3]`, each equalised over the usable pixels of fmask and quantised
      to uint8, with the whitelisted attributes and the band numbers. */
  method MakeFalseColor(ds: Dataset, bandNames: seq<string>, equalize: Equalizer, quantize: Quantizer)
    returns (r: Result<FalseColor>)
    ensures var failure := FalseColorFailure(ds, bandNames, old(BandGrids(ds, bandNames)), old(FlagRows(ds)),
                                             equalize, quantize);
            (r.Err? <==> failure.Some?) && (r.Err? ==> failure == Some(r.error))
    ensures r.Ok? ==> |bandNames| == 3 && (forall k :: 0 <= k < 3 ==> bandNames[k] in ds.vars)
    ensures r.Ok? ==> "fmask" in ds.vars && ds.vars["fmask"].data.Flags?
    ensures r.Ok? ==>
              fresh(r.value.values) && r.value.values.Length0 == 3 &&
              r.value.values.Length1 == FmaskOf(ds).Length0 && r.value.values.Length2 == FmaskOf(ds).Length1
    ensures r.Ok? ==> forall k :: 0 <= k < 3 ==>
              var channel := quantize(equalize(old(PixelsOf(ds.vars[bandNames[k]].data)),
                                               UsableGrid(old(Rows(FmaskOf(ds))))));
              HasShape(channel, r.value.values.Length1, r.value.values.Length2) &&
              forall i, j :: 0 <= i < r.value.values.Length1 && 0 <= j < r.value.values.Length2 ==>
                r.value.values[k, i, j] == channel[i][j]
    ensures r.Ok? ==> r.value.attrs == FalseColorAttrs(ds.attrs, bandNames)
    ensures r.Ok? ==> BandNumbers(bandNames) == Ok(r.value.bandNums)
    ensures r.Ok? ==>
              "y" in ds.coords && "x" in ds.coords && r.value.y == ds.coords["y"] && r.value.x == ds.coords["x"]
  {
    ghost var bands := BandGrids(ds, bandNames);
    ghost var flags := FlagRows(ds);
    // `the_ds.squeeze()` drops the axes of length 1; its effect is modelled where it shows,
    // in make_bool_mask, in equalize_hist and in `nrows, ncols = bool_mask.shape`
    var zipped := ZipBands(ds, bandNames);
    if zipped.Err? {
      return Err(zipped.error);
    }
    if "fmask" !in ds.vars {
      return Err(KeyError("fmask"));
    }
    // ZipBands only allocates: the grids hold what they held on entry
    assert forall name :: name in ds.vars ==> old(allocated(RasterObject(ds.vars[name].data)));
    assert BandGrids(ds, bandNames) == bands && FlagRows(ds) == flags;
    var stacked := FalseColorChannels(ds, bandNames, zipped.value, equalize, quantize);
    if stacked.Err? {
      return Err(stacked.error);
    }
    // only keep a subset of the attributes
    var attrDict := FalseColorAttrs(ds.attrs, bandNames);
    var bandNums := BandNumbers(bandNames);
    if bandNums.Err? {
      return Err(bandNums.error);
    }
    if "y" !in ds.coords {
      return Err(KeyError("y"));
    }
    if "x" !in ds.coords {
      return Err(KeyError("x"));
    }
    var y, x := ds.coords["y"], ds.coords["x"];
    var rows, cols := stacked.value.Length1, stacked.value.Length2;
    if |bandNums.value| != 3 || |y| != rows || |x| != cols {
      return Err(ConflictingSizes);
    }
    r := Ok(FalseColor(stacked.value, bandNums.value, y, x, attrDict));
  }
}
