# Landsat masking and false-colour compositing (sat_lib)

A Dafny model of the raster helpers in `src/a301_extras/sat_lib.py`:

- `make_dataset` gathers labeled bands into one dataset.
- `make_bool_mask` turns a Landsat fmask grid into a 0/1 usable-pixel grid.
- `mask_image` blanks, as NaN, the pixels of a band whose fmask cell carries caller-chosen bits.
- `make_false_color` builds the histogram-equalised red/green/blue composite, with its whitelisted attributes and band numbers.

The numpy steps are imperative Dafny over `array2`/`array3`:

- A boolean-index assignment `a[sel] = v` is two steps: `NdArray.Where` evaluates the whole selection into a fresh boolean grid first, then `NdArray.AssignWhere` writes through it.
- `bool_mask = masked_values[...]` is a view, so in the model it is the same array reference. The three placeholder assignments are therefore each taken from the grid as the previous one left it.
- The loops of `make_false_color` are `while` loops with invariants. One fills `scene_dict`, a `map`. Another writes `band_values[index, :, :]`.
- The attribute comprehension, the band-number list and `make_dataset` are functions.

Modules:

| file | module | contents |
|---|---|---|
| bits.dfy | `Bits` | the `byte` (uint8) newtype, bitwise AND on naturals, the fmask flag bits |
| floats.dfy | `Floats` | floating-point cells as `NaN` or a real number, with numpy's NaN-absorbing product and `==` |
| results.dfy | `Results` | `Option`, `Result` and the Python exceptions the core can raise |
| ndarray.dfy | `NdArray` | the numpy grid operations used by the core |
| labeled.dfy | `Labeled` | xarray variables and datasets: a raster plus coordinates and attributes |
| sat_lib.dfy | `SatLib` | the four functions of the core |

The two skimage routines are parameters of `SatLib.MakeFalseColor`:

- `Equalizer` stands for `exposure.equalize_hist(image, mask=...)`. It receives the band's cells together with their dtype (uint8 or floating point), because skimage bins the two kinds of image differently.
- `Quantizer` stands for `img_as_ubyte`.

The failure conditions hold for any such functions. `SatLib.ShapeKeepingChannelsFit` adds that when both keep the shape of the grid they are given, as the skimage routines do, the channel loop's broadcast error cannot occur.

`the_ds.squeeze()` (line 89) drops every axis of length 1. Its effect is modelled where it shows:

- In `make_bool_mask`, called at line 101: a 1 x 1 fmask becomes a 0-d array. `np.bitwise_and` of 0-d operands returns a numpy scalar, and the item assignment of line 53 raises a TypeError.
- In `equalize_hist`: `image[mask]` accepts the squeezed mask when its shape is the leading part of the squeezed band's shape, and numpy then selects along those axes. Any other mask raises an IndexError. For example, a 3 x 1 mask squeezes to one axis of length 3 and fits a 3 x 4 band.
- At line 107: `nrows, ncols = bool_mask.shape` raises a ValueError when fmask has a single row or a single column (but not both), because the squeezed mask then has one axis.

Error behaviour of the code:

- `make_bool_mask` and `mask_image` raise a TypeError for a floating-point fmask, since `np.bitwise_and` refuses it.
- `mask_image` raises a broadcast error when the band and fmask grids have different shapes, since the product refuses them.
- `make_false_color` looks up only the first three band names in the zip loop. A missing one raises a KeyError there, before fmask is read.
- With fewer than three band names, the channel loop raises a KeyError for the first colour that `zip` did not fill. With an empty list that is `"band_red"`; otherwise it is `"band_green"` or `"band_blue"`.
- Every band name, including any after the third, goes through `int(item[-1])`. More than three names give a `band` coordinate longer than the array's three channels, which the DataArray constructor refuses.

The exceptions of `make_false_color` are modelled in the order the code meets them, for a dataset with exactly one CRS (see "## Left out"):

1. the zip loop's KeyError;
2. the KeyError for a missing fmask;
3. the TypeError of `make_bool_mask`, for a floating-point fmask or a 1 x 1 one;
4. the IndexError of `equalize_hist`, for a band whose squeezed shape does not start with the squeezed mask's shape;
5. the ValueError of `nrows, ncols = bool_mask.shape`, when fmask has a single row or a single column;
6. the channel loop: a KeyError for a colour `zip` did not fill, or the broadcast error;
7. `int(item[-1])`: an IndexError or a ValueError;
8. the `y` and `x` lookups;
9. the DataArray constructor's size check.

## Model

| member | source | states |
|---|---|---|
| Bits.BitAnd | src/a301_extras/sat_lib.py:52 | bitwise AND of two naturals is no larger than either operand |
| Bits.AndBytes | src/a301_extras/sat_lib.py:52 | `np.bitwise_and` of two uint8 cells is a uint8 no larger than either cell |
| Bits.AndNonZeroIffSharedBit | src/a301_extras/sat_lib.py:52-53 | an AND is non-zero exactly when the two operands share a set bit (both directions) |
| Bits.MaskSelectBits | src/a301_extras/sat_lib.py:49 | the bits set in 0b00100011 are exactly bit 0 (cirrus), bit 1 (cloud) and bit 5 (water) |
| Bits.MaskSelectFlags | src/a301_extras/sat_lib.py:49-53 | a cell ANDed with 0b00100011 is non-zero exactly when it is flagged water, cloud or cirrus |
| NdArray.ZerosLike | src/a301_extras/sat_lib.py:50 | a new zero grid of the input's shape |
| NdArray.Fill | src/a301_extras/sat_lib.py:51 | after `a[...] = v` every cell is v |
| NdArray.BitwiseAnd | src/a301_extras/sat_lib.py:52 | a new grid whose cells are the cellwise ANDs of the operands |
| NdArray.Where | src/a301_extras/sat_lib.py:53 | a new boolean grid holding the comparison for each cell of the current grid |
| NdArray.AssignWhere | src/a301_extras/sat_lib.py:53-61 | selected cells become v and all other cells keep their previous value |
| NdArray.AsFloat | src/a301_extras/sat_lib.py:165 | a new floating-point grid holding each uint8 cell's value |
| NdArray.Multiply | src/a301_extras/sat_lib.py:178 | a new grid of the cellwise NaN-absorbing products |
| NdArray.SqueezedShapeTwoAxes | src/a301_extras/sat_lib.py:89-107 | after `squeeze()` a grid keeps two axes exactly when it has neither a single row nor a single column, and then its shape is unchanged |
| Labeled.PixelsOf | src/a301_extras/sat_lib.py:106 | `image.data` as the value equalize_hist receives: the raster's own cells, cell by cell, in the raster's shape, uint8 exactly when the raster holds integers |
| Labeled.AsSamples | src/a301_extras/sat_lib.py:178 | the floating-point operand of `image_da.data * fmask_float`: the same array for float data, a new promoted copy for uint8 data |
| Labeled.ToMap | src/a301_extras/sat_lib.py:28 | a dict with distinct keys becomes a map with exactly those keys, each with its own value |
| SatLib.MakeDataset | src/a301_extras/sat_lib.py:26-30 | an empty dict raises IndexError; otherwise every entry becomes a variable, and coordinates and attributes come from the first key in insertion order |
| SatLib.UsableGrid | src/a301_extras/sat_lib.py:36-38 | reference definition of the documented usable-pixel grid (1 where the pixel is usable, 0 where it is water, cloud or cirrus), keeping the fmask grid's shape |
| SatLib.SelectBits | src/a301_extras/sat_lib.py:50-52 | a new grid of each fmask cell ANDed with the selection |
| SatLib.MarkSelected | src/a301_extras/sat_lib.py:50-55 | a new grid holding 1 where the fmask cell shares a bit with 0b00100011 and 0 elsewhere |
| SatLib.InvertWithPlaceholder | src/a301_extras/sat_lib.py:58-61 | the view is the same array, and on a 0/1 grid the three placeholder assignments swap 0 and 1 and leave no 9 |
| SatLib.BoolMaskOfFlags | src/a301_extras/sat_lib.py:48-62 | for an integer fmask: a new grid of its shape with only 0 and 1 cells; a cell is 0 exactly when the fmask cell ANDed with 0b00100011 is non-zero, i.e. water, cloud or cirrus; the whole grid equals the usable-pixel grid; the fmask is not modified |
| SatLib.MakeBoolMask | src/a301_extras/sat_lib.py:33-62 | a floating-point fmask raises TypeError (and only it does); an integer fmask gives a new 0/1 grid of its shape equal to the usable-pixel grid, 0 exactly where the cell ANDed with 0b00100011 is non-zero; the fmask is not modified |
| SatLib.MaskSelectHitsAreUnusable | src/a301_extras/sat_lib.py:49-53 | with the selection 0b00100011, the pixels mask_image blanks are exactly those make_bool_mask marks 0 |
| SatLib.MarkHits | src/a301_extras/sat_lib.py:156-164 | a new grid holding 40 where the fmask cell shares a bit with the mask value and 0 elsewhere |
| SatLib.HitsToFactors | src/a301_extras/sat_lib.py:165-173 | a new float grid holding NaN where the cell was 40 and 1 where it was 0 |
| SatLib.MaskImage | src/a301_extras/sat_lib.py:135-179 | a floating-point fmask raises TypeError; an integer fmask of another shape than the image raises a broadcast error; it succeeds exactly otherwise, with a new grid of the fmask's shape carrying the image's coordinates and attributes; a cell is NaN exactly when its fmask cell shares a bit with the mask value or the image cell is NaN, and other cells equal the image cell; neither the fmask nor the image's array is modified |
| SatLib.RgbNamesDistinct | src/a301_extras/sat_lib.py:90 | the three colour keys are pairwise distinct |
| SatLib.Zipped | src/a301_extras/sat_lib.py:95 | `zip` yields three pairs, or as many as there are band names when fewer |
| SatLib.MissingBand | src/a301_extras/sat_lib.py:95-97 | no error exactly when every zipped band name is in the dataset; otherwise the KeyError names the first missing one |
| SatLib.ZipBands | src/a301_extras/sat_lib.py:94-97 | fails exactly with the first missing band's KeyError; otherwise each zipped colour key holds the band named at its position, and there are no other keys |
| SatLib.EqualizeBands | src/a301_extras/sat_lib.py:105-106 | fails with IndexError exactly when the mask does not fit some band (`MaskFits`); otherwise the keys stay the same and each colour's band is replaced by its equalised grid under the given mask |
| SatLib.MaskFitsSqueezedPrefix | src/a301_extras/sat_lib.py:89-106 | `MaskFits` holds exactly when the squeezed shape of the mask is the leading part of the band's squeezed shape, which is the rule numpy applies to `image[mask]` (both directions) |
| SatLib.ColumnMaskFits | src/a301_extras/sat_lib.py:89-106 | a single-column mask fits every band with as many rows, whatever its number of columns |
| SatLib.StretchedGrids | src/a301_extras/sat_lib.py:105-106 | reference definition of what the equalisation loop produces: one equalised grid per band, in order, all under the same mask |
| SatLib.ZippedSceneFitsMask | src/a301_extras/sat_lib.py:95-106 | the zipped `scene_dict` passes equalize_hist's shape check exactly when every zipped band of the dataset does (both directions) |
| SatLib.EqualizeZipped | src/a301_extras/sat_lib.py:95-106 | fails with IndexError exactly when the mask does not fit some zipped band of the dataset; otherwise `scene_dict` holds, red first, each zipped band equalised over the mask |
| SatLib.EqualizedScene | src/a301_extras/sat_lib.py:97-106 | after both loops, scene_dict holds, red first, the equalised grids of the zipped bands |
| SatLib.ChannelFailure | src/a301_extras/sat_lib.py:112-114 | no error exactly when every colour from position k on has an equalised grid whose quantised form fits the rows x cols slice |
| SatLib.StackChannels | src/a301_extras/sat_lib.py:107-114 | fails exactly with the channel loop's first error; otherwise a new 3 x rows x cols array whose channel k holds the quantised grid of colour k |
| SatLib.ChannelsFailure | src/a301_extras/sat_lib.py:100-114 | the exception lines 100-114 raise: TypeError for a floating-point or 1 x 1 fmask, then those of StretchFailure; when there is none, fmask holds integers |
| SatLib.StretchFailure | src/a301_extras/sat_lib.py:105-114 | no exception exactly when the mask fits every zipped band, fmask has more than one row and more than one column, and all three quantised channels fit the slice; a band the mask does not fit gives IndexError; any exception is the IndexError, the ValueError of line 107, the broadcast error or a KeyError of a colour |
| SatLib.StretchAndStack | src/a301_extras/sat_lib.py:105-114 | fails exactly with StretchFailure's exception: the IndexError of equalize_hist, the ValueError of a single-row or single-column mask, or the channel loop's error; otherwise a new 3 x rows x cols array whose channel k is the quantised, equalised grid of band k |
| SatLib.FalseColorChannels | src/a301_extras/sat_lib.py:100-114 | fails exactly with ChannelsFailure's exception: the TypeError of make_bool_mask (floating-point or 1 x 1 fmask) or the error of lines 105-114; otherwise a new 3 x rows x cols array whose channel k is the quantised, equalised grid of band k, the mask being the usable-pixel grid of fmask |
| SatLib.ShapeKeepingChannelsFit | src/a301_extras/sat_lib.py:106-114 | when equalize_hist and img_as_ubyte keep the shape of the grid they are given and the bands have the mask's shape, the channel loop raises nothing |
| SatLib.FalseColorAttrs | src/a301_extras/sat_lib.py:118-122 | the result's keys are the whitelisted keys present in the source plus `history` and `landsat_rgb_bands`; kept values are unchanged; the two synthetic values are the fixed history text and the band-name list |
| SatLib.FalseColorAttrsIdempotent | src/a301_extras/sat_lib.py:118-122 | filtering a composite's attributes again gives the same attributes |
| SatLib.BandNumber | src/a301_extras/sat_lib.py:123 | `int(name[-1])`: IndexError for an empty name, a ValueError naming the last character when it is not a digit, otherwise the digit 0..9 that the last character spells |
| SatLib.BandNumbers | src/a301_extras/sat_lib.py:123 | succeeds exactly when every name has a band number, giving one digit 0..9 per name in order; otherwise the error is that of the first name that fails |
| SatLib.BandNumberOfLastDigit | src/a301_extras/sat_lib.py:123 | a name ending in digit d has band number d, whatever precedes it |
| SatLib.MetadataFailure | src/a301_extras/sat_lib.py:123-130 | no exception exactly when every band name ends in a digit, `y` and `x` exist among the coordinates, there are three band names and the `y` and `x` lengths match the grid; any exception is an IndexError, a ValueError of `int()`, a KeyError for `y` or `x`, or the size conflict |
| SatLib.FalseColorFailure | src/a301_extras/sat_lib.py:89-130 | the first exception of make_false_color: a band missing among the first three names wins over everything, then a missing fmask; when there is none, three band names are all present and fmask holds integers |
| SatLib.FalseColorFailureNone | src/a301_extras/sat_lib.py:89-130 | for a dataset with exactly one CRS, no exception exactly when three bands are named and present, fmask holds integers, has more than one row and more than one column and has the shape of every band, every quantised channel has fmask's shape, every name ends in a digit, and y and x exist with fmask's row and column counts |
| SatLib.MakeFalseColor | src/a301_extras/sat_lib.py:64-133 | for a dataset with exactly one CRS, fails exactly with the first exception the code meets, in the order listed above; on success, three band names, all present, and an integer fmask; a new 3 x nrows x ncols uint8 array shaped like fmask, whose channel k is the quantised grid of `band_names[k]` equalised over the usable pixels of fmask; the whitelisted attributes; the band numbers; the y and x coordinates of the dataset |

## Left out

- `the_ds.squeeze()` (line 89) is modelled only through its effect on shapes: the TypeError of a 1 x 1 fmask, the IndexError of equalize_hist and the ValueError of line 107. Whenever an axis of fmask has length 1, the code fails with one of these before it reads `y` and `x`, so what squeeze would do to those coordinates is not reached.
- MakeFalseColor: the rioxarray calls for the CRS and the affine transform (lines 98-99 and 131-132) are not modelled, nor are their exceptions:
  - `Dataset.rio.crs` raises `RioXarrayError` when the bands carry different CRSs;
  - `false_color.rio.write_crs(crs, inplace=True)` raises `MissingCRS` when the dataset has no CRS, because `crs` is then None.
  The exception list and the "if and only if" of `SatLib.FalseColorFailureNone` therefore hold only for a dataset with exactly one CRS.
- MakeFalseColor: `the_ds["y"]` and `the_ds["x"]` (line 124) are looked up among the dataset's coordinates only. For a dimension without a coordinate, the model raises KeyError, whereas xarray returns a default 0..n-1 index.
- `exposure.equalize_hist` and `img_as_ubyte` (lines 106 and 114): foreign skimage routines, modelled as caller-supplied functions. The model includes their mask-shape IndexError. It leaves out any other error they raise, such as one for a mask that selects no pixel.
- MakeFalseColor: does not require the two routines to keep the shape of their input, so its contract also covers a broadcast error in the channel loop. `SatLib.ShapeKeepingChannelsFit` shows that with shape-keeping routines this error cannot occur.
- The order of attributes in the composite's dict: attributes are modelled as a map.
- Labeled.Raster: the only integer dtype is uint8. An int16 band or a uint16 grid with values above 255 can only be given as floating point. For such a band the Equalizer then receives `FloatPixels` where skimage would bin integers. For such an fmask the model raises TypeError, though `np.bitwise_and` accepts it.
- Numpy broadcasting of size-1 axes: any shape difference is modelled as a broadcast error, in `mask_image`'s product and in the slice write of line 114.
- float32 rounding: cell values are reals, so NaN is the only special value.
- xarray alignment when building a Dataset (lines 28-29): all bands are taken to share one grid. `make_dataset` keeps each band's own variable as given.
- `the_ds[name]` resolving to a coordinate rather than a data variable: band names are looked up among the data variables only.
- SatLib.BandNumbers: `int()` also accepts non-ASCII decimal digits; only `'0'..'9'` are modelled as digits.
- The `.data` of a numpy array in `make_bool_mask` (line 48, applied to the array that line 100 passes): this is a buffer over the same cells. The model passes the grid itself.
- `src/a301_extras/thermo_utils.py` (floating-point scale-height formulas), `src/a301_plots/plot_utils.py` (file I/O, coordinate transforms, matplotlib palettes) and `src/__init__.py` (version probing) are not part of this model.
