# Selfhago editing core in Dafny

This project models the bookkeeping and arithmetic that the Selfhago photo
editor runs around its image filters, and proves properties of that model:

- **Undo and redo history.** `HistoryManager` keeps parallel lists of images,
  source images and filter states, plus an index of the next state. Writing a
  state appends it, overwrites the previous entry, or branches off after an
  undo and drops the redo tail. Undo and redo move the index.
- **LUT cube.** `LUTCube` caches the lookup table by name. `getCubeData`
  reshapes a tiled lookup bitmap into a flat colour cube of 64³ texels.
- **Filter catalogue.** `FilterCategory` parses a category from a raw name,
  trying five enumerations in a fixed order. It also holds the slider range
  tables, the slider counts and the crop-ratio presets.
- **Editing state.** `EditingState` covers the filter-instance cache, the image
  size, the view finder placed for an aspect ratio, and the change flags of
  the control values.
- **Filter parameters.** The rules that turn parameters into kernel arguments:
  - `ColorChannel`: the brightness boundaries shifted by luminance;
  - `Bilateral`: the largest face region and the minimum distance derived from
    the image size;
  - `SobelOutline`: the kernel tables, the weights and bias, and the
    pass-through when both parameters are zero;
  - `TextMask`: where the label is placed and how its font is scaled;
  - `CIVector.multiply`: scaling a vector by a factor.
- **Image statistics.** `ImageAnalyst` computes the average luminance of an RGBA
  buffer. It normalises a depth map in place, and derives a depth mask for a
  focus depth.
- **Preview gestures.** `GestureDelegate` handles zoom to fit, pinch, pan, drag
  and double tap. It computes the panable space and the clamp that pulls an
  over-panned image back. The preview also shrinks a rotated image.
- **Controls.** `QuadAngleControl` drags one corner of a quadrilateral whose
  edges encode two ranges. `CustomSlider` converts a knob position to a value
  and back. The control views normalise a value into [0, 1] and back.
- **Locale.** `LocaleManager` parses a language code from an identifier.

CGFloat and Double are modelled as exact `real`, and image bytes as `int`
values in 0..255. A CIImage is a symbolic `Image` term (`CoreTypes.Image`). A
filter's output is the kernel name applied to its inputs and arguments over an
extent, so a contract can say which arguments a kernel receives. A value passed
through `setValue(_:forKey:)` is a `CoreTypes.Value`: Swift's `Any`, tagged by
its dynamic type. Objects whose fields the source updates in place are classes.
Their methods state the whole new state. The pure parts are functions, with
lemmas relating them.

The kernels themselves (bilateral smoothing, channel remapping and the rest) are
declared in the source's shader headers without bodies; only the host-side code
that prepares their arguments is modelled. `Bilateral.swift` passes the corners
(minX, maxX, minY, maxY) of the largest detected face rectangle as the kernel's
`face` argument.

## Model

| member | source | states |
|---|---|---|
| History.KindFromRaw | Selfhago/ViewModel/HistoryManager.swift:167-183 | a raw name parses to the filter kind with that raw name, and to nothing when no kind has it |
| History.KindRoundTrip | Selfhago/ViewModel/HistoryManager.swift:167-183 | every filter kind parses back from its own raw name |
| History.SameFilterByRawNames | Selfhago/ViewModel/HistoryManager.swift:185-195 | the custom `==` holds exactly when the raw names agree and neither is "unManaged"; isUnmanaged is a raw-name comparison |
| History.SameFilter | Selfhago/ViewModel/HistoryManager.swift:185-191 | equal filters only, and a filter equals itself exactly when it is not unManaged |
| History.UnmanagedEqualsNothing | Selfhago/ViewModel/HistoryManager.swift:185-191 | unManaged equals no filter, itself included, on either side |
| History.StateFromKey | Selfhago/ViewModel/HistoryManager.swift:253-259 | a state is built exactly for a key naming a filter kind, with that kind and empty before/after maps |
| History.CaptureState | Selfhago/ViewModel/HistoryManager.swift:202-242 | the captured map holds exactly the filter's capture keys that have a value, with that value; unManaged captures nothing |
| History.AfterWrite | Selfhago/ViewModel/HistoryManager.swift:119-147 | with the intended branch choice of Findings row 3, after a write there is one more image than states, the index is in 1..count so undo is possible, the written image and state sit at the index, the entries before it are kept, and an unmanaged state adds its image as a source |
| History.OverwriteKeepsShape | Selfhago/ViewModel/HistoryManager.swift:130-145 | re-writing the filter of the previous entry replaces that entry: the list lengths and the index stay the same |
| History.WriteDropsRedoTail | Selfhago/ViewModel/HistoryManager.swift:125-151 | a write that appends or branches off leaves nothing to redo |
| History.WriteAfterUndoTruncates | Selfhago/ViewModel/HistoryManager.swift:136-151 | after an undo, writing a different filter discards the redo tail and ends at the written state |
| History.UnmanagedWriteAtEndAppends | Selfhago/ViewModel/HistoryManager.swift:122-128 | the intended behaviour of Findings row 3: an unmanaged write at the end of the history always appends |
| History.AfterWriteSteps | Selfhago/ViewModel/HistoryManager.swift:125-143 | the list operations of each of the three branches produce the lists of AfterWrite |
| History.WriteEntries | Selfhago/ViewModel/HistoryManager.swift:125-145 | with line 126 read as the negation of the custom `==` (the corrected half of Findings row 3), the branch statements of writeHistory compute AfterWrite's image list, state list and index |
| History.RawValuesDifferIsInequality | Selfhago/ViewModel/HistoryManager.swift:126 | the raw-value `!=` that line 126 compiles to is plain inequality of the filters, and it disagrees with the negated custom `==` exactly when both filters are unManaged |
| History.BranchAsWrittenDiverges | Selfhago/ViewModel/HistoryManager.swift:125-143 | the branch choice as written traps exactly when an unmanaged write follows an unmanaged last entry with nothing to redo, where the intended choice appends; everywhere else the two choose the same branch |
| History.CropTwiceTraps | Selfhago/ViewModel/HistoryManager.swift:125-138 | a loaded image cropped once appends one unmanaged entry; a second crop then reaches the out-of-range assignment of line 138, where the intended write appends a second entry |
| History.WriteEntriesAsWritten | Selfhago/ViewModel/HistoryManager.swift:125-143 | the branch statements as written trap exactly in the case BranchAsWrittenDiverges names, and otherwise compute AfterWrite's image list, state list and index |
| History.AfterUndo | Selfhago/ViewModel/HistoryManager.swift:66-74 | undo moves the index back by one, returns the state it passed, keeps the image and state lists (an unmanaged state pushes the current image as a source), and leaves something to redo |
| History.AfterRedo | Selfhago/ViewModel/HistoryManager.swift:76-84 | redo moves the index forward by one, returns the state it passed, keeps the image and state lists (an unmanaged state pushes the current image as a source), and leaves something to undo |
| History.UndoThenRedo | Selfhago/ViewModel/HistoryManager.swift:66-84 | undo then redo restores the index and both return the same state |
| History.RedoThenUndo | Selfhago/ViewModel/HistoryManager.swift:66-84 | redo then undo restores the index and both return the same state |
| History.HistoryManager.constructor | Selfhago/ViewModel/HistoryManager.swift:155-162 | a new manager has empty lists, index 0, both flags false and nothing cached |
| History.HistoryManager.SourceImage | Selfhago/ViewModel/HistoryManager.swift:26-28 | the last source image, or the empty image when there is none |
| History.HistoryManager.CurrentImage | Selfhago/ViewModel/HistoryManager.swift:30-32 | the image on screen is one of the history's images: the last one when there is nothing to redo, and the loaded image before any state is in effect |
| History.HistoryManager.PreviousImage | Selfhago/ViewModel/HistoryManager.swift:34-36 | the image before the current one, present exactly when the index is positive |
| History.HistoryManager.SetRedoAndUndo | Selfhago/ViewModel/HistoryManager.swift:149-152 | the flags become "states beyond the index" and "index positive"; nothing else changes |
| History.HistoryManager.ClearHistory | Selfhago/ViewModel/HistoryManager.swift:42-51 | every list is emptied, the index is 0, both flags are false and the cached filter, image and state are cleared |
| History.HistoryManager.Reset | Selfhago/ViewModel/HistoryManager.swift:53-59 | no states remain and the index is 0; only the first source image is kept, as the one image and the one source |
| History.HistoryManager.SetImage | Selfhago/ViewModel/HistoryManager.swift:61-64 | the image becomes the only image and the only source; after clearHistory this makes the history well formed with the image current |
| History.HistoryManager.Undo | Selfhago/ViewModel/HistoryManager.swift:66-74 | the manager's lists, index and flags are those of AfterUndo, and it returns AfterUndo's state |
| History.HistoryManager.Redo | Selfhago/ViewModel/HistoryManager.swift:76-84 | the manager's lists, index and flags are those of AfterRedo, and it returns AfterRedo's state |
| History.HistoryManager.IsCurrentEditingFilter | Selfhago/ViewModel/HistoryManager.swift:86-93 | true exactly when the filter was the last one asked about; afterwards it is the last one |
| History.HistoryManager.ChangeCurrentState | Selfhago/ViewModel/HistoryManager.swift:95-109 | without a built state the current state is unManaged; with one, its before-values come from the last history entry of the same filter or else from the captured values |
| History.HistoryManager.DetachCurrentState | Selfhago/ViewModel/HistoryManager.swift:111-117 | returns the current state, or nil |
| History.HistoryManager.WriteHistory | Selfhago/ViewModel/HistoryManager.swift:119-147 | with the intended branch choice of Findings row 3, the lists and index become AfterWrite of the old ones, the history stays well formed, undo is possible and the last filter is forgotten |
| History.RepeatedQueryIsCurrent | Selfhago/ViewModel/HistoryManager.swift:86-93 | asking twice about the same filter answers true the second time |
| History.UndoRedoClient | Selfhago/ViewModel/HistoryManager.swift:66-84 | undo followed by redo on a manager restores its index and lists and yields the same state twice |
| LutCube.CubeIndexInjective | Selfhago/Model/Filter/CiFilter/LUTCube.swift:131 | distinct (tile, line, column, channel) give distinct write indices, so no cube component is written twice |
| LutCube.SourceTexelInjective | Selfhago/Model/Filter/CiFilter/LUTCube.swift:125-152 | distinct loop iterations read distinct bitmap texels |
| LutCube.IndexBounds | Selfhago/Model/Filter/CiFilter/LUTCube.swift:125-158 | every write index and every read index stays below 4·rowNum·columnNum·d² |
| LutCube.SizeBounds | Selfhago/Model/Filter/CiFilter/LUTCube.swift:113-118 | when rowNum·columnNum ≤ 4d, all writes fit in the dataSize array and all reads fit in the bitmap |
| LutCube.DataOffset | Selfhago/Model/Filter/CiFilter/LUTCube.swift:131 | the source's dataOffset formula, with z kept as the running tile number, is the write index of channel 0 |
| LutCube.CopyTexel | Selfhago/Model/Filter/CiFilter/LUTCube.swift:133-152 | the four component writes of one texel extend the copied prefix by one texel, each component being its byte over 255 |
| LutCube.GetCubeData | Selfhago/Model/Filter/CiFilter/LUTCube.swift:103-165 | the nested loops return d³·4 components: each bitmap byte over 255 at its reshaped index, zero past the rowNum·columnNum tiles, all in [0, 1]; they read 4·rowNum·columnNum·d² bytes, all inside the bitmap, which is the whole cube when there are d tiles |
| LutCube.LUTCube.constructor | Selfhago/Model/Filter/CiFilter/LUTCube.swift:16-21 | no image, name, data or cached output; intensity 1; no forced refresh |
| LutCube.LUTCube.SetValue | Selfhago/Model/Filter/CiFilter/LUTCube.swift:24-44 | a new LUT name drops the cached data and output while the same name keeps them; each key takes a value of its own type only; the image key clears the image on a value of another type |
| LutCube.LUTCube.ValueFor | Selfhago/Model/Filter/CiFilter/LUTCube.swift:46-54 | the stored name and intensity read back, and nil for any other key |
| LutCube.LUTCube.OutputImage | Selfhago/Model/Filter/CiFilter/LUTCube.swift:56-94 | without a name the input passes through; without an input or a LUT image the output is nil; otherwise the cube is built once, the colour-cube output is cached unless refresh is forced, and the output is the transport kernel over input, cached output and intensity |
| FilterCategories.DrawableFromRaw | Selfhago/Model/FilterCategory.swift:104-106 | parses exactly the raw names of the drawable controls |
| FilterCategories.CropRatioPreset.Ratio | Selfhago/Model/FilterCategory.swift:199-216 | every preset's ratio is positive and is the table's, except that the 16:9 preset gives 16/9 |
| FilterCategories.RatioMatchesName | Selfhago/Model/FilterCategory.swift:159-167 | each preset's ratio is the width over the height that its name "h⟨w⟩v⟨h⟩" spells |
| FilterCategories.RatioAsWrittenMismatch | Selfhago/Model/FilterCategory.swift:213-214 | the table as written gives the 16:9 preset a ratio other than 16/9 |
| FilterCategories.PresetOrientation | Selfhago/Model/FilterCategory.swift:169-174 | horizontal presets have ratio ≥ 1, vertical ones ≤ 1, and every preset is in one of the lists |
| FilterCategories.DistortionFromRaw | Selfhago/Model/FilterCategory.swift:127-130 | parses exactly the raw names of the distortion controls |
| FilterCategories.MultiSliderFilterControl.TunableFactors | Selfhago/Model/FilterCategory.swift:251-267 | the slider count is zero exactly for the outline filter |
| FilterCategories.OutlineFilter.TunableFactor | Selfhago/Model/FilterCategory.swift:359-366 | two sliders for the colour outline and three for the grayscale one, each with a valid range |
| FilterCategories.SliderCounts | Selfhago/Model/FilterCategory.swift:251-267 | gamma has seven sliders, each colour channel four, bilateral two, vignette and the text stamp three, and the outline none |
| FilterCategories.MultiSliderFromRaw | Selfhago/Model/FilterCategory.swift:220-228 | parses exactly the raw names of the multi-slider controls |
| FilterCategories.OnOffFromRaw | Selfhago/Model/FilterCategory.swift:390-391 | parses exactly the raw name of the on/off filter |
| FilterCategories.SingleSliderFromRaw | Selfhago/Model/FilterCategory.swift:440-447 | parses exactly the raw names of the single-slider controls |
| FilterCategories.RangesAreValid | Selfhago/Model/FilterCategory.swift:269-314 | every range the multi-slider, outline and single-slider tables give, for any slider index, has lower ≤ upper, so building it never traps |
| FilterCategories.RawNamesDisjoint | Selfhago/Model/FilterCategory.swift:63-101 | no raw name belongs to two of the five enumerations, so the lookup order never matters |
| FilterCategories.CategoryFromRaw | Selfhago/Model/FilterCategory.swift:63-101 | a category is built exactly for a raw name of one of the five enumerations; its sub-category is that name, and it has a source image exactly for "backgroundTone" |
| FilterCategories.CategoryRoundTrip | Selfhago/Model/FilterCategory.swift:63-101 | every control's raw name parses back to that control |
| FilterCategories.SameCategoryIsEquality | Selfhago/Model/FilterCategory.swift:50-56 | for parsed categories, `==` (sub-category equality) holds exactly when the two categories are equal, and exactly when their ids are |
| FilterCategories.CategoryListsParse | Selfhago/Model/FilterCategory.swift:12-42 | every name in allCategories parses, so the force unwrap never fails; the recording list is a sub-list; allCategories has no repeats |
| EditingStateModel.DefaultIsUnchanged | Selfhago/ViewModel/EditingState.swift:229-278 | the default control values raise no change flag |
| EditingStateModel.ControlValue.IsBrightnessChanged | Selfhago/ViewModel/EditingState.swift:232-237 | a moved brightness slider raises the flag; otherwise it is raised exactly when all three colour channels differ from their defaults |
| EditingStateModel.ControlValue.IsSaturationChanged | Selfhago/ViewModel/EditingState.swift:239-246 | a moved saturation slider raises the flag; with equal channels it is raised exactly by that slider |
| EditingStateModel.ControlValue.IsContrastChanged | Selfhago/ViewModel/EditingState.swift:248-250 | raised exactly when contrast is not its default 1 |
| EditingStateModel.ControlValue.IsPainterChanged | Selfhago/ViewModel/EditingState.swift:252-254 | raised exactly when the painter radius is not its default 0 |
| EditingStateModel.ControlValue.IsToneCopyChanged | Selfhago/ViewModel/EditingState.swift:256-258 | raised exactly when the depth focus is not its default 0 |
| EditingStateModel.ControlValue.IsGlitterChanged | Selfhago/ViewModel/EditingState.swift:260-262 | raised exactly when some glitter angle has a radius |
| EditingStateModel.ControlValue.IsBilateralChanged | Selfhago/ViewModel/EditingState.swift:264-266 | raised exactly when the bilateral pair is not its default (0.1, 0.1) |
| EditingStateModel.ControlValue.IsVignetteChanged | Selfhago/ViewModel/EditingState.swift:268-270 | raised exactly when the vignette triple is not its default (0, 0, 0) |
| EditingStateModel.ControlValue.IsOutlineChanged | Selfhago/ViewModel/EditingState.swift:272-274 | raised exactly when the outline pair is not its default (0.1, 0.1) |
| EditingStateModel.ControlValue.IsLutChanged | Selfhago/ViewModel/EditingState.swift:276-278 | raised exactly when a LUT is selected, the default being none |
| EditingStateModel.ChannelChangeFlags | Selfhago/ViewModel/EditingState.swift:232-246 | moving one colour channel raises the saturation flag but not the brightness flag; moving all three alike raises brightness but not saturation |
| EditingStateModel.ViewFinderRect | Selfhago/ViewModel/EditingState.swift:109-120 | a ratio below 1 gives a full-height rectangle and any other ratio a full-width one |
| EditingStateModel.ViewFinderShape | Selfhago/ViewModel/EditingState.swift:109-121 | the view finder has the requested width-to-height ratio and the image's centre |
| EditingStateModel.ViewFinderFits | Selfhago/ViewModel/EditingState.swift:109-120 | for a positive image and ratio, the view finder lies inside the image exactly when the ratio is on the side of the image's own ratio that its branch assumes (at most width/height below 1, at least it from 1 up); a square finder on a landscape image overhangs |
| EditingStateModel.EditingState.constructor | Selfhago/ViewModel/EditingState.swift:180-190 | default controls, an empty filter cache, no image size |
| EditingStateModel.EditingState.OriginalRatio | Selfhago/ViewModel/EditingState.swift:47-53 | present exactly when the size is known, and then width over height |
| EditingStateModel.EditingState.SetImageSize | Selfhago/ViewModel/EditingState.swift:67-70 | the size is stored and the view finder becomes the whole image; nothing else changes |
| EditingStateModel.EditingState.GetFilter | Selfhago/ViewModel/EditingState.swift:72-79 | the filter under the key (the CoreImage name, else the type name) is created only if missing and is what is returned |
| EditingStateModel.EditingState.GetMetalFilter | Selfhago/ViewModel/EditingState.swift:81-88 | the same cache keyed by the type name: created once, returned thereafter |
| EditingStateModel.EditingState.Reset | Selfhago/ViewModel/EditingState.swift:90-95 | default controls and an empty filter cache |
| EditingStateModel.EditingState.ClearTextIfDefault | Selfhago/ViewModel/EditingState.swift:97-101 | the stamp text is emptied only while it is the default text |
| EditingStateModel.EditingState.SetViewFinderRatio | Selfhago/ViewModel/EditingState.swift:103-122 | without a ratio or a size only the ratio is cleared; otherwise the rectangle is ViewFinderRect and the ratio is stored |
| EditingStateModel.GetFilterTwice | Selfhago/ViewModel/EditingState.swift:72-79 | asking twice for the same key returns the same instance |
| EditingStateModel.PlaceViewFinder | Selfhago/ViewModel/EditingState.swift:103-122 | after a ratio is set on a known image, the view finder has that ratio and the image's centre |
| ColorChannelFilter.SelectedValues | Selfhago/Model/Filter/ColorChannel.swift:33 | four values in the order black, shadow, highlight, white, each the given one or 0 when missing |
| ColorChannelFilter.RangesProperties | Selfhago/Model/Filter/ColorChannel.swift:68-73 | the lowest boundary is ≥ 0 and the highest ≤ 1, the middle two stay 0.3 apart, mid-grey gives the default boundaries; a brighter image raises the shadow boundary and keeps white at 1, a darker one lowers it and keeps black at 0 |
| ColorChannelFilter.ColorChannel.constructor | Selfhago/Model/Filter/ColorChannel.swift:18-22 | no image, zero values for every component, luminance 0.5 |
| ColorChannelFilter.ColorChannel.SetValue | Selfhago/Model/Filter/ColorChannel.swift:24-28 | only the image key has an effect, clearing the image on a value of another type |
| ColorChannelFilter.ColorChannel.SetValueFor | Selfhago/Model/Filter/ColorChannel.swift:30-43 | the component gets SelectedValues, the others keep theirs, and the luminance changes only when one is given |
| ColorChannelFilter.ColorChannel.ValueFor | Selfhago/Model/Filter/ColorChannel.swift:45-58 | red, green, blue and the luminance read back by name, and nil for other keys |
| ColorChannelFilter.ColorChannel.OutputImage | Selfhago/Model/Filter/ColorChannel.swift:60-86 | nil exactly without an input; otherwise the colorChannel kernel over the input and its extent, whose arguments are the red, green and blue vectors as stored, each at its component's position, followed by the shifted boundaries |
| ColorChannelFilter.SetThenRead | Selfhago/Model/Filter/ColorChannel.swift:30-86 | values stored for any component read back under its name, the other components are unchanged, and with an input image they are that component's vector among the kernel's arguments |
| BilateralFilter.TruncLog10 | Selfhago/Model/Filter/Bilateral.swift:38 | `Int(log10 x)` truncates toward zero: 10^k ≤ x < 10^(k+1) at or above 1, and the mirrored bounds on 1/x below 1 |
| BilateralFilter.TenthPower | Selfhago/Model/Filter/Bilateral.swift:39 | 0.1^k is positive; it is 1/10^k for k ≥ 0 and 10^(-k) below |
| BilateralFilter.Scale | Selfhago/Model/Filter/Bilateral.swift:38 | the larger of the truncated logarithms of width and height |
| BilateralFilter.MinimumDistanceMagnitude | Selfhago/Model/Filter/Bilateral.swift:36-40 | for an image at least one unit each way, the minimum distance is 10^-k, where 10^k is the order of magnitude of its larger side |
| BilateralFilter.MinimumDistance | Selfhago/Model/Filter/Bilateral.swift:36-40 | the minimum distance is positive, and at most 1 once either side is at least one unit |
| BilateralFilter.ThousandByEightHundred | Selfhago/Model/Filter/Bilateral.swift:36-40 | a 1000 × 800 extent gives minimum distance 0.001 |
| BilateralFilter.LargestRegion | Selfhago/Model/Filter/Bilateral.swift:43-45 | the region chosen is one of the regions, and no region has a larger area |
| BilateralFilter.FaceVector | Selfhago/Model/Filter/Bilateral.swift:41-53 | the corners of a region of greatest area, or all zeros for no regions |
| BilateralFilter.Bilateral.constructor | Selfhago/Model/Filter/Bilateral.swift:12-22 | zero face vector, both sigmas 0.1, minimum distance 1, no image |
| BilateralFilter.Bilateral.SetValue | Selfhago/Model/Filter/Bilateral.swift:24-55 | each key updates its own field from a value of its own type only: the image key (cleared by other types), the sigmas, the minimum distance from an extent, and the face vector from regions |
| BilateralFilter.Bilateral.ValueFor | Selfhago/Model/Filter/Bilateral.swift:56-65 | the two sigmas read back, and nil for every other key |
| BilateralFilter.Bilateral.OutputImage | Selfhago/Model/Filter/Bilateral.swift:67-85 | nil exactly without input; otherwise the bilateral kernel over the input and its extent, with face vector, sigmas and minimum distance as arguments |
| BilateralFilter.SigmaRoundTrip | Selfhago/Model/Filter/Bilateral.swift:24-65 | a sigma stored under its key reads back, and the other sigma is untouched |
| ImageAnalysis.PixelLuminance | Selfhago/ViewModel/ImageAnalyst.swift:42 | a pixel's luminance lies in [0, 1] |
| ImageAnalysis.LuminanceSumBounds | Selfhago/ViewModel/ImageAnalyst.swift:38-43 | the sum over n pixels lies in [0, n] |
| ImageAnalysis.GreySum | Selfhago/ViewModel/ImageAnalyst.swift:38-44 | a grey buffer of value v sums to n·v/255, since the weights add up to 1 |
| ImageAnalysis.AverageLuminanceProperties | Selfhago/ViewModel/ImageAnalyst.swift:31-45 | the average luminance of a non-empty RGBA buffer lies in [0, 1], and is v/255 for a grey one |
| ImageAnalysis.ScanMin | Selfhago/ViewModel/ImageAnalyst.swift:157-174 | the scanned minimum is ≤ 1 and ≤ every pixel, and is 1 or one of the pixels |
| ImageAnalysis.ScanMax | Selfhago/ViewModel/ImageAnalyst.swift:157-174 | the scanned maximum is ≥ 0 and ≥ every pixel, and is 0 or one of the pixels |
| ImageAnalysis.ConstantMapHasEmptyRange | Selfhago/ViewModel/ImageAnalyst.swift:168-176 | a depth map of a single value in [0, 1] scans to an empty range |
| ImageAnalysis.NormalizedBounds | Selfhago/ViewModel/ImageAnalyst.swift:176-182 | a pixel between the scanned bounds normalises into [0, 1] |
| ImageAnalysis.ScanRow | Selfhago/ViewModel/ImageAnalyst.swift:169-173 | one row of the scan extends the running minimum and maximum to the pixels up to the row's end |
| ImageAnalysis.ScanDepth | Selfhago/ViewModel/ImageAnalyst.swift:168-174 | the first loop nest computes ScanMin and ScanMax of the width × height pixels |
| ImageAnalysis.NormalizeRow | Selfhago/ViewModel/ImageAnalyst.swift:178-181 | one row of the rewrite extends the rescaled prefix by the row, leaving the rest of the buffer as it was |
| ImageAnalysis.NormalizeRows | Selfhago/ViewModel/ImageAnalyst.swift:177-182 | the second loop nest rescales every pixel of the map once and touches nothing beyond it |
| ImageAnalysis.NormalizeDepthData | Selfhago/ViewModel/ImageAnalyst.swift:150-185 | every pixel becomes (p − min)/(max − min) of its old value, and every pixel then lies in [0, 1] |
| ImageAnalysis.NormalizedInUnit | Selfhago/ViewModel/ImageAnalyst.swift:157-182 | every rewritten pixel lies in [0, 1] because the scanned bounds enclose every pixel |
| ImageAnalysis.MaskValue | Selfhago/ViewModel/ImageAnalyst.swift:81-91 | the clamped mask value lies in [0, 1] |
| ImageAnalysis.DepthBias | Selfhago/ViewModel/ImageAnalyst.swift:81-82 | with slope 1 and width 0.5, the bias slope·(focus + (2/slope + width)/2) is the focus depth plus 1.25 |
| ImageAnalysis.DepthMatrixGivesMask | Selfhago/ViewModel/ImageAnalyst.swift:84-91 | the colour matrix of createDepthMask followed by the clamp maps every colour channel of a grey depth pixel to MaskValue, whatever its alpha |
| ImageAnalysis.MaskProfile | Selfhago/ViewModel/ImageAnalyst.swift:81-91 | the mask is opaque up to 0.25 beyond the focus, transparent from 1.25 beyond it, and linear in between |
| ImageAnalysis.FlipBoundingBox | Selfhago/ViewModel/ImageAnalyst.swift:52-56 | the flipped box keeps its size and x extent, and its y extent is mirrored in the unit square |
| ImageAnalysis.FlipTwice | Selfhago/ViewModel/ImageAnalyst.swift:52-56 | flipping a box twice gives it back |
| ImageAnalysis.ImageAnalyst.constructor | Selfhago/ViewModel/ImageAnalyst.swift:15-20 | luminance 0.5, no faces, depth image, source or size |
| ImageAnalysis.ImageAnalyst.Reset | Selfhago/ViewModel/ImageAnalyst.swift:22-28 | luminance back to 0.5, and faces, source, size and depth image cleared |
| ImageAnalysis.ImageAnalyst.CalcAverageLuminance | Selfhago/ViewModel/ImageAnalyst.swift:31-45 | the accumulator loop stores the mean pixel luminance, which lies in [0, 1]; without data nothing changes |
| ImageAnalysis.ImageAnalyst.ReceiveFaceObservations | Selfhago/ViewModel/ImageAnalyst.swift:49-58 | with face observations, the face regions become Vision's boxes, each flipped; with results of another type they are kept; nothing else changes |
| ImageAnalysis.ImageAnalyst.CreateDepthMask | Selfhago/ViewModel/ImageAnalyst.swift:74-99 | nil exactly without depth image or size; otherwise a colour clamp of a Lanczos rescale of the clamped depth matrix (slope −1 per channel, DepthBias as bias) over the depth image, whose factor times the depth image's larger side is the photo's larger side |
| ImagePreviewGestures.ScaleToFitFits | Selfhago/Preview/ImagePreview.swift:413-417 | at the fitting scale the image fits the view and fills one side, and no larger scale fits |
| ImagePreviewGestures.GetScaleToFit | Selfhago/Preview/ImagePreview.swift:413-417 | the smaller of the width and height ratios of the view to the image |
| ImagePreviewGestures.GestureDelegate.ZoomScale | Selfhago/Preview/ImagePreview.swift:224-226 | with no pinch in flight the zoom is the fixed zoom, and two positive factors give a positive zoom |
| ImagePreviewGestures.GestureDelegate.PanOffset | Selfhago/Preview/ImagePreview.swift:229-232 | with no pan in flight the offset is the fixed pan scaled by the zoom; no pan at all gives zero |
| ImagePreviewGestures.GestureDelegate.CalcPanableSpace | Selfhago/Preview/ImagePreview.swift:419-427 | nil exactly when the current zoom is at most the fitting scale; otherwise half the overhang of the zoomed image each way |
| ImagePreviewGestures.GestureDelegate.CheckExceedEdge | Selfhago/Preview/ImagePreview.swift:429-432 | with a non-negative panable space, an edge is exceeded only by a non-zero pan |
| ImagePreviewGestures.GestureDelegate.CalcMaximumOffset | Selfhago/Preview/ImagePreview.swift:434-449 | the offset, scaled back by the zoom, equals the current pan exactly when no edge is exceeded, and with a non-negative space it never exceeds the space |
| ImagePreviewGestures.ClampKeepsOnlyInsidePan | Selfhago/Preview/ImagePreview.swift:429-449 | the clamp leaves a pan in place exactly when the pan does not exceed the space |
| ImagePreviewGestures.PanableSpace | Selfhago/Preview/ImagePreview.swift:419-427 | nil exactly when the zoom is at most the fitting scale; otherwise half the overhang each way, positive for a positive image |
| ImagePreviewGestures.ClampAxis | Selfhago/Preview/ImagePreview.swift:434-449 | a component within the space is kept, and one beyond it moves to the edge on its own side |
| ImagePreviewGestures.ClampOffset | Selfhago/Preview/ImagePreview.swift:434-449 | times the zoom, each component of calcMaxiumOffset is the clamped pan |
| ImagePreviewGestures.SettlePan | Selfhago/Preview/ImagePreview.swift:403-407 | the settled pan never exceeds the panable space, and a pan that did not exceed it is kept |
| ImagePreviewGestures.ClampedPanStaysInside | Selfhago/Preview/ImagePreview.swift:429-449 | with no pan in flight, the offset calcMaxiumOffset returns makes checkExceedEdge false |
| ImagePreviewGestures.GestureDelegate.constructor | Selfhago/Preview/ImagePreview.swift:222-237 | zero sizes and pans, both zoom scales 1 |
| ImagePreviewGestures.GestureDelegate.ZoomToFit | Selfhago/Preview/ImagePreview.swift:343-353 | the fixed pan is zero and the fixed zoom is the fitting scale |
| ImagePreviewGestures.GestureDelegate.PinchImage | Selfhago/Preview/ImagePreview.swift:355-375 | began and changed set the gesture scale; any other stage folds it into the fixed zoom and resets it to 1; an ended pinch never leaves the zoom below the fitting scale, and a snap-back clears the pan |
| ImagePreviewGestures.JoinedPan | Selfhago/Preview/ImagePreview.swift:286-288 | the joined pan differs from the fixed pan by the translation over the divisor (the zoom for the drag gesture, 1 for the two-finger pan) |
| ImagePreviewGestures.GestureDelegate.EndPan | Selfhago/Preview/ImagePreview.swift:393-407 | with panable space, the in-flight pan is cleared and the fixed pan becomes the old fixed pan plus the translation over the divisor, pulled back by SettlePan so that it no longer exceeds the space (kept as is when it fits); without, nothing moves |
| ImagePreviewGestures.GestureDelegate.PanImage | Selfhago/Preview/ImagePreview.swift:377-411 | began clears the in-flight pan; changed follows the translation only beyond 1.2 times the fitting zoom; ended, with panable space, makes the fixed pan the old one plus the translation, settled within the space by SettlePan |
| ImagePreviewGestures.GestureDelegate.DragChanged | Selfhago/Preview/ImagePreview.swift:273-280 | zoomed in beyond the fitting scale, the in-flight pan times the zoom is the translation; otherwise it is unchanged |
| ImagePreviewGestures.GestureDelegate.DragEnded | Selfhago/Preview/ImagePreview.swift:281-295 | with panable space, the in-flight pan is cleared and the fixed pan becomes the old fixed pan plus the translation over the zoom, settled within the space by SettlePan; without, nothing moves |
| ImagePreviewGestures.GestureDelegate.ZoomEnded | Selfhago/Preview/ImagePreview.swift:303-312 | the fixed zoom takes the gesture's scale, snapping back to the fitting zoom without pan when that is too small |
| ImagePreviewGestures.GestureDelegate.DoubleTap | Selfhago/Preview/ImagePreview.swift:260-269 | at the fitting zoom it doubles the zoom; at any other zoom it zooms back to fit |
| ImagePreviewGestures.ScaleByRotation | Selfhago/Preview/ImagePreview.swift:198-202 | the shrink factor for a rotation lies in [0.8, 1] |
| ImagePreviewGestures.TruncatingRemainder90 | Selfhago/Preview/ImagePreview.swift:199 | the remainder has the dividend's sign, is smaller than 90 in size, and differs from it by 90 times the truncated quotient |
| ImagePreviewGestures.RightAnglesUnscaled | Selfhago/Preview/ImagePreview.swift:198-202 | every multiple of 90 degrees gives factor 1 |
| ImagePreviewGestures.HalfRightAngleScaled | Selfhago/Preview/ImagePreview.swift:198-202 | 45 degrees gives the smallest factor, 0.8 |
| QuadAngle.Corner.RawValue | Selfhago/Helper/UI/QuadAngleControl.swift:246-251 | a corner's raw value indexes one of the four points |
| QuadAngle.SquareDistance | Selfhago/Helper/UI/QuadAngleControl.swift:238-240 | the squared distance is non-negative, and zero exactly for equal points |
| QuadAngle.SquareDistanceSymmetric | Selfhago/Helper/UI/QuadAngleControl.swift:238-240 | the squared distance does not depend on the order of the points |
| QuadAngle.GetCorner | Selfhago/Helper/UI/QuadAngleControl.swift:220-236 | the first corner, in the order top left, top right, bottom left, bottom right, within squared distance 0.1; none when no corner is that close |
| QuadAngle.TouchingCornerIsHit | Selfhago/Helper/UI/QuadAngleControl.swift:220-236 | a start location on a corner always hits that corner or an earlier one |
| QuadAngle.PointsFromRange | Selfhago/Helper/UI/QuadAngleControl.swift:262-273 | four points on the edges that carry the ranges: y is 0 or 1 in horizontal mode, x is 0 or 1 in vertical mode |
| QuadAngle.PointsRangesRoundTrip | Selfhago/Helper/UI/QuadAngleControl.swift:262-273 | ranges to points to ranges is the identity, and so is points on the edges to ranges to points |
| QuadAngle.RangesOfPoints | Selfhago/Helper/UI/QuadAngleControl.swift:262-273 | the inverse of getPointsFromRange: points on the edges are rebuilt exactly from the ranges it reads off them |
| QuadAngle.Clamp | Selfhago/Helper/UI/QuadAngleControl.swift:165 | the clamp lands between ordered limits and keeps a value already between them |
| QuadAngle.Partner | Selfhago/Helper/UI/QuadAngleControl.swift:149-162 | the corner sharing the dragged corner's range carries that range's other bound |
| QuadAngle.DragLimits | Selfhago/Helper/UI/QuadAngleControl.swift:149-162 | moving the dragged corner by the lower limit takes it to the square's near edge or to its partner, and by the upper limit to its partner or the far edge, according to which bound it carries |
| QuadAngle.RangesAfter | Selfhago/Helper/UI/QuadAngleControl.swift:173-198 | the dragged corner's bound (lower for a leading corner, upper otherwise) of its own range moves by the offset; the other range is unchanged |
| QuadAngle.LimitsKeepRangesInUnit | Selfhago/Helper/UI/QuadAngleControl.swift:147-162 | the drag limits bracket zero, and any offset between them keeps both ranges well formed and inside [0, 1]: the corner neither leaves the square nor passes its partner |
| QuadAngle.ClampedTranslationInLimits | Selfhago/Helper/UI/QuadAngleControl.swift:163-165 | the translation clamped to the limits scaled by the view's extent, divided back by that extent, lies within the limits |
| QuadAngle.Moved | Selfhago/Helper/UI/QuadAngleControl.swift:172-198 | a point moves by the offset along the drag direction and stays put across it |
| QuadAngle.DragMovesOneCorner | Selfhago/Helper/UI/QuadAngleControl.swift:172-198 | moving the dragged corner's range bound moves exactly that corner point |
| QuadAngle.EndedStateValid | Selfhago/Helper/UI/QuadAngleControl.swift:172-198 | after a drag within the limits, the moved points are the points of the updated ranges, which stay inside [0, 1] |
| QuadAngle.QuadAngleControl.Points | Selfhago/Helper/UI/QuadAngleControl.swift:14-17 | the four corner points, in raw-value order |
| QuadAngle.QuadAngleControl.constructor | Selfhago/Helper/UI/QuadAngleControl.swift:275-286 | the points are those of the given ranges, and no corner is being dragged |
| QuadAngle.QuadAngleControl.OnDragChanged | Selfhago/Helper/UI/QuadAngleControl.swift:139-166 | the dragged corner is GetCorner of the normalised start; if there is one, the translation is clamped so that, over the view's extent, it lies within the corner's limits; ranges and points are unchanged |
| QuadAngle.QuadAngleControl.OnDragEnded | Selfhago/Helper/UI/QuadAngleControl.swift:167-201 | the dragged corner's range bound and point move by the translation over the extent, the points stay those of the ranges, and no corner is being dragged any more |
| QuadAngle.Drag | Selfhago/Helper/UI/QuadAngleControl.swift:139-201 | a whole drag, whatever its start and translation, leaves the control well formed with ranges inside [0, 1] |
| TextMaskFilter.AlignmentFromRaw | Selfhago/Model/Filter/TextMask.swift:108-114 | parses exactly the raw names of the five placements |
| TextMaskFilter.TextAlignmentFor | Selfhago/Model/Filter/TextMask.swift:53-60 | left placements align left, right placements align right, and the centre centres |
| TextMaskFilter.NormalizeFactor | Selfhago/Model/Filter/TextMask.swift:48 | the factor lies in [1, 20]; it is the shorter side over 300 between 300 and 6000 |
| TextMaskFilter.GetOffset | Selfhago/Model/Filter/TextMask.swift:87-106 | the centre placement centres the label on the extent; corner placements touch the matching extent edges |
| TextMaskFilter.LabelInsideExtent | Selfhago/Model/Filter/TextMask.swift:87-106 | a label no larger than the extent lies inside it at every placement |
| TextMaskFilter.Translated | Selfhago/Model/Filter/TextMask.swift:83 | the translated label keeps its size and moves by the offset |
| TextMaskFilter.TextMask.constructor | Selfhago/Model/Filter/TextMask.swift:16-19 | no image or text, the 20-point system font, centred |
| TextMaskFilter.TextMask.SetValue | Selfhago/Model/Filter/TextMask.swift:22-40 | each key takes a value of its own type only; anything else leaves every field as it was |
| TextMaskFilter.TextMask.LabelFont | Selfhago/Model/Filter/TextMask.swift:48-52 | the label font keeps the descriptor and scales the size between 1 and 20 times |
| TextMaskFilter.TextMask.OutputImage | Selfhago/Model/Filter/TextMask.swift:42-85 | nil without image, text or rendered label; with all three, exactly the rendered label translated by GetOffset for the alignment, the input's extent and the label's size |
| TextMaskFilter.RenderedLabelInsideInput | Selfhago/Model/Filter/TextMask.swift:42-106 | a label rendered at the origin and no larger than the input lands inside the input's extent |
| NormalizeControl.NormalizeValue | Selfhago/Helper/NormalizeControlValue.swift:14-16 | the result times the range's width is the value's distance from the lower bound |
| NormalizeControl.DeNormalizeValue | Selfhago/Helper/NormalizeControlValue.swift:19-21 | 0 maps to the lower bound and 1 to the upper |
| NormalizeControl.RoundTrip | Selfhago/Helper/NormalizeControlValue.swift:14-21 | normalising and de-normalising are inverse both ways on a range of non-zero width |
| NormalizeControl.DeNormalizeInRange | Selfhago/Helper/NormalizeControlValue.swift:19-21 | a fraction in [0, 1] de-normalises into the range |
| NormalizeControl.Endpoints | Selfhago/Helper/NormalizeControlValue.swift:14-16 | the lower bound normalises to 0 and the upper to 1 |
| NormalizeControl.UnitInterval | Selfhago/Helper/NormalizeControlValue.swift:14-16 | a value is in the range exactly when its normalised value is in [0, 1], and normalising keeps order |
| CustomSliderControl.Convert | Selfhago/Helper/UI/CustomSlider.swift:80-88 | the result is at the same fraction of the target range as the value is of the source range; the bounds map to the bounds and the range to the range |
| CustomSliderControl.ConvertExample | Selfhago/Helper/UI/CustomSlider.swift:81 | 1 in 0...2 converts to 11 in 10...12 |
| CustomSliderControl.ConvertBack | Selfhago/Helper/UI/CustomSlider.swift:80-88 | converting into another range and back gives the value again |
| CustomSliderControl.CustomSlider.constructor | Selfhago/Helper/UI/CustomSlider.swift:97-104 | the value, range and knob width are stored |
| CustomSliderControl.CustomSlider.OnDragChange | Selfhago/Helper/UI/CustomSlider.swift:70-78 | the knob's leading edge, clamped to the track, is converted into the range and stored, so the stored value lies in the range |
| CustomSliderControl.CustomSlider.GetOffsetX | Selfhago/Helper/UI/CustomSlider.swift:90-95 | the value converted onto the track of a view at least as wide as the knob (a narrower one traps in the source); a value in the range puts the knob on the track |
| CustomSliderControl.DragToDrawnPosition | Selfhago/Helper/UI/CustomSlider.swift:70-95 | dragging the knob's centre to where the value is drawn stores that value again |
| CIVectorOps.Scaled | Selfhago/Helper/UI/CIVector.swift:11-22 | the scaled vector has the same count and component i is v[i]·factor |
| CIVectorOps.Multiply | Selfhago/Helper/UI/CIVector.swift:11-22 | the appending loop yields the scaled vector |
| CIVectorOps.ScaledByOne | Selfhago/Helper/UI/CIVector.swift:18 | multiplying by 1 leaves the vector unchanged |
| CIVectorOps.ScaledTwice | Selfhago/Helper/UI/CIVector.swift:18 | multiplying by a and then by b is multiplying by a·b |
| CIVectorOps.ScaledByZero | Selfhago/Helper/UI/CIVector.swift:18 | multiplying by 0 gives a vector of zeros of the same count |
| SobelFilter.KernelSize.Value | Selfhago/Model/Filters/Tunable/SobelEdgeDetection.swift:84-87 | the kernel size is 3 or 5 |
| SobelFilter.VerticalIsTransposed | Selfhago/Model/Filters/Tunable/SobelEdgeDetection.swift:13-65 | each vertical kernel is the transpose of the horizontal one, at 3 × 3 and at 5 × 5 |
| SobelFilter.KernelsSumToZero | Selfhago/Model/Filters/Tunable/SobelEdgeDetection.swift:13-65 | every kernel's entries sum to zero, before and after weighting |
| SobelFilter.SobelImage | Selfhago/Model/Filters/Tunable/SobelEdgeDetection.swift:94-106 | two convolutions cropped to the source: the first over the source with the horizontal kernel times the weight, followed by the bias, and the second over the first, whose weights are the vertical kernel times the weight, followed by the bias |
| SobelFilter.SobelOutline.constructor | Selfhago/Model/Filters/Tunable/SobelEdgeDetection.swift:136-138 | no image, bias and weight 0 |
| SobelFilter.SobelOutline.SetValue | Selfhago/Model/Filters/Tunable/SobelEdgeDetection.swift:108-121 | image, bias and weight each take a value of their own type only; anything else changes nothing |
| SobelFilter.SobelOutline.ValueFor | Selfhago/Model/Filters/Tunable/SobelEdgeDetection.swift:123-134 | bias, weight and the kernel size (3 or 5) read back, and nil for other keys |
| SobelFilter.SobelOutline.OutputImageAsWritten | Selfhago/Model/Filters/Tunable/SobelEdgeDetection.swift:67-82 | nil exactly without input; the 3 × 3 filter passes its input through at zero parameters, but the 5 × 5 filter always draws the outline |
| SobelFilter.SobelOutline.OutputImage | Selfhago/Model/Filters/Tunable/SobelEdgeDetection.swift:23-42 | nil exactly without input; the input itself when bias and weight are zero; otherwise the opaque outline over the input's extent |
| SobelFilter.FiveByFiveZeroParametersBlack | Selfhago/Model/Filters/Tunable/SobelEdgeDetection.swift:67-82 | as written, a 5 × 5 filter at zero parameters convolves with 25 zero weights and zero bias, while the pass-through version returns the input |
| SobelFilter.ParameterRoundTrip | Selfhago/Model/Filters/Tunable/SobelEdgeDetection.swift:108-134 | bias and weight read back as stored, and a value of the wrong type is ignored |
| Locale.LowerChar | Selfhago/Helper/LocaleManager.swift:21 | ASCII capitals become the small letter 32 code points on, and everything else stays |
| Locale.Lowercased | Selfhago/Helper/LocaleManager.swift:21-24 | the lower-case string has the same length and each character lower-cased |
| Locale.IdentifierParses | Selfhago/Helper/LocaleManager.swift:20-30 | exactly the four ASCII spellings of "ko" parse to ko and the four of "en" to en; every other identifier gives nil under ASCII lower-casing |
| Locale.FromIdentifier | Selfhago/Helper/LocaleManager.swift:20-30 | a code exactly when the lower-cased identifier is "ko" or "en"; then the identifier has two characters and is ko exactly when its first lower-cases to k |
| Locale.LocaleManager.constructor | Selfhago/Helper/LocaleManager.swift:11-12 | the language code starts as en |
| Locale.LocaleManager.CurrentLanguageCode | Selfhago/Helper/LocaleManager.swift:12-15 | always en, raw value 0, since the stored code is never reassigned |
| Locale.DefaultLanguage | Selfhago/Helper/LocaleManager.swift:12-15 | the current code of a fresh manager is en, with raw value 0 |

## Left out

- Kernel bodies, CoreImage rendering and UIKit/SwiftUI drawing are not modelled. The shader headers only declare the kernels. A filter's output is a symbolic `Image` term.
- Floating point: CGFloat, Double and Float are exact reals. NaN, infinities and rounding are not modelled. A division by zero that the source would turn into NaN or infinity becomes a precondition:
  - `NormalizeValue` and `Convert` require a source range of non-zero width;
  - `CustomSlider.OnDragChange` requires a view wider than the knob, since the track's width divides (see also the `GetOffsetX` line below);
  - `OriginalRatio` and `GetScaleToFit` require non-zero sizes;
  - `CreateDepthMask` requires a depth image with a non-zero side.
- ImageAnalysis.NormalizeDepthData: requires a scanned range other than zero. A depth map of one value makes the source divide zero by zero (see `ConstantMapHasEmptyRange`).
- ImageAnalysis.ImageAnalyst.CalcAverageLuminance: requires a buffer length that is a positive multiple of 4. For an empty buffer the source divides by zero.
- Vision, depth-data extraction (`extractDepthData`, `createDepthImage`, `createImageSource`), image I/O and haptics are outside the model. `ReceiveFaceObservations` stands for the Vision completion handler, and `CalcAverageLuminance` takes the byte buffer as a parameter.
- LutCube.LUTCube.OutputImage: requires the bundled LUT bitmap to have at most 4·64 tiles of 64 × 64 (`LutBitmap.Fits`). A larger image would make the source write past its array. `createBitmap` and `UIImage(named:)` are parameters.
- LutCube.GetCubeData: components are exact reals; Float rounding of `byte / 255` is not modelled. The source allocates d³·4·4 floats and keeps their first d³·4·4 bytes, that is d³·4 floats; the model returns those d³·4 components.
- WriteHistory: uses the intended branch choice of Findings row 3. A second unmanaged write at the end of the history appends in the model, while the source as written traps there; `WriteEntriesAsWritten` and `BranchAsWrittenDiverges` model that trap.
- History.AfterWrite: the overwrite branch (HistoryManager.swift:130-134) keeps any redo tail, as the source does. Only the branch-off case truncates.
- History.HistoryManager.CurrentImage requires a well-formed history. The source indexes `imageHistory` unchecked and would trap otherwise.
- `FilterState(from:)` inspects a CIFilter's dynamic type. `ChangeCurrentState` takes its result (and the captured values) as parameters, and its `specificKey!` force unwrap is not modelled.
- Asynchronous dispatch: `EditingState.reset` and `setNewImage` are dispatched to the main queue in the source. `Reset` is modelled as taking effect at once, and `setNewImage` (CGImage and orientation) is left out.
- EditingState's drawing tool, colours, font descriptor, haptics, `changeDrawingTool`, `resetDrawing`, `restoreFlip` and the PencilKit canvas are UI state. They are not part of this model.
- Bilateral: sorting faces by area keeps the first region of greatest area. When areas tie, the choice among them follows the sort's stability, which the model does not fix beyond "one of greatest area".
- Bilateral.SetValue: requires an extent of positive size. `Int(log10 x)` of a non-positive size traps in the source.
- The `onChange(of: isHorizontal)` handler of QuadAngleControl (lines 35-45) and its `onChanged` callback are not modelled. The callback notifies the owner.
- QuadAngle.QuadAngleControl.constructor: requires both ranges to be well formed and inside [0, 1]. The source accepts any ranges.
- QuadAngle.QuadAngleControl.OnDragEnded: its contract states the new ranges and that the points are again those of the ranges; that only the dragged point moved is stated by `EndedStateValid` and `DragMovesOneCorner`.
- QuadAngle.QuadAngleControl.OnDragChanged: requires a view of positive size.
- GetOffsetX and CustomSlider.OnDragChange: require a view at least as wide as the knob (OnDragChange: strictly wider). For a narrower view the source builds the track `0...(width − knob)` with its lower bound above its upper bound, and building that ClosedRange traps (CustomSlider.swift:72 and :92). GetOffsetX also requires a slider range of non-zero width, because that width divides.
- Locale.Lowercased: lower-cases ASCII letters only. Unicode case mapping is not modelled; for example, the Kelvin sign U+212A lower-cases to "k" in Swift.
- Locale.FromIdentifier: because of Lowercased, the identifiers "\u{212A}o" and "\u{212A}O" (Kelvin sign, then o) give nil in the model but ko in the source.
- Locale.IdentifierParses: lists only the ASCII spellings; "\u{212A}o" and "\u{212A}O" also parse to ko in the source.
- CustomSlider's layout (`createModifiers`) and the conversions between T and CGFloat are not modelled. The generic T is real.
- TextMask: the UILabel rendering (its size and pixels) is a parameter of `OutputImage`. Only the placement and the font scaling are modelled.
- Sobel: the `attributes` dictionaries of the filters are not modelled.
- ImagePreview: the single tap that clears the category is not modelled, and neither is `textLabelPosition`. The view finder offsets and the `panGesture.view` guard are not modelled either.
- The `allCategories` force unwrap is shown never to fail (`CategoryListsParse`). Label images and label strings are not modelled.

## Findings

| source | as written | input that shows it | evidently intended | confidence | as-written member | corrected member |
|---|---|---|---|---|---|---|
| Selfhago/Model/FilterCategory.swift:213-214 | the h16v9 preset's ratio is 19/9 | the preset `.h16v9` | 16/9, as its name and its "16:9" label say | high (not executed) | FilterCategories.CropRatioPreset.RatioAsWritten, shown by FilterCategories.RatioAsWrittenMismatch | FilterCategories.CropRatioPreset.Ratio, proved by FilterCategories.RatioMatchesName |
| Selfhago/Model/Filters/Tunable/SobelEdgeDetection.swift:67-82 | the 5 × 5 filter has no zero-parameter pass-through, unlike the 3 × 3 one (lines 29-32) | a 5 × 5 filter at its defaults, inputBias = inputWeight = 0 | return the input unchanged, as the 3 × 3 filter does; the FIXME at line 50 reports all-black output | low (not executed) | SobelFilter.SobelOutline.OutputImageAsWritten, shown by SobelFilter.FiveByFiveZeroParametersBlack | SobelFilter.SobelOutline.OutputImage |
| Selfhago/ViewModel/HistoryManager.swift:126 | `!=` on the String-backed `Filter` is the standard library's raw-value comparison of RawRepresentable values, not the negation of the custom `==` at lines 185-191; for two unManaged filters both are false, so the third branch runs and assigns `filterStateHistory[nextFilterIndex]` with the index equal to the count (line 138), which traps | a second unmanaged write at the end of the history, for example a crop (ImageEditor.swift:98) right after another crop | append the second unmanaged entry, as for any other filter that differs from the last | medium (not executed) | History.WriteEntriesAsWritten, shown by History.BranchAsWrittenDiverges and History.CropTwiceTraps | History.WriteEntries and History.AfterWrite, proved by History.UnmanagedWriteAtEndAppends |
