/**
 * The editor's undo/redo history. Three parallel lists hold the images
 * produced so far, the source images and the filter states. `nextFilterIndex`
 * counts the states that are in effect. `imageHistory[nextFilterIndex]` is
 * the image on screen.
 *
 * The transitions are first stated on the value `HistoryState`
 * (AfterWrite, AfterUndo, AfterRedo), where the lemmas about them live.
 * The class `HistoryManager` then performs the same steps in place, and
 * each method is proved to end in the state its transition describes.
 */
module History {
  import opened CoreTypes

  /** HistoryManager.FilterState.Filter */
  datatype FilterKind =
    | ColorChannel | Bilateral | Kuwahara | LUTCube | SobelEdgeDetection3x3
    | Vignette | Glitter | Brightness | Saturation | Contrast | KuwaharaMetal
    | Perspective | BackgroundToneRetouch | Sketch | GammaAdjustment | UnManaged
  {
    function RawValue(): string {
      match this
      case ColorChannel => "ColorChannel"
      case Bilateral => "Bilateral"
      case Kuwahara => "Kuwahara"
      case LUTCube => "LUTCube"
      case SobelEdgeDetection3x3 => "SobelEdgeDetection3x3"
      case Vignette => "Vignette"
      case Glitter => "Glitter"
      case Brightness => "brightness"
      case Saturation => "saturation"
      case Contrast => "contrast"
      case KuwaharaMetal => "KuwaharaMetal"
      case Perspective => "perspective"
      case BackgroundToneRetouch => "BackgroundToneRetouch"
      case Sketch => "Sketch"
      case GammaAdjustment => "GammaAdjustment"
      case UnManaged => "unManaged"
    }

    /** isUnmanaged */
    predicate IsUnmanaged() { this == UnManaged }
  }

  /** Filter(rawValue:) */
  function KindFromRaw(raw: string): (r: Option<FilterKind>)
    ensures r.Some? ==> r.value.RawValue() == raw
    ensures r.None? ==> forall k: FilterKind :: k.RawValue() != raw
  {
    if raw == "ColorChannel" then Some(ColorChannel)
    else if raw == "Bilateral" then Some(Bilateral)
    else if raw == "Kuwahara" then Some(Kuwahara)
    else if raw == "LUTCube" then Some(LUTCube)
    else if raw == "SobelEdgeDetection3x3" then Some(SobelEdgeDetection3x3)
    else if raw == "Vignette" then Some(Vignette)
    else if raw == "Glitter" then Some(Glitter)
    else if raw == "brightness" then Some(Brightness)
    else if raw == "saturation" then Some(Saturation)
    else if raw == "contrast" then Some(Contrast)
    else if raw == "KuwaharaMetal" then Some(KuwaharaMetal)
    else if raw == "perspective" then Some(Perspective)
    else if raw == "BackgroundToneRetouch" then Some(BackgroundToneRetouch)
    else if raw == "Sketch" then Some(Sketch)
    else if raw == "GammaAdjustment" then Some(GammaAdjustment)
    else if raw == "unManaged" then Some(UnManaged)
    else None
  }

  lemma KindRoundTrip(k: FilterKind)
    ensures KindFromRaw(k.RawValue()) == Some(k)
  {
  }

  /** The custom `==` of Filter: unManaged equals no filter, itself
      included; any other filter equals only itself. */
  predicate SameFilter(lhs: FilterKind, rhs: FilterKind)
    ensures SameFilter(lhs, rhs) ==> lhs == rhs
    ensures lhs == rhs ==> (SameFilter(lhs, rhs) <==> lhs != UnManaged)
  {
    lhs != UnManaged && rhs != UnManaged && lhs == rhs
  }

  /** The source states `==` and `isUnmanaged` on raw names; both agree with
      SameFilter and IsUnmanaged because the raw names are distinct. */
  lemma SameFilterByRawNames(lhs: FilterKind, rhs: FilterKind)
    ensures SameFilter(lhs, rhs) <==>
      if lhs.RawValue() == "unManaged" || rhs.RawValue() == "unManaged" then false
      else lhs.RawValue() == rhs.RawValue()
    ensures lhs.IsUnmanaged() <==> lhs.RawValue() == "unManaged"
  {
    KindRoundTrip(lhs);
    KindRoundTrip(rhs);
  }

  lemma UnmanagedEqualsNothing(k: FilterKind)
    ensures !SameFilter(UnManaged, k) && !SameFilter(k, UnManaged)
  {
  }

  /** FilterState: the filter and the parameter values before and after the edit. */
  datatype FilterState = FilterState(filter: FilterKind, beforeState: map<string, Value>, afterState: map<string, Value>)

  const UnManagedFilter := FilterState(UnManaged, map[], map[])

  /** FilterState(by:) */
  function StateFromKey(key: string): (r: Option<FilterState>)
    ensures r.Some? <==> KindFromRaw(key).Some?
    ensures r.Some? ==> r.value.filter.RawValue() == key && r.value.beforeState == map[] && r.value.afterState == map[]
  {
    match KindFromRaw(key)
    case Some(k) => Some(FilterState(k, map[], map[]))
    case None => None
  }

  /** The parameter keys captureState reads for each filter. */
  function CaptureKeys(k: FilterKind): seq<string> {
    match k
    case Brightness | Contrast | Saturation => [InputBrightnessKey, InputContrastKey, InputSaturationKey]
    case Bilateral => [InputRadiusKey, InputIntensityKey]
    case ColorChannel => ["red", "blue", "green", "averageLumiance"]
    case LUTCube => [InputMaskImageKey]
    case SobelEdgeDetection3x3 => [InputBiasKey, InputWeightsKey, InputScaleKey]
    case Sketch => ["inputThreshold", "inputNRNoiseLevel", "inputEdgeIntensity", InputColorKey, InputBackgroundImageKey]
    case Vignette => [InputIntensityKey, InputRadiusKey, InputBrightnessKey]
    case Glitter => [InputBrightnessKey, InputAngleKey]
    case Kuwahara | KuwaharaMetal => [InputRadiusKey]
    case BackgroundToneRetouch => [InputIntensityKey]
    case Perspective => ["inputTopLeft", "inputTopRight", "inputBottomLeft", "inputBottomRight"]
    case GammaAdjustment => [InputIntensityKey]
    case UnManaged => []
  }

  /** captureState(from:): the filter's value for each key; a key whose
      value is nil is absent, as assigning nil to a dictionary entry removes it.
      `lookup` stands for the captured filter's value(forKey:). */
  function CaptureState(k: FilterKind, lookup: string -> Option<Value>): (m: map<string, Value>)
    ensures forall key :: key in m ==> key in CaptureKeys(k) && lookup(key) == Some(m[key])
    ensures forall key :: key in CaptureKeys(k) && lookup(key).Some? ==> key in m
    ensures k == UnManaged ==> m == map[]
  {
    map key | key in CaptureKeys(k) && lookup(key).Some? :: lookup(key).value
  }

  // ---------------------------------------------------------------------
  // The history as a value

  datatype HistoryState = HistoryState(images: seq<Image>, sources: seq<Image>, states: seq<FilterState>, next: nat) {
    /** The shape every operation after setImage keeps: one image more than
        states (the first is the source image), and the index within the states. */
    predicate Loaded() { next <= |states| && |images| == |states| + 1 }
    /** setRedoAndUndo */
    predicate UndoAble() { next > 0 }
    predicate RedoAble() { |states| > next }
  }

  datatype WriteBranch = Append | Overwrite | Truncate

  /** Which of writeHistory's three branches runs. */
  function BranchOf(h: HistoryState, f: FilterKind): WriteBranch
    requires h.Loaded()
  {
    if |h.states| == 0 || (|h.states| == h.next && !SameFilter(h.states[h.next - 1].filter, f)) then Append
    else if h.next != 0 && SameFilter(h.states[h.next - 1].filter, f) then Overwrite
    else Truncate
  }

  /** writeHistory(filter:state:image:), on the history lists. */
  function AfterWrite(h: HistoryState, state: FilterState, image: Image): (r: HistoryState)
    requires h.Loaded()
    ensures r.Loaded() && r.UndoAble() && 0 < r.next <= |r.states|
    ensures r.images[r.next] == image && r.states[r.next - 1] == state
    ensures r.next <= |h.images| && r.images[..r.next] == h.images[..r.next]
    ensures r.states[..r.next - 1] == h.states[..r.next - 1]
    ensures r.sources == if state.filter.IsUnmanaged() then h.sources + [image] else h.sources
  {
    var sources := if state.filter.IsUnmanaged() then h.sources + [image] else h.sources;
    match BranchOf(h, state.filter)
    case Append =>
      HistoryState(h.images + [image], sources, h.states + [state], h.next + 1)
    case Overwrite =>
      HistoryState(h.images[h.next := image], sources, h.states[h.next - 1 := state], h.next)
    case Truncate =>
      HistoryState(h.images[..h.next + 1] + [image], sources, h.states[..h.next] + [state], h.next + 1)
  }

  /** Re-writing the filter of the previous entry replaces it in place. */
  lemma OverwriteKeepsShape(h: HistoryState, state: FilterState, image: Image)
    requires h.Loaded() && h.next > 0 && SameFilter(h.states[h.next - 1].filter, state.filter)
    ensures var r := AfterWrite(h, state, image);
      BranchOf(h, state.filter) == Overwrite &&
      |r.states| == |h.states| && |r.images| == |h.images| && r.next == h.next &&
      r.states[r.next..] == h.states[r.next..] && r.RedoAble() == h.RedoAble()
  {
  }

  /** Any write other than an overwrite leaves nothing to redo. */
  lemma WriteDropsRedoTail(h: HistoryState, state: FilterState, image: Image)
    requires h.Loaded() && BranchOf(h, state.filter) != Overwrite
    ensures var r := AfterWrite(h, state, image);
      r.next == |r.states| && !r.RedoAble() && r.next == h.next + 1
  {
  }

  /** After undo, writing a different filter branches off and discards the redo tail. */
  lemma WriteAfterUndoTruncates(h: HistoryState, state: FilterState, image: Image)
    requires h.Loaded() && h.next < |h.states|
    requires h.next == 0 || !SameFilter(h.states[h.next - 1].filter, state.filter)
    ensures BranchOf(h, state.filter) == Truncate
    ensures var r := AfterWrite(h, state, image);
      |r.states| == h.next + 1 && |r.images| == h.next + 2 && !r.RedoAble()
  {
  }

  /** Unmanaged edits (crop, rotate, flip, …) written at the end always
      append: the intended behaviour, which the branch choice as written
      misses when the last entry is unmanaged too (see BranchAsWritten). */
  lemma UnmanagedWriteAtEndAppends(h: HistoryState, state: FilterState, image: Image)
    requires h.Loaded() && h.next == |h.states| && state.filter == UnManaged
    ensures BranchOf(h, state.filter) == Append
    ensures var r := AfterWrite(h, state, image);
      |r.states| == |h.states| + 1 && r.states == h.states + [state] && r.images == h.images + [image] &&
      r.sources == h.sources + [image]
  {
  }

  // ---------------------------------------------------------------------
  // The branch choice as written
  //
  // `Filter` is backed by String raw values, so the `!=` of line 126 is the
  // standard library's raw-value comparison of RawRepresentable values, not
  // the negation of the custom `==`. For two unmanaged filters both are
  // false, and the third branch then writes at an index past the end.

  /** Line 126's `!=`: the raw names differ. */
  predicate RawValuesDiffer(lhs: FilterKind, rhs: FilterKind) {
    lhs.RawValue() != rhs.RawValue()
  }

  /** The raw-value `!=` is plain inequality, and it is not the negation of
      the custom `==` exactly when both sides are unmanaged. */
  lemma {:induction false} RawValuesDifferIsInequality(lhs: FilterKind, rhs: FilterKind)
    ensures RawValuesDiffer(lhs, rhs) <==> lhs != rhs
    ensures RawValuesDiffer(lhs, rhs) == !SameFilter(lhs, rhs) <==> !(lhs == UnManaged && rhs == UnManaged)
  {
    KindRoundTrip(lhs);
    KindRoundTrip(rhs);
  }

  /** Whether the history traps on a write of `f` as written: the history
      ends in an unmanaged entry with nothing to redo, and `f` is unmanaged. */
  predicate TrapsAsWritten(h: HistoryState, f: FilterKind)
    requires h.Loaded()
  {
    0 < h.next == |h.states| && h.states[h.next - 1].filter == UnManaged && f == UnManaged
  }

  /** writeHistory's branch choice as the source is compiled; None when the
      chosen branch assigns `filterStateHistory[nextFilterIndex]` with the
      index equal to the count, which traps. */
  function BranchAsWritten(h: HistoryState, f: FilterKind): Option<WriteBranch>
    requires h.Loaded()
  {
    if |h.states| == 0 || (|h.states| == h.next && RawValuesDiffer(h.states[h.next - 1].filter, f)) then Some(Append)
    else if h.next != 0 && SameFilter(h.states[h.next - 1].filter, f) then Some(Overwrite)
    else if h.next < |h.states| then Some(Truncate)
    else None
  }

  /** The branch choice as written traps exactly on the consecutive
      unmanaged writes at the end, and agrees with BranchOf everywhere else. */
  lemma {:induction false} BranchAsWrittenDiverges(h: HistoryState, f: FilterKind)
    requires h.Loaded()
    ensures BranchAsWritten(h, f).None? <==> TrapsAsWritten(h, f)
    ensures BranchAsWritten(h, f).Some? ==> BranchAsWritten(h, f).value == BranchOf(h, f)
    ensures TrapsAsWritten(h, f) ==> BranchOf(h, f) == Append
  {
    if |h.states| > 0 && h.next > 0 {
      RawValuesDifferIsInequality(h.states[h.next - 1].filter, f);
    }
  }

  /** A concrete history: an image is loaded, cropped once, then cropped
      again. The first crop appends; the second traps as written, where the
      intended write appends a second unmanaged entry. */
  lemma CropTwiceTraps(source: Image, cropped: Image, croppedAgain: Image)
    ensures var loaded := HistoryState([source], [source], [], 0);
      var once := AfterWrite(loaded, UnManagedFilter, cropped);
      BranchAsWritten(loaded, UnManaged) == Some(Append)
      && once == HistoryState([source, cropped], [source, cropped], [UnManagedFilter], 1)
      && BranchAsWritten(once, UnManaged).None?
      && AfterWrite(once, UnManagedFilter, croppedAgain).states == [UnManagedFilter, UnManagedFilter]
  {
    var loaded := HistoryState([source], [source], [], 0);
    var once := AfterWrite(loaded, UnManagedFilter, cropped);
    assert BranchOf(loaded, UnManaged) == Append;
    BranchAsWrittenDiverges(once, UnManaged);
  }

  /** The three branches of writeHistory as written, on the image and state
      lists. `trapped` reports the out-of-range assignment of the third
      branch; otherwise the lists and the index are those of AfterWrite. */
  method WriteEntriesAsWritten(h: HistoryState, state: FilterState, image: Image)
    returns (trapped: bool, images: seq<Image>, states: seq<FilterState>, next: nat)
    requires h.Loaded()
    ensures trapped <==> TrapsAsWritten(h, state.filter)
    ensures !trapped ==>
      var r := AfterWrite(h, state, image); images == r.images && states == r.states && next == r.next
  {
    BranchAsWrittenDiverges(h, state.filter);
    trapped := false;
    images, states := h.images, h.states;
    var n := h.next;
    if |states| == 0 || (|states| == n && RawValuesDiffer(states[n - 1].filter, state.filter)) {
      assert BranchAsWritten(h, state.filter) == Some(Append);
      images := images + [image];
      states := states + [state];
    } else if n != 0 && SameFilter(states[n - 1].filter, state.filter) {
      assert BranchAsWritten(h, state.filter) == Some(Overwrite);
      images := images[n := image];
      n := n - 1;
      states := states[n := state];
    } else if n < |states| {
      assert BranchAsWritten(h, state.filter) == Some(Truncate);
      states := states[n := state];
      images := images[n + 1 := image];
      states := RemoveLast(states, |states| - n - 1);
      images := RemoveLast(images, |images| - n - 2);
    } else {
      // `filterStateHistory[nextFilterIndex] = state` with the index equal to the count
      assert BranchAsWritten(h, state.filter).None?;
      trapped, next := true, n;
      return;
    }
    AfterWriteSteps(h, state, image, images, states, n);
    next := n + 1;
  }

  /** The steps writeHistory takes on its lists in each branch produce AfterWrite. */
  lemma AfterWriteSteps(h: HistoryState, state: FilterState, image: Image,
                        images: seq<Image>, states: seq<FilterState>, n: nat)
    requires h.Loaded()
    requires BranchOf(h, state.filter) == Append ==>
      images == h.images + [image] && states == h.states + [state] && n == h.next
    requires BranchOf(h, state.filter) == Overwrite ==>
      0 < h.next && images == h.images[h.next := image] && n == h.next - 1 && states == h.states[n := state]
    requires BranchOf(h, state.filter) == Truncate ==>
      h.next < |h.states| &&
      states == h.states[h.next := state][..h.next + 1] && images == h.images[h.next + 1 := image][..h.next + 2] &&
      n == h.next
    ensures var r := AfterWrite(h, state, image); images == r.images && states == r.states && n + 1 == r.next
  {
  }

  /** undo(): step back one state; an unmanaged state pushes the image now on screen as a source. */
  function AfterUndo(h: HistoryState): (r: (HistoryState, FilterState))
    requires h.Loaded() && h.UndoAble()
    ensures r.0.Loaded() && r.0.next == h.next - 1 && r.1 == h.states[h.next - 1]
    ensures r.0.images == h.images && r.0.states == h.states
    ensures r.0.sources == if r.1.filter.IsUnmanaged() then h.sources + [h.images[h.next - 1]] else h.sources
    ensures r.0.RedoAble()
  {
    var n := h.next - 1;
    var state := h.states[n];
    var sources := if state.filter.IsUnmanaged() then h.sources + [h.images[n]] else h.sources;
    (HistoryState(h.images, sources, h.states, n), state)
  }

  /** redo(): step forward one state. */
  function AfterRedo(h: HistoryState): (r: (HistoryState, FilterState))
    requires h.Loaded() && h.RedoAble()
    ensures r.0.Loaded() && r.0.next == h.next + 1 && r.1 == h.states[h.next]
    ensures r.0.images == h.images && r.0.states == h.states
    ensures r.0.sources == if r.1.filter.IsUnmanaged() then h.sources + [h.images[h.next + 1]] else h.sources
    ensures r.0.UndoAble()
  {
    var n := h.next + 1;
    var state := h.states[n - 1];
    var sources := if state.filter.IsUnmanaged() then h.sources + [h.images[n]] else h.sources;
    (HistoryState(h.images, sources, h.states, n), state)
  }

  /** Undo then redo returns to the same index, and both hand back the same state. */
  lemma UndoThenRedo(h: HistoryState)
    requires h.Loaded() && h.UndoAble()
    ensures var (u, undone) := AfterUndo(h);
      u.RedoAble() &&
      var (r, redone) := AfterRedo(u);
      r.next == h.next && redone == undone && r.images == h.images && r.states == h.states
  {
  }

  /** Redo then undo returns to the same index, and both hand back the same state. */
  lemma RedoThenUndo(h: HistoryState)
    requires h.Loaded() && h.RedoAble()
    ensures var (u, redone) := AfterRedo(h);
      u.UndoAble() &&
      var (r, undone) := AfterUndo(u);
      r.next == h.next && redone == undone && r.images == h.images && r.states == h.states
  {
  }

  /** removeLast(k) */
  function RemoveLast<T>(s: seq<T>, k: int): (r: seq<T>)
    requires 0 <= k <= |s|
    ensures r == s[..|s| - k]
  {
    s[..|s| - k]
  }

  /** The three branches of writeHistory with line 126 read as the negation
      of the custom `==`, the intended branch choice: they leave the lists
      and the index AfterWrite describes, and never trap. */
  method WriteEntries(h: HistoryState, state: FilterState, image: Image)
    returns (images: seq<Image>, states: seq<FilterState>, next: nat)
    requires h.Loaded()
    ensures var r := AfterWrite(h, state, image); images == r.images && states == r.states && next == r.next
  {
    images, states := h.images, h.states;
    var n := h.next;
    var sameAsLast := n != 0 && SameFilter(states[n - 1].filter, state.filter);
    if |states| == 0 || (|states| == n && !sameAsLast) {
      assert BranchOf(h, state.filter) == Append;
      images := images + [image];
      states := states + [state];
    } else if sameAsLast {
      // Changing the last entry; never taken by unmanaged filters.
      assert BranchOf(h, state.filter) == Overwrite;
      images := images[n := image];
      n := n - 1;
      states := states[n := state];
    } else {
      // Writing a new entry in the middle of the history.
      assert BranchOf(h, state.filter) == Truncate;
      states := states[n := state];
      images := images[n + 1 := image];
      states := RemoveLast(states, |states| - n - 1);
      images := RemoveLast(images, |images| - n - 2);
    }
    AfterWriteSteps(h, state, image, images, states, n);
    next := n + 1;
  }

  /** A reference to a CIFilter object; `==` on CIFilter is identity. */
  type FilterRef = nat

  class HistoryManager {
    var imageHistory: seq<Image>
    var sourceImages: seq<Image>
    var filterStateHistory: seq<FilterState>
    var nextFilterIndex: nat
    var undoAble: bool
    var redoAble: bool
    var lastFilter: Option<FilterRef>
    var imageWithoutCurrentFilter: Option<Image>
    var currentState: Option<FilterState>

    function State(): HistoryState
      reads this
    {
      HistoryState(imageHistory, sourceImages, filterStateHistory, nextFilterIndex)
    }

    ghost predicate FlagsAgree()
      reads this
    {
      undoAble == State().UndoAble() && redoAble == State().RedoAble()
    }

    ghost predicate Valid()
      reads this
    {
      State().Loaded() && FlagsAgree()
    }

    constructor ()
      ensures State() == HistoryState([], [], [], 0) && FlagsAgree()
      ensures lastFilter == None && imageWithoutCurrentFilter == None && currentState == None
    {
      imageHistory := [];
      sourceImages := [];
      filterStateHistory := [];
      nextFilterIndex := 0;
      undoAble := false;
      redoAble := false;
      lastFilter := None;
      imageWithoutCurrentFilter := None;
      currentState := None;
    }

    /** sourceImage: the last source image, or an empty image. */
    function SourceImage(): (r: Image)
      reads this
      ensures |sourceImages| > 0 ==> r == sourceImages[|sourceImages| - 1]
      ensures |sourceImages| == 0 ==> r == EmptyImage
    {
      if |sourceImages| > 0 then sourceImages[|sourceImages| - 1] else EmptyImage
    }

    /** currentImage: the image the states in effect produced; the last
        image when there is nothing to redo, and the loaded image before any
        state is in effect. */
    function CurrentImage(): (r: Image)
      reads this
      requires Valid()
      ensures r in imageHistory
      ensures nextFilterIndex == |filterStateHistory| ==> r == imageHistory[|imageHistory| - 1]
      ensures nextFilterIndex == 0 ==> r == imageHistory[0]
    {
      imageHistory[nextFilterIndex]
    }

    /** previousImage */
    function PreviousImage(): (r: Option<Image>)
      reads this
      requires Valid()
      ensures r.Some? <==> nextFilterIndex > 0
      ensures r.Some? ==> r.value == imageHistory[nextFilterIndex - 1]
    {
      if nextFilterIndex > 0 then Some(imageHistory[nextFilterIndex - 1]) else None
    }

    method SetRedoAndUndo()
      modifies this
      ensures FlagsAgree() && State() == old(State())
      ensures lastFilter == old(lastFilter) && imageWithoutCurrentFilter == old(imageWithoutCurrentFilter)
      ensures currentState == old(currentState)
    {
      redoAble := |filterStateHistory| > nextFilterIndex;
      undoAble := nextFilterIndex > 0;
    }

    method ClearHistory()
      modifies this
      ensures State() == HistoryState([], [], [], 0)
      ensures !undoAble && !redoAble
      ensures imageWithoutCurrentFilter == None && lastFilter == None && currentState == None
    {
      filterStateHistory := [];
      imageHistory := [];
      sourceImages := [];
      nextFilterIndex := 0;
      SetRedoAndUndo();
      imageWithoutCurrentFilter := None;
      lastFilter := None;
      currentState := None;
    }

    /** reset(): drop every edit, keeping only the first source image. */
    method Reset()
      modifies this
      ensures filterStateHistory == [] && nextFilterIndex == 0 && !undoAble && !redoAble
      ensures |old(sourceImages)| > 0 ==> imageHistory == [old(sourceImages)[0]] && sourceImages == [old(sourceImages)[0]] && Valid()
      ensures |old(sourceImages)| == 0 ==> imageHistory == [] && sourceImages == []
      ensures lastFilter == old(lastFilter) && imageWithoutCurrentFilter == old(imageWithoutCurrentFilter)
      ensures currentState == old(currentState)
    {
      filterStateHistory := [];
      imageHistory := if |sourceImages| == 0 then [] else [sourceImages[0]];
      sourceImages := if |sourceImages| == 0 then [] else [sourceImages[0]];
      nextFilterIndex := 0;
      SetRedoAndUndo();
    }

    /** setImage(_:): the flags are not recomputed. After clearHistory the
        manager is then loaded with this one image. */
    method SetImage(image: Image)
      modifies this
      ensures sourceImages == [image] && imageHistory == [image]
      ensures filterStateHistory == old(filterStateHistory) && nextFilterIndex == old(nextFilterIndex)
      ensures undoAble == old(undoAble) && redoAble == old(redoAble)
      ensures lastFilter == old(lastFilter) && imageWithoutCurrentFilter == old(imageWithoutCurrentFilter)
      ensures currentState == old(currentState)
      ensures old(filterStateHistory == [] && nextFilterIndex == 0 && FlagsAgree()) ==> Valid() && CurrentImage() == image
    {
      sourceImages := [image];
      imageHistory := [image];
    }

    method Undo() returns (state: FilterState)
      requires Valid() && undoAble
      modifies this
      ensures Valid()
      ensures (State(), state) == AfterUndo(old(State()))
      ensures lastFilter == old(lastFilter) && imageWithoutCurrentFilter == old(imageWithoutCurrentFilter)
      ensures currentState == old(currentState)
    {
      nextFilterIndex := nextFilterIndex - 1;
      state := filterStateHistory[nextFilterIndex];
      if state.filter.IsUnmanaged() {
        sourceImages := sourceImages + [imageHistory[nextFilterIndex]];
      }
      SetRedoAndUndo();
    }

    method Redo() returns (state: FilterState)
      requires Valid() && redoAble
      modifies this
      ensures Valid()
      ensures (State(), state) == AfterRedo(old(State()))
      ensures lastFilter == old(lastFilter) && imageWithoutCurrentFilter == old(imageWithoutCurrentFilter)
      ensures currentState == old(currentState)
    {
      nextFilterIndex := nextFilterIndex + 1;
      state := filterStateHistory[nextFilterIndex - 1];
      if state.filter.IsUnmanaged() {
        sourceImages := sourceImages + [imageHistory[nextFilterIndex]];
      }
      SetRedoAndUndo();
    }

    /** isCurrentEditingFilter(_:): true when the filter is the one last
        asked about; otherwise remembers it and answers false. */
    method IsCurrentEditingFilter(filter: FilterRef) returns (same: bool)
      modifies this
      ensures same <==> old(lastFilter) == Some(filter)
      ensures lastFilter == Some(filter)
      ensures State() == old(State()) && undoAble == old(undoAble) && redoAble == old(redoAble)
      ensures imageWithoutCurrentFilter == old(imageWithoutCurrentFilter) && currentState == old(currentState)
    {
      if Some(filter) == lastFilter {
        return true;
      } else {
        lastFilter := Some(filter);
        return false;
      }
    }

    /** changeCurrentState(for:specificKey:). `made` is the state built from
        the filter's name or the key (nil when neither names a filter), and
        `captured` is what captureState reads from the filter now. */
    method ChangeCurrentState(made: Option<FilterState>, captured: map<string, Value>)
      modifies this
      ensures made.None? ==> currentState == Some(UnManagedFilter)
      ensures made.Some? ==>
        currentState.Some? && currentState.value.filter == made.value.filter && currentState.value.afterState == made.value.afterState
      ensures made.Some? && |old(filterStateHistory)| > 0 &&
              SameFilter(old(filterStateHistory)[|old(filterStateHistory)| - 1].filter, made.value.filter) ==>
        currentState.value.beforeState == old(filterStateHistory)[|old(filterStateHistory)| - 1].beforeState
      ensures made.Some? && !(|old(filterStateHistory)| > 0 &&
              SameFilter(old(filterStateHistory)[|old(filterStateHistory)| - 1].filter, made.value.filter)) ==>
        currentState.value.beforeState == captured
      ensures State() == old(State()) && undoAble == old(undoAble) && redoAble == old(redoAble)
      ensures lastFilter == old(lastFilter) && imageWithoutCurrentFilter == old(imageWithoutCurrentFilter)
    {
      if made.None? {
        currentState := Some(UnManagedFilter);
        return;
      }
      var state := made.value;
      if |filterStateHistory| > 0 && SameFilter(filterStateHistory[|filterStateHistory| - 1].filter, state.filter) {
        state := state.(beforeState := filterStateHistory[|filterStateHistory| - 1].beforeState);
      } else {
        state := state.(beforeState := captured);
      }
      currentState := Some(state);
    }

    /** detachCurrentState() */
    method DetachCurrentState() returns (state: Option<FilterState>)
      ensures state == currentState
    {
      state := currentState;
    }

    /** writeHistory(filter:state:image:), with the intended branch choice:
        a second unmanaged write at the end appends (see BranchAsWritten). */
    method WriteHistory(filter: FilterRef, state: FilterState, image: Image)
      requires Valid()
      modifies this
      ensures Valid() && undoAble
      ensures State() == AfterWrite(old(State()), state, image)
      ensures lastFilter == None
      ensures imageWithoutCurrentFilter == old(imageWithoutCurrentFilter) && currentState == old(currentState)
    {
      var images, states, n := WriteEntries(State(), state, image);
      var sources := if state.filter.IsUnmanaged() then sourceImages + [image] else sourceImages;
      imageHistory, sourceImages, filterStateHistory, nextFilterIndex, lastFilter := images, sources, states, n, None;
      SetRedoAndUndo();
    }
  }

  /** A client: asking twice about the same filter answers true the second time. */
  method RepeatedQueryIsCurrent(h: HistoryManager, filter: FilterRef) returns (second: bool)
    modifies h
    ensures second
  {
    var _ := h.IsCurrentEditingFilter(filter);
    second := h.IsCurrentEditingFilter(filter);
  }

  /** A client: undo followed by redo restores the index and yields one state twice. */
  method UndoRedoClient(h: HistoryManager) returns (undone: FilterState, redone: FilterState)
    requires h.Valid() && h.undoAble
    modifies h
    ensures h.Valid() && h.nextFilterIndex == old(h.nextFilterIndex) && undone == redone
    ensures h.imageHistory == old(h.imageHistory) && h.filterStateHistory == old(h.filterStateHistory)
  {
    undone := h.Undo();
    redone := h.Redo();
  }
}
