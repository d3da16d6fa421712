/** The cyclic feature navigation of the Inspect Features toolbar: stepping
    an index forward or backward with wrap-around, the per-layer index the
    widget remembers, and the rule that enables the navigation controls.
    A layer is its name, whether it is a vector layer, and the ids of its
    features; the attribute filter is given as the ids it selects. */
module Inspect {
  import opened Text
  import opened Sorting
  import opened PyValues

  // ---------------------------------------------------------------------
  // Index stepping

  /** `testIndexFoward`: the next index, back to `minIndex` past `maxIndex`. */
  function TestIndexForward(index: int, maxIndex: int, minIndex: int): (r: int)
    ensures minIndex <= index <= maxIndex ==> minIndex <= r <= maxIndex
    ensures index < maxIndex ==> r == index + 1
    ensures index >= maxIndex ==> r == minIndex
  {
    if index + 1 > maxIndex then minIndex else index + 1
  }

  /** `testIndexBackwards`: the previous index, on to `maxIndex` below `minIndex`. */
  function TestIndexBackward(index: int, maxIndex: int, minIndex: int): (r: int)
    ensures minIndex <= index <= maxIndex ==> minIndex <= r <= maxIndex
    ensures index > minIndex ==> r == index - 1
    ensures index <= minIndex ==> r == maxIndex
  {
    if index - 1 < minIndex then maxIndex else index - 1
  }

  /** Inside the range, a step back undoes a step forward and the other way round. */
  lemma StepsAreInverse(index: int, maxIndex: int, minIndex: int)
    requires minIndex <= index <= maxIndex
    ensures TestIndexBackward(TestIndexForward(index, maxIndex, minIndex), maxIndex, minIndex) == index
    ensures TestIndexForward(TestIndexBackward(index, maxIndex, minIndex), maxIndex, minIndex) == index
  {
  }

  /** `k` forward steps from `index`. */
  function ForwardSteps(index: int, maxIndex: int, minIndex: int, k: nat): int
  {
    if k == 0 then index else TestIndexForward(ForwardSteps(index, maxIndex, minIndex, k - 1), maxIndex, minIndex)
  }

  /** Before the end of the range a forward step is one place on. */
  lemma {:induction false} ForwardStepsAhead(index: int, maxIndex: int, minIndex: int, k: nat)
    requires minIndex <= index && index + k <= maxIndex
    ensures ForwardSteps(index, maxIndex, minIndex, k) == index + k
  {
    if k > 0 {
      ForwardStepsAhead(index, maxIndex, minIndex, k - 1);
    }
  }

  /** Stepping `a` then `b` times is stepping `a + b` times. */
  lemma {:induction false} ForwardStepsCompose(index: int, maxIndex: int, minIndex: int, a: nat, b: nat)
    ensures ForwardSteps(ForwardSteps(index, maxIndex, minIndex, a), maxIndex, minIndex, b) ==
            ForwardSteps(index, maxIndex, minIndex, a + b)
  {
    if b > 0 {
      ForwardStepsCompose(index, maxIndex, minIndex, a, b - 1);
    }
  }

  /** Going forward once per index in the range comes back to the start:
      the navigation visits every feature and then starts over. */
  lemma FullCycle(index: int, maxIndex: int, minIndex: int)
    requires minIndex <= index <= maxIndex
    ensures ForwardSteps(index, maxIndex, minIndex, maxIndex - minIndex + 1) == index
  {
    var toEnd := maxIndex - index;
    ForwardStepsAhead(index, maxIndex, minIndex, toEnd);
    ForwardStepsCompose(index, maxIndex, minIndex, toEnd, 1);
    assert ForwardSteps(index, maxIndex, minIndex, toEnd + 1) == minIndex;
    ForwardStepsAhead(minIndex, maxIndex, minIndex, index - minIndex);
    ForwardStepsCompose(index, maxIndex, minIndex, toEnd + 1, index - minIndex);
  }

  /** The stepping method `iterateFeature` is given. */
  datatype Direction = Forward | Backward

  /** One step in direction `dir`. */
  function StepIndex(dir: Direction, index: int, maxIndex: int, minIndex: int): int
  {
    match dir
    case Forward => TestIndexForward(index, maxIndex, minIndex)
    case Backward => TestIndexBackward(index, maxIndex, minIndex)
  }

  // ---------------------------------------------------------------------
  // Layers and the remembered indices

  /** A map layer: its name, whether it is a vector layer, and the ids of its
      features in the order the layer yields them. */
  datatype Layer = Layer(name: string, isVector: bool, featureIds: seq<int>)

  /** The attribute filter widget: empty, holding an invalid expression, or
      holding an expression that selects the given ids, in the order the
      layer yields them. */
  datatype FieldFilter = NoFilter | InvalidFilter | Matching(ids: seq<int>)

  /** The ids `getFeatIdList` collects before sorting them. */
  function CandidateIds(layer: Layer, filter: FieldFilter): seq<int>
  {
    match filter
    case NoFilter => layer.featureIds
    case InvalidFilter => []
    case Matching(ids) => ids
  }

  /** The index `iterateFeature` stores for a layer with `count` features:
      0 on the first visit, one step from the stored index afterwards. */
  function NextIndex(allLayers: map<string, int>, name: string, count: nat, dir: Direction): int
    requires count > 0
  {
    if name !in allLayers then 0 else StepIndex(dir, allLayers[name], count - 1, 0)
  }

  /** The stored indices are never negative. */
  ghost predicate NonNegative(allLayers: map<string, int>)
  {
    forall name :: name in allLayers ==> allLayers[name] >= 0
  }

  /** A new index is never negative, and it is in the list when the stored
      one is (or there is none). */
  lemma NextIndexBounds(allLayers: map<string, int>, name: string, count: nat, dir: Direction)
    requires count > 0 && NonNegative(allLayers)
    ensures NextIndex(allLayers, name, count, dir) >= 0
    ensures (name !in allLayers || allLayers[name] < count) ==> NextIndex(allLayers, name, count, dir) < count
  {
  }

  /** A stored index past the end of a list that has since become shorter
      (features deleted, or another filter) steps back to an index that is
      still past the end: stepping forward wraps to 0 but stepping back
      does not. */
  lemma ShrunkListBackward()
    ensures NextIndex(map["roads" := 5], "roads", 3, Backward) == 4
    ensures NextIndex(map["roads" := 5], "roads", 3, Forward) == 0
  {
  }

  /** The spin box suffix `' (index+1/count)'`. */
  function Suffix(index: nat, count: nat): (s: string)
    ensures |s| >= 6 && s[..2] == " (" && s[|s| - 1] == ')'
  {
    " (" + NatToString(index + 1) + "/" + NatToString(count) + ")"
  }

  /** Different positions give different suffixes. */
  lemma SuffixInjective(i: nat, j: nat, count: nat)
    requires Suffix(i, count) == Suffix(j, count)
    ensures i == j
  {
    var a, b := NatToString(i + 1), NatToString(j + 1);
    var tail := "/" + NatToString(count) + ")";
    SuffixParts(i, count);
    SuffixParts(j, count);
    var sa, sb := a + tail, b + tail;
    assert sa == Suffix(i, count)[2..] == Suffix(j, count)[2..] == sb;
    assert a == sa[..|a|] && b == sb[..|b|];
    NatToStringInjective(i + 1, j + 1);
  }

  /** The suffix is the opening, the position, and the rest. */
  lemma SuffixParts(index: nat, count: nat)
    ensures Suffix(index, count)[2..] == NatToString(index + 1) + ("/" + NatToString(count) + ")")
  {
    var s := Suffix(index, count);
    assert s == " (" + (NatToString(index + 1) + ("/" + NatToString(count) + ")"));
  }

  /** What `enableTool` is given: nothing (a `None`), a boolean, or a layer. */
  datatype ToolArg = NoLayer | Bool(b: bool) | MapLayer(layer: Layer)

  /** What one call of `iterateFeature` ends with: the id of the feature it
      selects; the error message for an empty list; the `AttributeError`
      reading the name of a missing layer; or the `IndexError` of an index
      that is past the end of the list. */
  datatype IterateOutcome = Shown(id: int) | NoFeatures | MissingLayer | IndexOutOfRange(index: int)

  /** The toolbar's state: the filter widget, the inspect button, the enabled
      flags of the back and next buttons and of the id spin box, the spin
      box's range and suffix, and the per-layer index map `allLayers`. */
  class InspectFeatures {
    var filter: FieldFilter
    var inspectChecked: bool
    var backEnabled: bool
    var nextEnabled: bool
    var idSpinEnabled: bool
    var idMinimum: int
    var idMaximum: int
    var idSuffix: string
    var allLayers: map<string, int>

    ghost predicate Valid()
      reads this
    {
      NonNegative(allLayers)
    }

    /** The widget starts with no remembered layer; without an active layer
        the navigation controls are disabled, otherwise they keep the state
        the form gives them. */
    constructor(filter: FieldFilter, inspectChecked: bool, hasActiveLayer: bool, formEnabled: bool)
      ensures Valid()
      ensures allLayers == map[] && this.filter == filter && this.inspectChecked == inspectChecked
      ensures backEnabled == nextEnabled == idSpinEnabled == (hasActiveLayer && formEnabled)
    {
      this.filter := filter;
      this.inspectChecked := inspectChecked;
      backEnabled, nextEnabled, idSpinEnabled := formEnabled, formEnabled, formEnabled;
      idMinimum, idMaximum, idSuffix := 0, 0, "";
      allLayers := map[];
      new;
      if !hasActiveLayer {
        EnableTool(Bool(false));
      }
    }

    /** `enableTool`: the controls are enabled exactly when the argument is a
        vector layer and the inspect button is checked; so the default
        argument `True` disables them. */
    method EnableTool(arg: ToolArg)
      modifies this
      ensures backEnabled == nextEnabled == idSpinEnabled == (arg.MapLayer? && arg.layer.isVector && inspectChecked)
      ensures filter == old(filter) && inspectChecked == old(inspectChecked) && allLayers == old(allLayers)
      ensures idMinimum == old(idMinimum) && idMaximum == old(idMaximum) && idSuffix == old(idSuffix)
    {
      var allowed := arg.MapLayer? && arg.layer.isVector;
      var enabled := allowed && inspectChecked;
      backEnabled, nextEnabled, idSpinEnabled := enabled, enabled, enabled;
    }

    /** `getFeatIdList`: the ids of the layer's features, or of those the
        filter selects, in ascending order; none for an invalid filter. */
    method GetFeatIdList(layer: Layer) returns (featIdList: seq<int>)
      ensures SortedBy(featIdList, false)
      ensures multiset(featIdList) == multiset(CandidateIds(layer, filter))
      ensures filter == InvalidFilter ==> featIdList == []
    {
      match filter
      case InvalidFilter =>
        featIdList := [];
      case NoFilter =>
        featIdList := Sorted(layer.featureIds, false);
      case Matching(ids) =>
        featIdList := Sorted(ids, false);
    }

    /** What one call of `iterateFeature` in direction `dir` does, with
        `featIdList` the sorted list it used. A missing layer raises before
        anything changes; a layer whose list is empty gets the error message
        and nothing changes; otherwise the next index (0 on the first visit)
        is stored, the spin box gets the list's range and the position as
        its suffix, and the feature at that index is selected. The filter,
        the inspect button and the enabled flags stay. */
    twostate predicate Iterated(layer: Option<Layer>, dir: Direction, outcome: IterateOutcome, featIdList: seq<int>)
      reads this
    {
      && filter == old(filter) && inspectChecked == old(inspectChecked)
      && backEnabled == old(backEnabled) && nextEnabled == old(nextEnabled) && idSpinEnabled == old(idSpinEnabled)
      && (layer.None? ==> outcome == MissingLayer && featIdList == [])
      && (layer.Some? ==> SortedBy(featIdList, false) && multiset(featIdList) == multiset(CandidateIds(layer.value, filter)))
      && (layer.Some? && |featIdList| == 0 ==> outcome == NoFeatures)
      && (|featIdList| == 0 ==>
            allLayers == old(allLayers) && idMinimum == old(idMinimum) && idMaximum == old(idMaximum) && idSuffix == old(idSuffix))
      && (|featIdList| > 0 ==>
            var index := NextIndex(old(allLayers), layer.value.name, |featIdList|, dir);
            && layer.Some? && index >= 0
            && allLayers == old(allLayers)[layer.value.name := index]
            && idMinimum == featIdList[0] && idMaximum == featIdList[|featIdList| - 1]
            && idSuffix == Suffix(index, |featIdList|)
            && (index < |featIdList| ==> outcome == Shown(featIdList[index]))
            && (index >= |featIdList| ==> outcome == IndexOutOfRange(index)))
    }

    /** Nothing of the widget's state has changed. */
    twostate predicate Unchanged()
      reads this
    {
      && filter == old(filter) && inspectChecked == old(inspectChecked)
      && backEnabled == old(backEnabled) && nextEnabled == old(nextEnabled) && idSpinEnabled == old(idSpinEnabled)
      && idMinimum == old(idMinimum) && idMaximum == old(idMaximum) && idSuffix == old(idSuffix)
      && allLayers == old(allLayers)
    }

    /** `iterateFeature`: on a layer with features, store and select the next
        index (0 on the first visit) and show its position in the spin box
        suffix; `featIdList` is the sorted list it used. */
    method IterateFeature(layer: Option<Layer>, dir: Direction) returns (outcome: IterateOutcome, featIdList: seq<int>)
      requires Valid()
      modifies this
      ensures Valid()
      ensures Iterated(layer, dir, outcome, featIdList)
    {
      if layer.None? {
        return MissingLayer, [];
      }
      var currentLayer := layer.value;
      var lyrName := currentLayer.name;
      featIdList := GetFeatIdList(currentLayer);
      if |featIdList| == 0 {
        return NoFeatures, featIdList;
      }
      var index := StoreNextIndex(lyrName, |featIdList|, dir);
      var maxIndex := |featIdList| - 1;
      var minIndex := 0;
      idMaximum := featIdList[maxIndex];
      idMinimum := featIdList[minIndex];
      idSuffix := Suffix(index, |featIdList|);
      if index >= |featIdList| {
        return IndexOutOfRange(index), featIdList;
      }
      outcome := Shown(featIdList[index]);
    }

    /** The index bookkeeping of `iterateFeature`: store 0 on the first
        visit, otherwise step from the stored index, and store the result. */
    method StoreNextIndex(lyrName: string, count: nat, dir: Direction) returns (index: int)
      requires Valid() && count > 0
      modifies this
      ensures Valid()
      ensures index == NextIndex(old(allLayers), lyrName, count, dir) && index >= 0
      ensures allLayers == old(allLayers)[lyrName := index]
      ensures filter == old(filter) && inspectChecked == old(inspectChecked)
      ensures backEnabled == old(backEnabled) && nextEnabled == old(nextEnabled) && idSpinEnabled == old(idSpinEnabled)
      ensures idMinimum == old(idMinimum) && idMaximum == old(idMaximum) && idSuffix == old(idSuffix)
    {
      NextIndexBounds(allLayers, lyrName, count, dir);
      var first := false;
      if lyrName !in allLayers {
        allLayers := allLayers[lyrName := 0];
        first := true;
      }
      index := allLayers[lyrName];
      var maxIndex := count - 1;
      var minIndex := 0;
      if !first {
        index := StepIndex(dir, index, maxIndex, minIndex);
      }
      allLayers := allLayers[lyrName := index];
    }

    /** The next button's handler: it steps forward only while the button is enabled. */
    method OnNextInspectButtonClicked(layer: Option<Layer>) returns (outcome: Option<IterateOutcome>)
      requires Valid()
      modifies this
      ensures Valid()
      ensures !old(nextEnabled) ==> outcome == None && Unchanged()
      ensures old(nextEnabled) ==> outcome.Some? && exists featIdList :: Iterated(layer, Forward, outcome.value, featIdList)
    {
      if nextEnabled {
        var o, _ := IterateFeature(layer, Forward);
        outcome := Some(o);
      } else {
        outcome := None;
      }
    }

    /** The back button's handler: it steps backward only while the button is enabled. */
    method OnBackInspectButtonClicked(layer: Option<Layer>) returns (outcome: Option<IterateOutcome>)
      requires Valid()
      modifies this
      ensures Valid()
      ensures !old(backEnabled) ==> outcome == None && Unchanged()
      ensures old(backEnabled) ==> outcome.Some? && exists featIdList :: Iterated(layer, Backward, outcome.value, featIdList)
    {
      if backEnabled {
        var o, _ := IterateFeature(layer, Backward);
        outcome := Some(o);
      } else {
        outcome := None;
      }
    }
  }
}
