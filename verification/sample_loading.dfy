/**
 `Instrument::load_samples` and `Instrument::unload_samples`
 (libs/hydrogen/src/basics/instrument.cpp:237-259): one pass over the layer
 slots that asks every occupied slot's layer to load (or unload) its sample
 and stops at the first layer that reports failure.
 */
module SampleLoading {
  import opened Options
  import opened Instruments

  /** What `InstrumentLayer::load_sample` / `unload_sample` reports, and the layer afterwards. */
  datatype SampleOutcome = SampleOutcome(ok: bool, layer: Layer)

  /** The first occupied slot at or after `i` whose operation fails. */
  function FirstFailure(slots: LayerSlots, op: Layer -> SampleOutcome, i: nat): (r: Option<nat>)
    requires i <= MAX_LAYERS
    ensures r.Some? ==> i <= r.value < MAX_LAYERS && slots[r.value].Some? && !op(slots[r.value].value).ok
    ensures r.Some? ==> forall j :: i <= j < r.value && slots[j].Some? ==> op(slots[j].value).ok
    ensures r.None? <==> forall j :: i <= j < MAX_LAYERS && slots[j].Some? ==> op(slots[j].value).ok
    decreases MAX_LAYERS - i
  {
    if i == MAX_LAYERS then None
    else if slots[i].Some? && !op(slots[i].value).ok then Some(i)
    else FirstFailure(slots, op, i + 1)
  }

  /** How many slots the pass looks at: all of them, or up to and including the first failure. */
  function Reach(slots: LayerSlots, op: Layer -> SampleOutcome): nat {
    match FirstFailure(slots, op, 0)
    case None => MAX_LAYERS
    case Some(k) => k + 1
  }

  /** A slot after the pass has looked at it. */
  function Visited(slot: Option<Layer>, op: Layer -> SampleOutcome): Option<Layer> {
    match slot
    case None => None
    case Some(l) => Some(op(l).layer)
  }

  /**
   The outcome of a pass: it succeeds exactly when every occupied slot's
   operation succeeds; it visits the occupied slots in order up to and
   including the first failure; visited slots hold the operation's result and
   every slot after the failure is untouched.
   */
  ghost predicate PassOutcome(slots: LayerSlots, op: Layer -> SampleOutcome, ok: bool, r: LayerSlots, visited: seq<nat>) {
    && (ok <==> forall i :: 0 <= i < MAX_LAYERS && slots[i].Some? ==> op(slots[i].value).ok)
    && visited == OccupiedBelow(slots, Reach(slots, op))
    && (forall i :: 0 <= i < Reach(slots, op) ==> r[i] == Visited(slots[i], op))
    && (forall i :: Reach(slots, op) <= i < MAX_LAYERS ==> r[i] == slots[i])
    && (!ok ==> |visited| > 0 && !op(slots[visited[|visited| - 1]].value).ok)
  }

  /** The state of the pass after the first `i` slots: `ok` until a failure,
      after which the pass stops with the failing slot as the last one looked at. */
  ghost predicate Progress(slots: LayerSlots, op: Layer -> SampleOutcome, ok: bool, r: LayerSlots, visited: seq<nat>, i: nat) {
    && i <= MAX_LAYERS
    && (ok ==> FirstFailure(slots, op, 0) == FirstFailure(slots, op, i))
    && (!ok ==> 1 <= i && FirstFailure(slots, op, 0) == Some(i - 1))
    && visited == OccupiedBelow(slots, i)
    && (forall j :: 0 <= j < i ==> r[j] == Visited(slots[j], op))
    && (forall j :: i <= j < MAX_LAYERS ==> r[j] == slots[j])
  }

  /** The loop shared by both operations. */
  method VisitLayers(slots: LayerSlots, op: Layer -> SampleOutcome) returns (ok: bool, r: LayerSlots, visited: seq<nat>)
    ensures PassOutcome(slots, op, ok, r, visited)
  {
    r := slots;
    visited := [];
    ok := true;
    var i := 0;
    while i < MAX_LAYERS && ok
      invariant Progress(slots, op, ok, r, visited, i)
    {
      ghost var before, seen := r, visited;
      if slots[i].Some? {
        var outcome := op(slots[i].value);
        r := r[i := Some(outcome.layer)];
        visited := visited + [i];
        ok := outcome.ok;
      }
      ProgressStep(slots, op, before, seen, i, ok, r, visited);
      i := i + 1;
    }
    PassEnds(slots, op, ok, r, visited, i);
  }

  /** Looking at slot `i` keeps the pass's state accurate. */
  lemma ProgressStep(slots: LayerSlots, op: Layer -> SampleOutcome, before: LayerSlots, seen: seq<nat>, i: nat,
                     ok: bool, r: LayerSlots, visited: seq<nat>)
    requires i < MAX_LAYERS && Progress(slots, op, true, before, seen, i)
    requires slots[i].None? ==> ok && r == before && visited == seen
    requires slots[i].Some? ==>
               && ok == op(slots[i].value).ok
               && r == before[i := Some(op(slots[i].value).layer)]
               && visited == seen + [i]
    ensures Progress(slots, op, ok, r, visited, i + 1)
  {
  }

  /** The loop's exit state is a complete pass. */
  lemma PassEnds(slots: LayerSlots, op: Layer -> SampleOutcome, ok: bool, r: LayerSlots, visited: seq<nat>, i: nat)
    requires Progress(slots, op, ok, r, visited, i) && (ok ==> i == MAX_LAYERS)
    ensures PassOutcome(slots, op, ok, r, visited)
  {
    assert Reach(slots, op) == i;
  }

  /** `load_samples(path)`: `loadSample(path)` stands for `InstrumentLayer::load_sample(path)`. */
  method LoadSamples(inst: Instrument, path: string, loadSample: string -> Layer -> SampleOutcome)
    returns (ok: bool, r: Instrument, visited: seq<nat>)
    ensures PassOutcome(inst.layers, loadSample(path), ok, r.layers, visited)
    ensures r == inst.(layers := r.layers)
  {
    var slots;
    ok, slots, visited := VisitLayers(inst.layers, loadSample(path));
    r := inst.(layers := slots);
  }

  /** `unload_samples()`. */
  method UnloadSamples(inst: Instrument, unloadSample: Layer -> SampleOutcome)
    returns (ok: bool, r: Instrument, visited: seq<nat>)
    ensures PassOutcome(inst.layers, unloadSample, ok, r.layers, visited)
    ensures r == inst.(layers := r.layers)
  {
    var slots;
    ok, slots, visited := VisitLayers(inst.layers, unloadSample);
    r := inst.(layers := slots);
  }
}
