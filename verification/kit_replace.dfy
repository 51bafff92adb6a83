/**
 `Instrument::load_from(Drumkit*, Instrument*, bool is_live)`
 (libs/hydrogen/src/basics/instrument.cpp:120-167): replacing an instrument's
 layers and fields with those of a kit's template instrument. The audio
 engine's lock, sample loading and deletions are recorded as an event trace,
 so that the locking discipline can be stated without threads.
 */
module KitReplace {
  import opened Options
  import opened Instruments

  datatype Event =
    | Lock                  // AudioEngine::lock
    | Unlock                // AudioEngine::unlock
    | LoadSample(slot: nat) // Sample::load for the template layer in `slot`
    | Install(slot: nat)    // set_layer on `slot` (a new layer or NULL)
    | Release(slot: nat)    // delete of the layer `slot` held before
    | AssignFields          // the scalar setters, set_adsr included
    | ReleaseEnvelope       // set_adsr deleting the previous envelope

  /** A drum kit, reduced to the directory its sample files are relative to. */
  datatype Drumkit = Drumkit(path: string)

  datatype SlotResult = SlotResult(slot: Option<Layer>, events: seq<Event>)

  datatype Replaced = Replaced(slots: LayerSlots, trace: seq<Event>)

  datatype Replacement = Replacement(inst: Instrument, trace: seq<Event>)

  /** The file the sample of a template layer is loaded from. */
  function SamplePath(kit: Drumkit, src: Layer): string {
    kit.path + "/" + src.sample.filename
  }

  /** `new InstrumentLayer(src_layer, sample)`: the template layer's settings over a freshly loaded sample. */
  function LayerWithSample(src: Layer, sample: Sample): Layer {
    Layer(sample, src.settings)
  }

  /** `body` between a lock and an unlock when live, and alone otherwise. */
  function Locked(isLive: bool, body: seq<Event>): seq<Event> {
    if isLive then [Lock] + body + [Unlock] else body
  }

  /** `delete my_layer`, which releases something only when the slot was occupied. */
  function ReleaseOf(i: nat, prior: Option<Layer>): seq<Event> {
    if prior.Some? then [Release(i)] else []
  }

  /** What the template's slot `i` becomes in this instrument: empty when the
      template slot is empty or its sample does not load, and otherwise a layer
      with the template's settings over the loaded sample. */
  function ReplaceSlot(i: nat, prior: Option<Layer>, src: Option<Layer>, kit: Drumkit, isLive: bool,
                       load: string -> Option<Sample>): (r: SlotResult)
    ensures r.slot.None? <==> src.None? || load(SamplePath(kit, src.value)).None?
    ensures r.slot.Some? ==> (r.slot.value.settings == src.value.settings
                              && Some(r.slot.value.sample) == load(SamplePath(kit, src.value)))
  {
    match src
    case None => SlotResult(None, Locked(isLive, [Install(i)]) + ReleaseOf(i, prior))
    case Some(l) =>
      match load(SamplePath(kit, l))
      case None => SlotResult(None, [LoadSample(i)] + Locked(isLive, [Install(i)]) + ReleaseOf(i, prior))
      case Some(s) => SlotResult(Some(LayerWithSample(l, s)), [LoadSample(i)] + Locked(isLive, [Install(i)]) + ReleaseOf(i, prior))
  }

  /** The first `n` iterations of the layer loop. */
  function ReplaceSlots(n: nat, inst: Instrument, template: Instrument, kit: Drumkit, isLive: bool,
                        load: string -> Option<Sample>): (r: Replaced)
    requires n <= MAX_LAYERS
    ensures forall i :: 0 <= i < n ==>
              r.slots[i] == ReplaceSlot(i, inst.layers[i], template.layers[i], kit, isLive, load).slot
    ensures forall i :: n <= i < MAX_LAYERS ==> r.slots[i] == inst.layers[i]
  {
    if n == 0 then Replaced(inst.layers, [])
    else
      var prev := ReplaceSlots(n - 1, inst, template, kit, isLive, load);
      var step := ReplaceSlot(n - 1, inst.layers[n - 1], template.layers[n - 1], kit, isLive, load);
      Replaced(prev.slots[n - 1 := step.slot], prev.trace + step.events)
  }

  /**
   The whole replacement. Slot i ends up empty exactly when the template's slot
   is empty or its sample fails to load; the identity, mix, envelope, filter,
   random-pitch and mute fields come from the template; the effect sends, MIDI
   fields, stop-notes, active, soloed, queued and peak fields are left alone.
   */
  function ReplaceFromKit(inst: Instrument, kit: Drumkit, template: Instrument, isLive: bool,
                          load: string -> Option<Sample>): (r: Replacement)
    ensures forall i :: 0 <= i < MAX_LAYERS ==>
              (r.inst.layers[i].None? <==>
                 template.layers[i].None? || load(SamplePath(kit, template.layers[i].value)).None?)
    ensures forall i :: 0 <= i < MAX_LAYERS && r.inst.layers[i].Some? ==>
              (r.inst.layers[i].value.settings == template.layers[i].value.settings
               && Some(r.inst.layers[i].value.sample) == load(SamplePath(kit, template.layers[i].value)))
    ensures r.inst.id == template.id && r.inst.name == template.name
    ensures r.inst.gain == template.gain && r.inst.volume == template.volume
    ensures r.inst.panL == template.panL && r.inst.panR == template.panR
    ensures r.inst.adsr == template.adsr
    ensures r.inst.filterActive == template.filterActive && r.inst.filterCutoff == template.filterCutoff
    ensures r.inst.filterResonance == template.filterResonance
    ensures r.inst.randomPitchFactor == template.randomPitchFactor
    ensures r.inst.muted == template.muted && r.inst.muteGroup == template.muteGroup
    ensures r.inst.fxLevels == inst.fxLevels
    ensures r.inst.midiOutNote == inst.midiOutNote && r.inst.midiOutChannel == inst.midiOutChannel
    ensures r.inst.stopNotes == inst.stopNotes && r.inst.active == inst.active
    ensures r.inst.soloed == inst.soloed && r.inst.queued == inst.queued
    ensures r.inst.peakL == inst.peakL && r.inst.peakR == inst.peakR
  {
    var layers := ReplaceSlots(MAX_LAYERS, inst, template, kit, isLive, load);
    var withLayers := inst.(layers := layers.slots);
    var named := withLayers.(id := template.id, name := template.name, gain := template.gain,
                             volume := template.volume, panL := template.panL, panR := template.panR);
    var enveloped := SetAdsr(named, Envelope(template.adsr.attack, template.adsr.decay,
                                             template.adsr.sustain, template.adsr.release));
    var filtered := enveloped.(filterActive := template.filterActive, filterCutoff := template.filterCutoff,
                               filterResonance := template.filterResonance,
                               randomPitchFactor := template.randomPitchFactor,
                               muted := template.muted, muteGroup := template.muteGroup);
    Replacement(filtered, ReplaceTrace(inst, kit, template, isLive, load))
  }

  /** The events of the whole replacement: the layer loop, then the field block. */
  function ReplaceTrace(inst: Instrument, kit: Drumkit, template: Instrument, isLive: bool,
                        load: string -> Option<Sample>): seq<Event>
  {
    ReplaceSlots(MAX_LAYERS, inst, template, kit, isLive, load).trace + Locked(isLive, [AssignFields, ReleaseEnvelope])
  }

  // ---------------------------------------------------------------------------
  // The locking discipline

  /** One event under the discipline: the lock is never taken twice nor released
      when free; loading and layer deletion happen with it free; installing a
      slot and assigning the fields (freeing the old envelope) happen with it held.
      None marks a violation. */
  function Step(e: Event, held: bool): Option<bool> {
    match e
    case Lock => if held then None else Some(true)
    case Unlock => if held then Some(false) else None
    case LoadSample(_) => if held then None else Some(false)
    case Release(_) => if held then None else Some(false)
    case Install(_) => if held then Some(true) else None
    case AssignFields => if held then Some(true) else None
    case ReleaseEnvelope => if held then Some(true) else None
  }

  /** Whether the lock is held after `t`, starting from `held`; None if `t` breaks the discipline. */
  function Replay(t: seq<Event>, held: bool): Option<bool> {
    if t == [] then Some(held)
    else match Step(t[0], held)
      case None => None
      case Some(h) => Replay(t[1..], h)
  }

  /** `t` keeps the discipline and leaves the lock free, starting from a free lock. */
  predicate Disciplined(t: seq<Event>) {
    Replay(t, false) == Some(false)
  }

  /** Every install sits directly between a lock and an unlock. */
  predicate InstallsBracketed(t: seq<Event>) {
    forall k :: 0 <= k < |t| && t[k].Install? ==> 0 < k < |t| - 1 && t[k - 1] == Lock && t[k + 1] == Unlock
  }

  /** Every deletion of a slot's layer comes after an install into that slot. */
  predicate ReleasesFollowInstalls(t: seq<Event>) {
    forall k :: 0 <= k < |t| && t[k].Release? ==> exists j :: 0 <= j < k && t[j] == Install(t[k].slot)
  }

  function Count(t: seq<Event>, e: Event): (c: nat)
    ensures c == 0 <==> e !in t
    ensures c <= |t|
  {
    if t == [] then 0 else (if t[0] == e then 1 else 0) + Count(t[1..], e)
  }

  /** The slots of the install events of `t`, in order. */
  function Installed(t: seq<Event>): seq<nat> {
    if t == [] then []
    else if t[0].Install? then [t[0].slot] + Installed(t[1..])
    else Installed(t[1..])
  }

  /** The slots of the layer-release events of `t`, in order. */
  function ReleasedSlots(t: seq<Event>): seq<nat> {
    if t == [] then []
    else if t[0].Release? then [t[0].slot] + ReleasedSlots(t[1..])
    else ReleasedSlots(t[1..])
  }

  /** A slot is listed by `Installed` exactly when the trace installs it. */
  lemma {:induction false} InstalledMembers(t: seq<Event>)
    ensures forall i :: i in Installed(t) <==> Install(i) in t
  {
    if t != [] {
      InstalledMembers(t[1..]);
      assert forall e :: e in t <==> e == t[0] || e in t[1..];
    }
  }

  /** A slot is listed by `ReleasedSlots` exactly when the trace deletes its old layer. */
  lemma {:induction false} ReleasedMembers(t: seq<Event>)
    ensures forall i :: i in ReleasedSlots(t) <==> Release(i) in t
  {
    if t != [] {
      ReleasedMembers(t[1..]);
      assert forall e :: e in t <==> e == t[0] || e in t[1..];
    }
  }

  /** 0, 1, ..., n - 1. */
  function Range(n: nat): (r: seq<nat>)
    ensures |r| == n && forall i :: 0 <= i < n ==> r[i] == i
  {
    if n == 0 then [] else Range(n - 1) + [n - 1]
  }

  lemma {:induction false} ReplayAppend(a: seq<Event>, b: seq<Event>, held: bool)
    ensures Replay(a + b, held) == match Replay(a, held) case None => None case Some(h) => Replay(b, h)
  {
    if a == [] {
      assert a + b == b;
    } else {
      assert (a + b)[0] == a[0];
      assert (a + b)[1..] == a[1..] + b;
      match Step(a[0], held)
      case None =>
      case Some(h) => ReplayAppend(a[1..], b, h);
    }
  }

  lemma DisciplinedAppend(a: seq<Event>, b: seq<Event>)
    requires Disciplined(a) && Disciplined(b)
    ensures Disciplined(a + b)
  {
    ReplayAppend(a, b, false);
  }

  lemma {:induction false} CountAppend(a: seq<Event>, b: seq<Event>, e: Event)
    ensures Count(a + b, e) == Count(a, e) + Count(b, e)
  {
    if a == [] {
      assert a + b == b;
    } else {
      assert (a + b)[1..] == a[1..] + b;
      CountAppend(a[1..], b, e);
    }
  }

  lemma {:induction false} SlotListsAppend(a: seq<Event>, b: seq<Event>)
    ensures Installed(a + b) == Installed(a) + Installed(b)
    ensures ReleasedSlots(a + b) == ReleasedSlots(a) + ReleasedSlots(b)
  {
    if a == [] {
      assert a + b == b;
    } else {
      assert (a + b)[1..] == a[1..] + b;
      SlotListsAppend(a[1..], b);
    }
  }

  lemma BracketedAppend(a: seq<Event>, b: seq<Event>)
    requires InstallsBracketed(a) && InstallsBracketed(b)
    ensures InstallsBracketed(a + b)
  {
    var t := a + b;
    forall k | 0 <= k < |t| && t[k].Install?
      ensures 0 < k < |t| - 1 && t[k - 1] == Lock && t[k + 1] == Unlock
    {
      if k < |a| {
        assert a[k].Install?;
      } else {
        assert b[k - |a|].Install?;
      }
    }
  }

  lemma FollowsAppend(a: seq<Event>, b: seq<Event>)
    requires ReleasesFollowInstalls(a) && ReleasesFollowInstalls(b)
    ensures ReleasesFollowInstalls(a + b)
  {
    var t := a + b;
    forall k | 0 <= k < |t| && t[k].Release?
      ensures exists j :: 0 <= j < k && t[j] == Install(t[k].slot)
    {
      if k < |a| {
        assert a[k].Release?;
        var j :| 0 <= j < k && a[j] == Install(a[k].slot);
        assert t[j] == a[j];
      } else {
        assert b[k - |a|].Release?;
        var j :| 0 <= j < k - |a| && b[j] == Install(b[k - |a|].slot);
        assert t[|a| + j] == b[j];
      }
    }
  }

  /** A lock/unlock pair around events that need the lock keeps the discipline. */
  lemma LockedBlock(body: seq<Event>)
    requires forall k :: 0 <= k < |body| ==> body[k].Install? || body[k] == AssignFields || body[k] == ReleaseEnvelope
    ensures Disciplined(Locked(true, body))
  {
    HeldBody(body);
    assert Locked(true, body) == [Lock] + (body + [Unlock]);
    ReplayAppend([Lock], body + [Unlock], false);
    assert Replay([Lock], false) == Some(true) by {
      assert [Lock][1..] == [];
    }
    ReplayAppend(body, [Unlock], true);
    assert Replay([Unlock], true) == Some(false) by {
      assert [Unlock][1..] == [];
    }
  }

  lemma {:induction false} HeldBody(body: seq<Event>)
    requires forall k :: 0 <= k < |body| ==> body[k].Install? || body[k] == AssignFields || body[k] == ReleaseEnvelope
    ensures Replay(body, true) == Some(true)
  {
    if body != [] {
      HeldBody(body[1..]);
    }
  }

  /** The events of slot `i` before the install: the sample load, when there is a template layer. */
  function LoadOf(i: nat, src: Option<Layer>): seq<Event> {
    if src.Some? then [LoadSample(i)] else []
  }

  lemma SlotEventsShape(i: nat, prior: Option<Layer>, src: Option<Layer>, kit: Drumkit, isLive: bool,
                        load: string -> Option<Sample>)
    ensures ReplaceSlot(i, prior, src, kit, isLive, load).events
            == LoadOf(i, src) + Locked(isLive, [Install(i)]) + ReleaseOf(i, prior)
  {
  }

  /** The sample-load piece of an iteration. */
  lemma LoadOfFacts(i: nat, src: Option<Layer>)
    ensures var t := LoadOf(i, src);
      && Installed(t) == [] && ReleasedSlots(t) == [] && ReleasesFollowInstalls(t) && InstallsBracketed(t)
      && Disciplined(t) && Count(t, Lock) == 0 && Count(t, Unlock) == 0
  {
    if src.Some? {
      assert LoadOf(i, src)[1..] == [];
    }
  }

  /** The deletion piece of an iteration. */
  lemma ReleaseOfFacts(i: nat, prior: Option<Layer>)
    ensures var t := ReleaseOf(i, prior);
      && Installed(t) == [] && ReleasedSlots(t) == (if prior.Some? then [i] else []) && InstallsBracketed(t)
      && Disciplined(t) && Count(t, Lock) == 0 && Count(t, Unlock) == 0
  {
    if prior.Some? {
      assert ReleaseOf(i, prior)[1..] == [];
    }
  }

  /** The install piece of an iteration. */
  lemma InstallFacts(i: nat, isLive: bool)
    ensures var t := Locked(isLive, [Install(i)]);
      && Installed(t) == [i] && ReleasedSlots(t) == []
      && (isLive ==> Disciplined(t) && InstallsBracketed(t) && Count(t, Lock) == 1 && Count(t, Unlock) == 1)
      && (!isLive ==> Count(t, Lock) == 0 && Count(t, Unlock) == 0)
  {
    var t := Locked(isLive, [Install(i)]);
    if isLive {
      LockedBlock([Install(i)]);
      var last: seq<Event> := [Unlock];
      var tail: seq<Event> := [Install(i), Unlock];
      assert last[1..] == [];
      assert Installed(last) == [] && ReleasedSlots(last) == [];
      assert tail[1..] == last;
      assert Installed(tail) == [i] && ReleasedSlots(tail) == [];
      assert t == [Lock] + tail;
      assert t[1..] == tail;
    } else {
      assert t[1..] == [];
    }
  }

  /** The field block: the scalar assignment and the envelope deletion, under one
      lock/unlock pair when live. */
  lemma FieldBlockFacts(isLive: bool)
    ensures var t := Locked(isLive, [AssignFields, ReleaseEnvelope]);
      && Installed(t) == [] && ReleasedSlots(t) == [] && ReleasesFollowInstalls(t) && InstallsBracketed(t)
      && ReleaseEnvelope in t
  {
    var t := Locked(isLive, [AssignFields, ReleaseEnvelope]);
    if isLive {
      assert t == [Lock, AssignFields, ReleaseEnvelope, Unlock];
      assert t[1..] == [AssignFields, ReleaseEnvelope, Unlock];
      assert t[1..][1..] == [ReleaseEnvelope, Unlock];
      assert t[1..][1..][1..] == [Unlock];
      assert t[1..][1..][1..][1..] == [];
      assert t[2] == ReleaseEnvelope;
    } else {
      assert t[1..] == [ReleaseEnvelope];
      assert t[1..][1..] == [];
    }
  }

  /** The live field block holds the lock once and keeps the discipline. */
  lemma FieldBlockLive()
    ensures var t := Locked(true, [AssignFields, ReleaseEnvelope]);
      Disciplined(t) && Count(t, Lock) == 1 && Count(t, Unlock) == 1
  {
    var t := Locked(true, [AssignFields, ReleaseEnvelope]);
    LockedBlock([AssignFields, ReleaseEnvelope]);
    assert t == [Lock, AssignFields, ReleaseEnvelope, Unlock];
    assert t[1..] == [AssignFields, ReleaseEnvelope, Unlock];
    assert t[1..][1..] == [ReleaseEnvelope, Unlock];
    assert t[1..][1..][1..] == [Unlock];
    assert t[1..][1..][1..][1..] == [];
  }

  /** One iteration installs its slot once and deletes the previous layer, if any. */
  lemma SlotEventsOrder(i: nat, prior: Option<Layer>, src: Option<Layer>, kit: Drumkit, isLive: bool,
                        load: string -> Option<Sample>)
    ensures var t := ReplaceSlot(i, prior, src, kit, isLive, load).events;
      && Installed(t) == [i]
      && ReleasedSlots(t) == (if prior.Some? then [i] else [])
  {
    var pre := LoadOf(i, src);
    var mid := Locked(isLive, [Install(i)]);
    var rel := ReleaseOf(i, prior);
    SlotEventsShape(i, prior, src, kit, isLive, load);
    LoadOfFacts(i, src);
    InstallFacts(i, isLive);
    ReleaseOfFacts(i, prior);
    SlotListsAppend(pre, mid);
    SlotListsAppend(pre + mid, rel);
  }

  /** One iteration deletes the previous layer only after installing the slot's new value. */
  lemma SlotEventsFollow(i: nat, prior: Option<Layer>, src: Option<Layer>, kit: Drumkit, isLive: bool,
                         load: string -> Option<Sample>)
    ensures ReleasesFollowInstalls(ReplaceSlot(i, prior, src, kit, isLive, load).events)
  {
    var t := ReplaceSlot(i, prior, src, kit, isLive, load).events;
    var pre := LoadOf(i, src);
    var mid := Locked(isLive, [Install(i)]);
    var rel := ReleaseOf(i, prior);
    SlotEventsShape(i, prior, src, kit, isLive, load);
    assert t == pre + mid + rel;
    var j := |pre| + (if isLive then 1 else 0);
    assert t[j] == Install(i);
    forall k | 0 <= k < |t| && t[k].Release?
      ensures exists j :: 0 <= j < k && t[j] == Install(t[k].slot)
    {
      assert t[k] == rel[k - |pre| - |mid|];
      assert t[j] == Install(t[k].slot);
    }
  }

  /** One live iteration keeps the discipline with a single lock/unlock pair around its install. */
  lemma SlotEventsLive(i: nat, prior: Option<Layer>, src: Option<Layer>, kit: Drumkit,
                       load: string -> Option<Sample>)
    ensures var t := ReplaceSlot(i, prior, src, kit, true, load).events;
      && Disciplined(t) && InstallsBracketed(t) && Count(t, Lock) == 1 && Count(t, Unlock) == 1
  {
    var pre := LoadOf(i, src);
    var mid := Locked(true, [Install(i)]);
    var rel := ReleaseOf(i, prior);
    SlotEventsShape(i, prior, src, kit, true, load);
    LoadOfFacts(i, src);
    InstallFacts(i, true);
    ReleaseOfFacts(i, prior);
    CountAppend(pre, mid, Lock);
    CountAppend(pre + mid, rel, Lock);
    CountAppend(pre, mid, Unlock);
    CountAppend(pre + mid, rel, Unlock);
    DisciplinedAppend(pre, mid);
    DisciplinedAppend(pre + mid, rel);
    BracketedAppend(pre, mid);
    BracketedAppend(pre + mid, rel);
  }

  /** One offline iteration takes no lock. */
  lemma SlotEventsOffline(i: nat, prior: Option<Layer>, src: Option<Layer>, kit: Drumkit,
                          load: string -> Option<Sample>)
    ensures var t := ReplaceSlot(i, prior, src, kit, false, load).events;
      Lock !in t && Unlock !in t
  {
    SlotEventsShape(i, prior, src, kit, false, load);
  }

  /** The first `n` iterations install slots 0 .. n-1 in order and delete each
      previously occupied slot's layer once. */
  lemma SlotsOrder(n: nat, inst: Instrument, template: Instrument, kit: Drumkit, isLive: bool,
                   load: string -> Option<Sample>)
    requires n <= MAX_LAYERS
    ensures var t := ReplaceSlots(n, inst, template, kit, isLive, load).trace;
      && Installed(t) == Range(n)
      && ReleasedSlots(t) == OccupiedBelow(inst.layers, n)
  {
    SlotsInstalled(n, inst, template, kit, isLive, load);
    SlotsReleased(n, inst, template, kit, isLive, load);
  }

  /** The first `n` iterations install slots 0 .. n-1 in order. */
  lemma {:induction false} SlotsInstalled(n: nat, inst: Instrument, template: Instrument, kit: Drumkit, isLive: bool,
                                          load: string -> Option<Sample>)
    requires n <= MAX_LAYERS
    ensures Installed(ReplaceSlots(n, inst, template, kit, isLive, load).trace) == Range(n)
  {
    if n > 0 {
      var prev := ReplaceSlots(n - 1, inst, template, kit, isLive, load).trace;
      var step := ReplaceSlot(n - 1, inst.layers[n - 1], template.layers[n - 1], kit, isLive, load).events;
      assert ReplaceSlots(n, inst, template, kit, isLive, load).trace == prev + step;
      SlotsInstalled(n - 1, inst, template, kit, isLive, load);
      SlotEventsOrder(n - 1, inst.layers[n - 1], template.layers[n - 1], kit, isLive, load);
      SlotListsAppend(prev, step);
    }
  }

  /** The first `n` iterations delete each previously occupied slot's layer once, in slot order. */
  lemma {:induction false} SlotsReleased(n: nat, inst: Instrument, template: Instrument, kit: Drumkit, isLive: bool,
                                         load: string -> Option<Sample>)
    requires n <= MAX_LAYERS
    ensures ReleasedSlots(ReplaceSlots(n, inst, template, kit, isLive, load).trace) == OccupiedBelow(inst.layers, n)
  {
    if n > 0 {
      var prev := ReplaceSlots(n - 1, inst, template, kit, isLive, load).trace;
      var step := ReplaceSlot(n - 1, inst.layers[n - 1], template.layers[n - 1], kit, isLive, load).events;
      assert ReplaceSlots(n, inst, template, kit, isLive, load).trace == prev + step;
      SlotsReleased(n - 1, inst, template, kit, isLive, load);
      SlotEventsOrder(n - 1, inst.layers[n - 1], template.layers[n - 1], kit, isLive, load);
      SlotListsAppend(prev, step);
    }
  }

  /** In the first `n` iterations each deletion of an old layer comes after the
      install into its slot. */
  lemma {:induction false} SlotsFollow(n: nat, inst: Instrument, template: Instrument, kit: Drumkit, isLive: bool,
                                       load: string -> Option<Sample>)
    requires n <= MAX_LAYERS
    ensures ReleasesFollowInstalls(ReplaceSlots(n, inst, template, kit, isLive, load).trace)
  {
    if n > 0 {
      var prev := ReplaceSlots(n - 1, inst, template, kit, isLive, load).trace;
      var step := ReplaceSlot(n - 1, inst.layers[n - 1], template.layers[n - 1], kit, isLive, load).events;
      assert ReplaceSlots(n, inst, template, kit, isLive, load).trace == prev + step;
      SlotsFollow(n - 1, inst, template, kit, isLive, load);
      SlotEventsFollow(n - 1, inst.layers[n - 1], template.layers[n - 1], kit, isLive, load);
      FollowsAppend(prev, step);
    }
  }

  /** The first `n` live iterations keep the discipline, with one bracketing pair each. */
  lemma {:induction false} SlotsLive(n: nat, inst: Instrument, template: Instrument, kit: Drumkit,
                                     load: string -> Option<Sample>)
    requires n <= MAX_LAYERS
    ensures var t := ReplaceSlots(n, inst, template, kit, true, load).trace;
      && Disciplined(t) && InstallsBracketed(t) && Count(t, Lock) == n && Count(t, Unlock) == n
  {
    if n > 0 {
      var prev := ReplaceSlots(n - 1, inst, template, kit, true, load).trace;
      var step := ReplaceSlot(n - 1, inst.layers[n - 1], template.layers[n - 1], kit, true, load).events;
      assert ReplaceSlots(n, inst, template, kit, true, load).trace == prev + step;
      SlotsLive(n - 1, inst, template, kit, load);
      SlotEventsLive(n - 1, inst.layers[n - 1], template.layers[n - 1], kit, load);
      CountAppend(prev, step, Lock);
      CountAppend(prev, step, Unlock);
      DisciplinedAppend(prev, step);
      BracketedAppend(prev, step);
    } else {
      assert Replay([], false) == Some(false);
    }
  }

  /** The first `n` offline iterations take no lock. */
  lemma {:induction false} SlotsOffline(n: nat, inst: Instrument, template: Instrument, kit: Drumkit,
                                        load: string -> Option<Sample>)
    requires n <= MAX_LAYERS
    ensures var t := ReplaceSlots(n, inst, template, kit, false, load).trace;
      Lock !in t && Unlock !in t
  {
    if n > 0 {
      var prev := ReplaceSlots(n - 1, inst, template, kit, false, load).trace;
      var step := ReplaceSlot(n - 1, inst.layers[n - 1], template.layers[n - 1], kit, false, load).events;
      assert ReplaceSlots(n, inst, template, kit, false, load).trace == prev + step;
      SlotsOffline(n - 1, inst, template, kit, load);
      SlotEventsOffline(n - 1, inst.layers[n - 1], template.layers[n - 1], kit, load);
    }
  }

  /**
   When live: the trace keeps the locking discipline (samples are loaded and old
   layers deleted with the lock free; every install, the field assignment and
   the deletion of the old envelope happen with it held); every install sits
   in its own lock/unlock pair; there are `MAX_LAYERS` + 1 pairs; every slot is
   installed once, in order; and each old layer is deleted once, after its
   slot's new value has been installed.
   */
  lemma LiveReplaceProtocol(inst: Instrument, kit: Drumkit, template: Instrument, load: string -> Option<Sample>)
    ensures var t := ReplaceTrace(inst, kit, template, true, load);
      && Disciplined(t)
      && InstallsBracketed(t)
      && Count(t, Lock) == MAX_LAYERS + 1 && Count(t, Unlock) == MAX_LAYERS + 1
      && Installed(t) == Range(MAX_LAYERS)
      && ReleasedSlots(t) == OccupiedBelow(inst.layers, MAX_LAYERS)
      && ReleasesFollowInstalls(t)
      && ReleaseEnvelope in t
      && forall i :: 0 <= i < MAX_LAYERS ==> Install(i) in t
  {
    TraceOrder(inst, kit, template, true, load);
    LiveTraceLocks(inst, kit, template, load);
    SlotsTouched(inst, kit, template, true, load);
  }

  /** Live or not, every slot gets an install, and only a slot that held a layer
      has its old layer deleted. */
  lemma SlotsTouched(inst: Instrument, kit: Drumkit, template: Instrument, isLive: bool, load: string -> Option<Sample>)
    ensures var t := ReplaceTrace(inst, kit, template, isLive, load);
      && (forall i :: 0 <= i < MAX_LAYERS ==> Install(i) in t)
      && (forall i: nat :: Release(i) in t ==> i < MAX_LAYERS && inst.layers[i].Some?)
  {
    var t := ReplaceTrace(inst, kit, template, isLive, load);
    TraceOrder(inst, kit, template, isLive, load);
    InstalledMembers(t);
    ReleasedMembers(t);
    forall i | 0 <= i < MAX_LAYERS ensures Install(i) in t {
      assert Range(MAX_LAYERS)[i] == i;
    }
  }

  /** Live or not, every slot is installed once, in order, and each old layer is
      deleted once, after its slot's install. */
  lemma TraceOrder(inst: Instrument, kit: Drumkit, template: Instrument, isLive: bool, load: string -> Option<Sample>)
    ensures var t := ReplaceTrace(inst, kit, template, isLive, load);
      && Installed(t) == Range(MAX_LAYERS)
      && ReleasedSlots(t) == OccupiedBelow(inst.layers, MAX_LAYERS)
      && ReleasesFollowInstalls(t)
  {
    var slots := ReplaceSlots(MAX_LAYERS, inst, template, kit, isLive, load).trace;
    var fields := Locked(isLive, [AssignFields, ReleaseEnvelope]);
    SlotsOrder(MAX_LAYERS, inst, template, kit, isLive, load);
    SlotsFollow(MAX_LAYERS, inst, template, kit, isLive, load);
    FieldBlockFacts(isLive);
    SlotListsAppend(slots, fields);
    FollowsAppend(slots, fields);
  }

  /** The lock-related half of the live protocol. */
  lemma LiveTraceLocks(inst: Instrument, kit: Drumkit, template: Instrument, load: string -> Option<Sample>)
    ensures var t := ReplaceTrace(inst, kit, template, true, load);
      && Disciplined(t)
      && InstallsBracketed(t)
      && Count(t, Lock) == MAX_LAYERS + 1 && Count(t, Unlock) == MAX_LAYERS + 1
      && ReleaseEnvelope in t
  {
    var slots := ReplaceSlots(MAX_LAYERS, inst, template, kit, true, load).trace;
    var fields := Locked(true, [AssignFields, ReleaseEnvelope]);
    SlotsLive(MAX_LAYERS, inst, template, kit, load);
    FieldBlockFacts(true);
    FieldBlockLive();
    DisciplinedAppend(slots, fields);
    BracketedAppend(slots, fields);
    CountAppend(slots, fields, Lock);
    CountAppend(slots, fields, Unlock);
    assert fields[2] == ReleaseEnvelope;
    assert (slots + fields)[|slots| + 2] == ReleaseEnvelope;
  }

  /** When not live the lock is never touched, and the same slots are installed and released. */
  lemma OfflineReplaceTakesNoLock(inst: Instrument, kit: Drumkit, template: Instrument, load: string -> Option<Sample>)
    ensures var t := ReplaceTrace(inst, kit, template, false, load);
      && Lock !in t && Unlock !in t
      && Installed(t) == Range(MAX_LAYERS)
      && ReleasedSlots(t) == OccupiedBelow(inst.layers, MAX_LAYERS)
      && ReleasesFollowInstalls(t)
  {
    TraceOrder(inst, kit, template, false, load);
    SlotsOffline(MAX_LAYERS, inst, template, kit, load);
    assert ReplaceTrace(inst, kit, template, false, load)
        == ReplaceSlots(MAX_LAYERS, inst, template, kit, false, load).trace + [AssignFields, ReleaseEnvelope];
  }
}
