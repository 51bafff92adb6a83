/**
 The `Instrument` aggregate of libs/hydrogen/src/basics/instrument.cpp: mix,
 filter, envelope and MIDI fields, `MAX_FX` effect-send levels and a fixed
 array of `MAX_LAYERS` optional layer slots. Samples, layers and envelopes are
 kept abstract; instruments are values, so a copy is independent of its source.
 */
module Instruments {
  import opened Options
  import opened Decimal

  const MAX_LAYERS: nat := 16
  const MAX_FX: nat := 4
  const EMPTY_INSTR_ID: Int32 := -1
  const MIDI_MIDDLE_C: Int32 := 60
  const MIDI_OUT_NOTE_MIN: int := 0
  const MIDI_OUT_NOTE_MAX: int := 127
  const MIDI_OUT_CHANNEL_MIN: int := -1
  const MIDI_OUT_CHANNEL_MAX: int := 15

  /** An audio sample, reduced to the file it comes from and its size. */
  datatype Sample = Sample(filename: string, frames: nat, sampleRate: nat)

  /** Per-layer gain, pitch and velocity range; `FreshLayer` stands for the values
      the one-argument `InstrumentLayer(Sample*)` constructor gives. */
  datatype LayerSettings =
    | FreshLayer
    | Settings(gain: real, pitch: real, startVelocity: real, endVelocity: real)

  datatype Layer = Layer(sample: Sample, settings: LayerSettings)

  /** An ADSR envelope; times in milliseconds, sustain a level. */
  datatype Envelope = Envelope(attack: real, decay: real, sustain: real, release: real)

  /** `new ADSR()`. */
  const DefaultEnvelope: Envelope := Envelope(0.0, 0.0, 1.0, 1000.0)

  /** Every slot empty. */
  function NoLayers(): (r: seq<Option<Layer>>)
    ensures |r| == MAX_LAYERS && forall i :: 0 <= i < |r| ==> r[i].None?
  {
    seq(MAX_LAYERS, _ => None)
  }

  /** Every effect send at level 0. */
  function ZeroSends(): (r: seq<real>)
    ensures |r| == MAX_FX && forall i :: 0 <= i < |r| ==> r[i] == 0.0
  {
    seq(MAX_FX, _ => 0.0)
  }

  type LayerSlots = s: seq<Option<Layer>> | |s| == MAX_LAYERS witness NoLayers()
  type FxLevels = s: seq<real> | |s| == MAX_FX witness ZeroSends()

  datatype Instrument = Instrument(
    id: Int32,
    name: string,
    gain: real,
    volume: real,
    panL: real,
    panR: real,
    peakL: real,
    peakR: real,
    adsr: Envelope,
    filterActive: bool,
    filterCutoff: real,
    filterResonance: real,
    randomPitchFactor: real,
    midiOutNote: Int32,
    midiOutChannel: Int32,
    stopNotes: bool,
    active: bool,
    soloed: bool,
    muted: bool,
    muteGroup: Int32,
    queued: bool,
    fxLevels: FxLevels,
    layers: LayerSlots)

  predicate NoteInRange(note: int) {
    MIDI_OUT_NOTE_MIN <= note <= MIDI_OUT_NOTE_MAX
  }

  predicate ChannelInRange(channel: int) {
    MIDI_OUT_CHANNEL_MIN <= channel <= MIDI_OUT_CHANNEL_MAX
  }

  /** The MIDI fields hold values the validated setters would accept. */
  predicate MidiInRange(inst: Instrument) {
    NoteInRange(inst.midiOutNote) && ChannelInRange(inst.midiOutChannel)
  }

  /** The occupied slots' layers, in slot order. */
  function Occupied(slots: seq<Option<Layer>>): (r: seq<Layer>)
    ensures |r| <= |slots|
    ensures (r == []) <==> forall i :: 0 <= i < |slots| ==> slots[i].None?
  {
    if slots == [] then []
    else if slots[0].Some? then [slots[0].value] + Occupied(slots[1..])
    else Occupied(slots[1..])
  }

  /** The indices of the occupied slots among the first `n`, ascending. */
  function OccupiedBelow(slots: seq<Option<Layer>>, n: nat): (r: seq<nat>)
    requires n <= |slots|
    ensures forall k :: 0 <= k < |r| ==> r[k] < n && slots[r[k]].Some?
  {
    if n == 0 then []
    else if slots[n - 1].Some? then OccupiedBelow(slots, n - 1) + [n - 1]
    else OccupiedBelow(slots, n - 1)
  }

  /** `Instrument(id, name, adsr)`: no layers, silent effect sends, unmuted and
      unsoloed, MIDI output on middle C with no channel. */
  function New(id: Int32, name: string, adsr: Envelope): (r: Instrument)
    ensures r.id == id && r.name == name && r.adsr == adsr
    ensures r.gain == 1.0 && r.volume == 1.0 && r.panL == 1.0 && r.panR == 1.0
    ensures r.peakL == 0.0 && r.peakR == 0.0
    ensures r.filterCutoff == 1.0 && r.filterResonance == 0.0 && r.randomPitchFactor == 0.0
    ensures r.midiOutNote == MIDI_MIDDLE_C && r.midiOutChannel == -1 && MidiInRange(r)
    ensures r.muteGroup == -1
    ensures Occupied(r.layers) == []
    ensures forall i :: 0 <= i < MAX_FX ==> r.fxLevels[i] == 0.0
    ensures r.active && !r.soloed && !r.muted && !r.queued && !r.filterActive && !r.stopNotes
  {
    Instrument(
      id, name,
      1.0, 1.0, 1.0, 1.0, 0.0, 0.0,  // gain, volume, pan L/R, peak L/R
      adsr,
      false, 1.0, 0.0,               // filter active, cutoff, resonance
      0.0,                           // random pitch factor
      MIDI_MIDDLE_C, -1,             // MIDI out note, channel
      false, true, false, false,     // stop notes, active, soloed, muted
      -1, false,                     // mute group, queued
      ZeroSends(), NoLayers())
  }

  /** `create_empty`: the placeholder instrument carrying the sentinel id. */
  function CreateEmpty(): (r: Instrument)
    ensures r.id == EMPTY_INSTR_ID && r.name == "Empty Instrument"
    ensures r.adsr == DefaultEnvelope
    ensures forall i :: 0 <= i < MAX_LAYERS ==> r.layers[i].None?
    ensures r.gain == 1.0 && r.volume == 1.0 && r.panL == 1.0 && r.panR == 1.0
    ensures r.midiOutNote == MIDI_MIDDLE_C && r.midiOutChannel == -1 && r.muteGroup == -1
    ensures r.peakL == 0.0 && r.peakR == 0.0
    ensures !r.filterActive && r.filterCutoff == 1.0 && r.filterResonance == 0.0 && r.randomPitchFactor == 0.0
    ensures forall i :: 0 <= i < MAX_FX ==> r.fxLevels[i] == 0.0
    ensures r.active && !r.soloed && !r.muted && !r.queued && !r.stopNotes
  {
    New(EMPTY_INSTR_ID, "Empty Instrument", DefaultEnvelope)
  }

  /** `new InstrumentLayer(other)`: a layer equal to its source. */
  function CopyLayer(l: Layer): Layer {
    Layer(l.sample, l.settings)
  }

  /** One slot of the copy constructor: a copied layer, or empty. */
  function CopySlot(slot: Option<Layer>): (r: Option<Layer>)
    ensures r == slot
  {
    match slot
    case Some(l) => Some(CopyLayer(l))
    case None => None
  }

  /** `Instrument(Instrument* other)`: every field, the envelope and each layer copied. */
  function Copy(other: Instrument): (r: Instrument)
    ensures r == other
    ensures forall i :: 0 <= i < MAX_LAYERS ==> (r.layers[i].Some? <==> other.layers[i].Some?)
  {
    var layers: LayerSlots := seq(MAX_LAYERS, i requires 0 <= i < MAX_LAYERS => CopySlot(other.layers[i]));
    assert layers == other.layers;
    Instrument(
      id := other.id, name := other.name,
      gain := other.gain, volume := other.volume, panL := other.panL, panR := other.panR,
      peakL := other.peakL, peakR := other.peakR,
      adsr := Envelope(other.adsr.attack, other.adsr.decay, other.adsr.sustain, other.adsr.release),
      filterActive := other.filterActive, filterCutoff := other.filterCutoff,
      filterResonance := other.filterResonance, randomPitchFactor := other.randomPitchFactor,
      midiOutNote := other.midiOutNote, midiOutChannel := other.midiOutChannel,
      stopNotes := other.stopNotes, active := other.active, soloed := other.soloed,
      muted := other.muted, muteGroup := other.muteGroup, queued := other.queued,
      fxLevels := seq(MAX_FX, i requires 0 <= i < MAX_FX => other.fxLevels[i]),
      layers := layers)
  }

  /** `get_layer(idx)`; the source asserts the index is in range. */
  function GetLayer(inst: Instrument, idx: int): Option<Layer>
    requires 0 <= idx < MAX_LAYERS
  {
    inst.layers[idx]
  }

  /** `set_layer(layer, idx)`: only slot `idx` changes. */
  function SetLayer(inst: Instrument, layer: Option<Layer>, idx: int): (r: Instrument)
    requires 0 <= idx < MAX_LAYERS
    ensures r.layers[idx] == layer
    ensures forall j :: 0 <= j < MAX_LAYERS && j != idx ==> r.layers[j] == inst.layers[j]
    ensures r == inst.(layers := r.layers)
  {
    inst.(layers := inst.layers[idx := layer])
  }

  /** `set_adsr`: the previous envelope is freed and the new one installed. */
  function SetAdsr(inst: Instrument, adsr: Envelope): Instrument {
    inst.(adsr := adsr)
  }

  /** `set_midi_out_channel`: a channel outside [-1, 15] is rejected and the field kept. */
  function SetMidiOutChannel(inst: Instrument, channel: int): (r: Instrument)
    ensures ChannelInRange(channel) ==> r.midiOutChannel == channel
    ensures !ChannelInRange(channel) ==> r == inst
    ensures r == inst.(midiOutChannel := r.midiOutChannel)
  {
    if MIDI_OUT_CHANNEL_MIN <= channel && channel <= MIDI_OUT_CHANNEL_MAX then inst.(midiOutChannel := channel)
    else inst
  }

  /** `set_midi_out_note`: a note outside [0, 127] is rejected and the field kept. */
  function SetMidiOutNote(inst: Instrument, note: int): (r: Instrument)
    ensures NoteInRange(note) ==> r.midiOutNote == note
    ensures !NoteInRange(note) ==> r == inst
    ensures r == inst.(midiOutNote := r.midiOutNote)
  {
    if MIDI_OUT_NOTE_MIN <= note && note <= MIDI_OUT_NOTE_MAX then inst.(midiOutNote := note)
    else inst
  }

  // ---------------------------------------------------------------------------
  // Properties

  /** Reading a slot after writing one sees the write at that index and the old
      contents everywhere else. */
  lemma GetAfterSetLayer(inst: Instrument, layer: Option<Layer>, idx: int, j: int)
    requires 0 <= idx < MAX_LAYERS && 0 <= j < MAX_LAYERS
    ensures GetLayer(SetLayer(inst, layer, idx), j) == if j == idx then layer else GetLayer(inst, j)
  {
  }

  /** The validated setters keep the MIDI fields in range, and setting a value
      twice is the same as setting it once. */
  lemma MidiSettersKeepRange(inst: Instrument, channel: int, note: int)
    requires MidiInRange(inst)
    ensures MidiInRange(SetMidiOutChannel(inst, channel))
    ensures MidiInRange(SetMidiOutNote(inst, note))
    ensures SetMidiOutChannel(SetMidiOutChannel(inst, channel), channel) == SetMidiOutChannel(inst, channel)
    ensures SetMidiOutNote(SetMidiOutNote(inst, note), note) == SetMidiOutNote(inst, note)
  {
  }
}
