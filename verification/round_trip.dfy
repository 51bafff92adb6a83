/**
 What `Instrument::load_from(XMLNode*)` recovers from the element
 `Instrument::save_to` writes (libs/hydrogen/src/basics/instrument.cpp:181-235,
 261-292): every stored field, the occupied layers packed to the front in their
 original order, and the constructor's values for what is not stored.
 */
module RoundTrip {
  import opened Options
  import opened Decimal
  import opened Xml
  import opened Instruments
  import opened Persistence

  /** The names of the fields `save_to` writes, in document order. */
  const FieldNames: seq<string> :=
    [ "id", "name", "volume", "isMuted", "pan_L", "pan_R", "randomPitchFactor", "gain",
      "filterActive", "filterCutoff", "filterResonance", "Attack", "Decay", "Sustain", "Release",
      "muteGroup", "midiOutChannel", "midiOutNote", "isStopNote",
      "FX1Level", "FX2Level", "FX3Level", "FX4Level" ]

  lemma SendFieldNames()
    ensures forall i :: 0 <= i < MAX_FX ==> FxFieldName(i) == FieldNames[19 + i]
  {
    assert FormatNat(1) == [DigitChar(1)] == "1";
    assert FormatNat(2) == [DigitChar(2)] == "2";
    assert FormatNat(3) == [DigitChar(3)] == "3";
    assert FormatNat(4) == [DigitChar(4)] == "4";
  }

  lemma FieldTextNames(inst: Instrument, ft: FloatText)
    ensures |FieldTexts(inst, ft)| == |FieldNames|
    ensures forall k :: 0 <= k < |FieldNames| ==> FieldTexts(inst, ft)[k].0 == FieldNames[k]
  {
    SendFieldNames();
    ScalarFieldNames(inst, ft);
    var fs := FieldTexts(inst, ft);
    var scalars := ScalarTexts(inst, ft);
    assert forall k :: 0 <= k < 19 ==> fs[k] == scalars[k];
    assert forall i :: 0 <= i < MAX_FX ==> fs[19 + i] == SendTexts(inst, ft)[i];
  }

  lemma ScalarFieldNames(inst: Instrument, ft: FloatText)
    ensures |ScalarTexts(inst, ft)| == 19
    ensures forall k :: 0 <= k < 19 ==> ScalarTexts(inst, ft)[k].0 == FieldNames[k]
  {
  }

  /** No two fields share a name, and none is called `layer` or `filename`. */
  lemma FieldNamesDistinct()
    ensures forall j, k :: 0 <= j < k < |FieldNames| ==> FieldNames[j] != FieldNames[k]
    ensures forall k :: 0 <= k < |FieldNames| ==> FieldNames[k] != "layer" && FieldNames[k] != "filename"
  {
  }

  /** What `read_child_node` returns for a text written with `write_child_node`. */
  function Stored(text: string): Option<string> {
    if text == "" then None else Some(text)
  }

  /** A text element written before any other child of its name reads back as
      its text. */
  lemma ReadField(node: XmlNode, fs: seq<(string, string)>, rest: seq<Element>, k: nat, ie: bool, ee: bool)
    requires Children(node) == FieldElements(fs) + rest
    requires k < |fs|
    requires forall j :: 0 <= j < k ==> fs[j].0 != fs[k].0
    ensures ReadChildNode(node, fs[k].0, ie, ee) == Stored(fs[k].1)
  {
    var ks := Children(node);
    assert ks[k] == TextElement(fs[k].0, fs[k].1);
    assert forall j :: 0 <= j < k ==> ks[j].name == fs[j].0;
    TextOfTextElement(fs[k].0, fs[k].1);
    assert IsFirstNamed(ks, fs[k].0, k);
  }

  /** Each written field reads back as the text written for it: field names are
      distinct, so it is the first child of its name. */
  lemma ReadSavedField(inst: Instrument, c: Codecs, k: nat, ie: bool, ee: bool)
    requires k < |FieldNames|
    ensures ReadChildNode(InstrumentNode(inst, c), FieldNames[k], ie, ee) == Stored(FieldTexts(inst, c.floats)[k].1)
  {
    FieldTextNames(inst, c.floats);
    FieldNamesDistinct();
    ReadField(InstrumentNode(inst, c), FieldTexts(inst, c.floats), LayerElements(inst.layers, c.layers), k, ie, ee);
  }

  /** The children of a saved instrument that are not field elements are its
      layer elements. */
  lemma SavedChildNames(inst: Instrument, c: Codecs)
    ensures var fields := FieldElements(FieldTexts(inst, c.floats));
      && Children(InstrumentNode(inst, c)) == fields + LayerElements(inst.layers, c.layers)
      && forall k :: 0 <= k < |fields| ==> fields[k].name != "layer" && fields[k].name != "filename"
  {
    FieldTextNames(inst, c.floats);
    FieldNamesDistinct();
  }

  /** Children made of elements named neither `layer` nor `filename` followed
      by `layer` elements: the sibling walk over `layer` finds exactly the
      latter, and there is no `filename` child. */
  lemma FieldsThenLayers(ks: seq<Element>, fields: seq<Element>, layers: seq<Element>)
    requires ks == fields + layers
    requires forall k :: 0 <= k < |fields| ==> fields[k].name != "layer" && fields[k].name != "filename"
    requires forall k :: 0 <= k < |layers| ==> layers[k].name == "layer"
    ensures Named(ks, "layer") == layers
    ensures FirstIndex(ks, "filename").None?
  {
    NamedAppend(fields, layers, "layer");
    NamedAll(layers, "layer");
    NamedNone(fields, "layer");
    forall j | 0 <= j < |ks| ensures ks[j].name != "filename" {
      if j >= |fields| {
        assert ks[j] == layers[j - |fields|];
      }
    }
  }

  /** A written instrument has no legacy `filename` field, and its `layer`
      children are exactly the elements written for the occupied slots. */
  lemma SavedLayerChildren(inst: Instrument, c: Codecs)
    ensures FirstChildElement(InstrumentNode(inst, c), "filename").None?
    ensures ChildElements(InstrumentNode(inst, c), "layer") == LayerElements(inst.layers, c.layers)
  {
    var node := InstrumentNode(inst, c);
    var fields := FieldElements(FieldTexts(inst, c.floats));
    var layers := LayerElements(inst.layers, c.layers);
    SavedChildNames(inst, c);
    FieldsThenLayers(Children(node), fields, layers);
  }

  /** The slots with `ls` packed to the front and the rest empty. */
  function Packed(ls: seq<Layer>): (r: LayerSlots)
    requires |ls| <= MAX_LAYERS
    ensures forall i :: 0 <= i < |ls| ==> r[i] == Some(ls[i])
    ensures forall i :: |ls| <= i < MAX_LAYERS ==> r[i].None?
  {
    seq(MAX_LAYERS, i requires 0 <= i < MAX_LAYERS => if i < |ls| then Some(ls[i]) else None)
  }

  /** Packing keeps the layers and their order. */
  lemma {:induction false} OccupiedOfPacked(s: seq<Option<Layer>>, ls: seq<Layer>)
    requires |ls| <= |s|
    requires forall i :: 0 <= i < |ls| ==> s[i] == Some(ls[i])
    requires forall i :: |ls| <= i < |s| ==> s[i].None?
    ensures Occupied(s) == ls
  {
    if ls != [] {
      OccupiedOfPacked(s[1..], ls[1..]);
    }
  }

  /** The layer codec reads back every layer it writes. */
  ghost predicate LayersExact(lt: LayerText, slots: seq<Option<Layer>>) {
    forall l :: l in Occupied(slots) ==> lt.load(LayerElement(l, lt)) == l
  }

  /** The float codec writes `x` as non-empty text that parses back to `x`. */
  ghost predicate Exact(ft: FloatText, x: real) {
    ft.format(x) != "" && ft.parse(ft.format(x)) == x
  }

  ghost predicate FloatsExact(ft: FloatText, inst: Instrument) {
    && Exact(ft, inst.volume) && Exact(ft, inst.panL) && Exact(ft, inst.panR)
    && Exact(ft, inst.randomPitchFactor) && Exact(ft, inst.gain)
    && Exact(ft, inst.filterCutoff) && Exact(ft, inst.filterResonance)
    && Exact(ft, inst.adsr.attack) && Exact(ft, inst.adsr.decay)
    && Exact(ft, inst.adsr.sustain) && Exact(ft, inst.adsr.release)
    && forall i :: 0 <= i < MAX_FX ==> Exact(ft, inst.fxLevels[i])
  }

  /**
   The instrument `load_from` gives back for a saved `inst`: the stored fields
   unchanged; peak levels, `active`, `soloed` and `queued` as a new instrument
   has them; MIDI values the setters reject replaced by the defaults; and the
   occupied layers packed to the front in slot order.
   */
  function Persisted(inst: Instrument): Instrument {
    inst.(peakL := 0.0, peakR := 0.0, active := true, soloed := false, queued := false,
          midiOutChannel := if ChannelInRange(inst.midiOutChannel) then inst.midiOutChannel else -1,
          midiOutNote := if NoteInRange(inst.midiOutNote) then inst.midiOutNote else MIDI_MIDDLE_C,
          layers := Packed(Occupied(inst.layers)))
  }

  /** Whatever the layer codec, slot k of a loaded saved instrument holds what the
      codec reads from the element saved for its k-th occupied slot, and the slots
      after the last occupied one are empty: empty slots are squeezed out. */
  lemma LayerOrderRoundTrip(inst: Instrument, c: Codecs)
    ensures var r := ReadLayers(InstrumentNode(inst, c), c.layers); var occ := Occupied(inst.layers);
      forall i :: 0 <= i < MAX_LAYERS ==>
        r[i] == if i < |occ| then Some(c.layers.load(LayerElement(occ[i], c.layers))) else None
  {
    SavedLayerChildren(inst, c);
    LoadedLayers(InstrumentNode(inst, c), c.layers);
  }

  /** With a layer codec that reads back what it writes, the layers read back
      from a saved instrument are its occupied layers, packed to the front in
      slot order. */
  lemma LayersRoundTrip(inst: Instrument, c: Codecs)
    requires LayersExact(c.layers, inst.layers)
    ensures ReadLayers(InstrumentNode(inst, c), c.layers) == Packed(Occupied(inst.layers))
    ensures Occupied(ReadLayers(InstrumentNode(inst, c), c.layers)) == Occupied(inst.layers)
  {
    var node := InstrumentNode(inst, c);
    var occ := Occupied(inst.layers);
    LayerOrderRoundTrip(inst, c);
    var r := ReadLayers(node, c.layers);
    forall i | 0 <= i < MAX_LAYERS ensures r[i] == Packed(occ)[i] {
      if i < |occ| {
        assert occ[i] in occ;
      }
    }
    OccupiedOfPacked(r, occ);
  }

  /** A saved instrument loads back exactly when its id is not the sentinel;
      in particular the empty instrument is never restored. */
  lemma IdRoundTrip(inst: Instrument, c: Codecs)
    ensures LoadFrom(InstrumentNode(inst, c), c).None? <==> inst.id == EMPTY_INSTR_ID
    ensures LoadFrom(InstrumentNode(inst, c), c).Some? ==> LoadFrom(InstrumentNode(inst, c), c).value.id == inst.id
  {
    ReadSavedField(inst, c, 0, false, false);
    Int32TextRoundTrip(inst.id);
  }

  lemma EmptyInstrumentNotRestored(c: Codecs)
    ensures LoadFrom(InstrumentNode(CreateEmpty(), c), c).None?
  {
    IdRoundTrip(CreateEmpty(), c);
  }

  // Each field of a saved instrument, as `read_child_node` finds it. These are
  // split into small groups to keep each proof obligation small.

  lemma SavedNameAndFlags(inst: Instrument, c: Codecs)
    ensures var node := InstrumentNode(inst, c);
      && ReadChildNode(node, "name", true, true) == Stored(inst.name)
      && ReadChildNode(node, "isMuted", true, true) == Some(BoolText(inst.muted))
      && ReadChildNode(node, "filterActive", true, true) == Some(BoolText(inst.filterActive))
      && ReadChildNode(node, "isStopNote", true, true) == Some(BoolText(inst.stopNotes))
  {
    var fs := FieldTexts(inst, c.floats);
    assert FieldNames[1] == "name" && fs[1].1 == inst.name;
    assert FieldNames[3] == "isMuted" && fs[3].1 == BoolText(inst.muted);
    assert FieldNames[8] == "filterActive" && fs[8].1 == BoolText(inst.filterActive);
    assert FieldNames[18] == "isStopNote" && fs[18].1 == BoolText(inst.stopNotes);
    ReadSavedField(inst, c, 1, true, true);
    ReadSavedField(inst, c, 3, true, true);
    ReadSavedField(inst, c, 8, true, true);
    ReadSavedField(inst, c, 18, true, true);
  }

  lemma SavedGroupAndMidi(inst: Instrument, c: Codecs)
    ensures var node := InstrumentNode(inst, c);
      && ReadChildNode(node, "muteGroup", true, true) == Some(FormatInt(inst.muteGroup))
      && ReadChildNode(node, "midiOutChannel", true, true) == Some(FormatInt(inst.midiOutChannel))
      && ReadChildNode(node, "midiOutNote", true, true) == Some(FormatInt(inst.midiOutNote))
  {
    var fs := FieldTexts(inst, c.floats);
    assert FieldNames[15] == "muteGroup" && fs[15].1 == FormatInt(inst.muteGroup);
    assert FieldNames[16] == "midiOutChannel" && fs[16].1 == FormatInt(inst.midiOutChannel);
    assert FieldNames[17] == "midiOutNote" && fs[17].1 == FormatInt(inst.midiOutNote);
    ReadSavedField(inst, c, 15, true, true);
    ReadSavedField(inst, c, 16, true, true);
    ReadSavedField(inst, c, 17, true, true);
  }

  lemma SavedVolumeAndGain(inst: Instrument, c: Codecs)
    ensures var node := InstrumentNode(inst, c); var ft := c.floats;
      && ReadChildNode(node, "volume", true, true) == Stored(ft.format(inst.volume))
      && ReadChildNode(node, "gain", true, true) == Stored(ft.format(inst.gain))
  {
    var fs := FieldTexts(inst, c.floats);
    assert FieldNames[2] == "volume" && fs[2].1 == c.floats.format(inst.volume);
    assert FieldNames[7] == "gain" && fs[7].1 == c.floats.format(inst.gain);
    ReadSavedField(inst, c, 2, true, true);
    ReadSavedField(inst, c, 7, true, true);
  }

  lemma SavedPans(inst: Instrument, c: Codecs)
    ensures var node := InstrumentNode(inst, c); var ft := c.floats;
      && ReadChildNode(node, "pan_L", true, true) == Stored(ft.format(inst.panL))
      && ReadChildNode(node, "pan_R", true, true) == Stored(ft.format(inst.panR))
  {
    var fs := FieldTexts(inst, c.floats);
    assert FieldNames[4] == "pan_L" && fs[4].1 == c.floats.format(inst.panL);
    assert FieldNames[5] == "pan_R" && fs[5].1 == c.floats.format(inst.panR);
    ReadSavedField(inst, c, 4, true, true);
    ReadSavedField(inst, c, 5, true, true);
  }

  lemma SavedFilter(inst: Instrument, c: Codecs)
    ensures var node := InstrumentNode(inst, c); var ft := c.floats;
      && ReadChildNode(node, "randomPitchFactor", true, true) == Stored(ft.format(inst.randomPitchFactor))
      && ReadChildNode(node, "filterCutoff", true, true) == Stored(ft.format(inst.filterCutoff))
      && ReadChildNode(node, "filterResonance", true, true) == Stored(ft.format(inst.filterResonance))
  {
    var fs := FieldTexts(inst, c.floats);
    assert FieldNames[6] == "randomPitchFactor" && fs[6].1 == c.floats.format(inst.randomPitchFactor);
    assert FieldNames[9] == "filterCutoff" && fs[9].1 == c.floats.format(inst.filterCutoff);
    assert FieldNames[10] == "filterResonance" && fs[10].1 == c.floats.format(inst.filterResonance);
    ReadSavedField(inst, c, 6, true, true);
    ReadSavedField(inst, c, 9, true, true);
    ReadSavedField(inst, c, 10, true, true);
  }

  lemma SavedEnvelope(inst: Instrument, c: Codecs)
    ensures var node := InstrumentNode(inst, c); var ft := c.floats;
      && ReadChildNode(node, "Attack", true, true) == Stored(ft.format(inst.adsr.attack))
      && ReadChildNode(node, "Decay", true, true) == Stored(ft.format(inst.adsr.decay))
      && ReadChildNode(node, "Sustain", true, true) == Stored(ft.format(inst.adsr.sustain))
      && ReadChildNode(node, "Release", true, true) == Stored(ft.format(inst.adsr.release))
  {
    var fs := FieldTexts(inst, c.floats);
    assert FieldNames[11] == "Attack" && fs[11].1 == c.floats.format(inst.adsr.attack);
    assert FieldNames[12] == "Decay" && fs[12].1 == c.floats.format(inst.adsr.decay);
    assert FieldNames[13] == "Sustain" && fs[13].1 == c.floats.format(inst.adsr.sustain);
    assert FieldNames[14] == "Release" && fs[14].1 == c.floats.format(inst.adsr.release);
    ReadSavedField(inst, c, 11, true, true);
    ReadSavedField(inst, c, 12, true, true);
    ReadSavedField(inst, c, 13, true, true);
    ReadSavedField(inst, c, 14, true, true);
  }

  lemma SavedSends(inst: Instrument, c: Codecs)
    ensures forall i :: 0 <= i < MAX_FX ==>
              ReadChildNode(InstrumentNode(inst, c), FxFieldName(i), true, true) == Stored(c.floats.format(inst.fxLevels[i]))
  {
    SendFieldNames();
    forall i | 0 <= i < MAX_FX
      ensures ReadChildNode(InstrumentNode(inst, c), FxFieldName(i), true, true) == Stored(c.floats.format(inst.fxLevels[i]))
    {
      var fs := FieldTexts(inst, c.floats);
      assert fs[19 + i] == SendTexts(inst, c.floats)[i];
      ReadSavedField(inst, c, 19 + i, true, true);
    }
  }

  // Reading fields back from their text.

  lemma IntFieldRead(node: XmlNode, name: string, v: Int32, d: Int32, ie: bool, ee: bool)
    requires ReadChildNode(node, name, true, true) == Some(FormatInt(v))
    ensures ReadInt(node, name, d, ie, ee) == v
  {
    ReadChildNodeIgnoresFlags(node, name, ie, ee, true, true);
    Int32TextRoundTrip(v);
  }

  lemma BoolFieldRead(node: XmlNode, name: string, v: bool, d: bool, ie: bool, ee: bool)
    requires ReadChildNode(node, name, true, true) == Some(BoolText(v))
    ensures ReadBool(node, name, d, ie, ee) == v
  {
    ReadChildNodeIgnoresFlags(node, name, ie, ee, true, true);
  }

  lemma FloatFieldRead(node: XmlNode, name: string, ft: FloatText, v: real, d: real, ie: bool, ee: bool)
    requires ReadChildNode(node, name, true, true) == Stored(ft.format(v))
    requires Exact(ft, v)
    ensures ReadFloat(node, name, d, ft, ie, ee) == v
  {
    ReadChildNodeIgnoresFlags(node, name, ie, ee, true, true);
  }

  /** Loading a node whose name and flag fields hold the texts written for
      `inst` gives back its name and flags. */
  lemma NameAndFlagsRead(node: XmlNode, inst: Instrument, c: Codecs)
    requires IdAccepted(node)
    requires ReadChildNode(node, "name", true, true) == Stored(inst.name)
    requires ReadChildNode(node, "isMuted", true, true) == Some(BoolText(inst.muted))
    requires ReadChildNode(node, "filterActive", true, true) == Some(BoolText(inst.filterActive))
    requires ReadChildNode(node, "isStopNote", true, true) == Some(BoolText(inst.stopNotes))
    ensures var r := LoadFrom(node, c).value;
      r.name == inst.name && r.muted == inst.muted && r.filterActive == inst.filterActive && r.stopNotes == inst.stopNotes
  {
    LoadedFields(node, c);
    BoolFieldRead(node, "isMuted", inst.muted, false, true, true);
    BoolFieldRead(node, "filterActive", inst.filterActive, true, false, true);
    BoolFieldRead(node, "isStopNote", inst.stopNotes, true, false, true);
  }

  /** Loading a node whose mute-group and MIDI fields hold the texts written
      for `inst` gives back the mute group and the MIDI values the setters accept. */
  lemma GroupAndMidiRead(node: XmlNode, inst: Instrument, c: Codecs)
    requires IdAccepted(node)
    requires ReadChildNode(node, "muteGroup", true, true) == Some(FormatInt(inst.muteGroup))
    requires ReadChildNode(node, "midiOutChannel", true, true) == Some(FormatInt(inst.midiOutChannel))
    requires ReadChildNode(node, "midiOutNote", true, true) == Some(FormatInt(inst.midiOutNote))
    ensures var r := LoadFrom(node, c).value; var p := Persisted(inst);
      r.muteGroup == p.muteGroup && r.midiOutChannel == p.midiOutChannel && r.midiOutNote == p.midiOutNote
  {
    LoadedFields(node, c);
    LoadedMidi(node, c);
    IntFieldRead(node, "muteGroup", inst.muteGroup, -1, true, false);
    IntFieldRead(node, "midiOutChannel", inst.midiOutChannel, -1, true, false);
    IntFieldRead(node, "midiOutNote", inst.midiOutNote, MIDI_MIDDLE_C, true, false);
  }

  /** The text-, integer- and boolean-valued fields survive a save and load
      whatever the float codec does; MIDI values outside their ranges come back
      as the defaults, and what is not stored comes back as a new instrument has it. */
  lemma DiscreteRoundTrip(inst: Instrument, c: Codecs)
    requires inst.id != EMPTY_INSTR_ID
    ensures LoadFrom(InstrumentNode(inst, c), c).Some?
    ensures var r := LoadFrom(InstrumentNode(inst, c), c).value; var p := Persisted(inst);
      && r.id == p.id && r.name == p.name && r.muted == p.muted && r.filterActive == p.filterActive
      && r.muteGroup == p.muteGroup && r.midiOutChannel == p.midiOutChannel && r.midiOutNote == p.midiOutNote
      && r.stopNotes == p.stopNotes
      && r.peakL == p.peakL && r.peakR == p.peakR && r.active == p.active && r.soloed == p.soloed && r.queued == p.queued
  {
    var node := InstrumentNode(inst, c);
    IdRoundTrip(inst, c);
    LoadStateDefaults(node, c);
    SavedNameAndFlags(inst, c);
    SavedGroupAndMidi(inst, c);
    NameAndFlagsRead(node, inst, c);
    GroupAndMidiRead(node, inst, c);
  }

  /** Loading a node whose mixer fields hold the texts an exact float codec
      wrote for `inst` gives back its volume, pans and gain. */
  lemma MixerLevelsRead(node: XmlNode, inst: Instrument, c: Codecs)
    requires IdAccepted(node)
    requires FloatsExact(c.floats, inst)
    requires ReadChildNode(node, "volume", true, true) == Stored(c.floats.format(inst.volume))
    requires ReadChildNode(node, "pan_L", true, true) == Stored(c.floats.format(inst.panL))
    requires ReadChildNode(node, "pan_R", true, true) == Stored(c.floats.format(inst.panR))
    requires ReadChildNode(node, "gain", true, true) == Stored(c.floats.format(inst.gain))
    ensures var r := LoadFrom(node, c).value;
      r.volume == inst.volume && r.panL == inst.panL && r.panR == inst.panR && r.gain == inst.gain
  {
    LoadedFields(node, c);
    FloatFieldRead(node, "volume", c.floats, inst.volume, 1.0, true, true);
    FloatFieldRead(node, "pan_L", c.floats, inst.panL, 1.0, true, true);
    FloatFieldRead(node, "pan_R", c.floats, inst.panR, 1.0, true, true);
    FloatFieldRead(node, "gain", c.floats, inst.gain, 1.0, true, false);
  }

  /** The same for the filter and pitch-randomisation fields. */
  lemma FilterRead(node: XmlNode, inst: Instrument, c: Codecs)
    requires IdAccepted(node)
    requires FloatsExact(c.floats, inst)
    requires ReadChildNode(node, "randomPitchFactor", true, true) == Stored(c.floats.format(inst.randomPitchFactor))
    requires ReadChildNode(node, "filterCutoff", true, true) == Stored(c.floats.format(inst.filterCutoff))
    requires ReadChildNode(node, "filterResonance", true, true) == Stored(c.floats.format(inst.filterResonance))
    ensures var r := LoadFrom(node, c).value;
      r.randomPitchFactor == inst.randomPitchFactor && r.filterCutoff == inst.filterCutoff
      && r.filterResonance == inst.filterResonance
  {
    LoadedFields(node, c);
    FloatFieldRead(node, "randomPitchFactor", c.floats, inst.randomPitchFactor, 0.0, true, false);
    FloatFieldRead(node, "filterCutoff", c.floats, inst.filterCutoff, 1.0, true, false);
    FloatFieldRead(node, "filterResonance", c.floats, inst.filterResonance, 0.0, true, false);
  }

  /** The same for the envelope. */
  lemma EnvelopeRead(node: XmlNode, inst: Instrument, c: Codecs)
    requires IdAccepted(node)
    requires FloatsExact(c.floats, inst)
    requires ReadChildNode(node, "Attack", true, true) == Stored(c.floats.format(inst.adsr.attack))
    requires ReadChildNode(node, "Decay", true, true) == Stored(c.floats.format(inst.adsr.decay))
    requires ReadChildNode(node, "Sustain", true, true) == Stored(c.floats.format(inst.adsr.sustain))
    requires ReadChildNode(node, "Release", true, true) == Stored(c.floats.format(inst.adsr.release))
    ensures LoadFrom(node, c).value.adsr == inst.adsr
  {
    LoadedFields(node, c);
    FloatFieldRead(node, "Attack", c.floats, inst.adsr.attack, 0.0, true, false);
    FloatFieldRead(node, "Decay", c.floats, inst.adsr.decay, 0.0, true, false);
    FloatFieldRead(node, "Sustain", c.floats, inst.adsr.sustain, 1.0, true, false);
    FloatFieldRead(node, "Release", c.floats, inst.adsr.release, 1000.0, true, false);
  }

  /** The same for the effect sends. */
  lemma SendsRead(node: XmlNode, inst: Instrument, c: Codecs)
    requires IdAccepted(node)
    requires FloatsExact(c.floats, inst)
    requires forall i :: 0 <= i < MAX_FX ==>
               ReadChildNode(node, FxFieldName(i), true, true) == Stored(c.floats.format(inst.fxLevels[i]))
    ensures LoadFrom(node, c).value.fxLevels == inst.fxLevels
  {
    LoadedFields(node, c);
    LoadedSends(node, c.floats);
  }

  /** Every float field survives a save and load when the float codec reads
      back what it writes. */
  lemma LevelsRoundTrip(inst: Instrument, c: Codecs)
    requires inst.id != EMPTY_INSTR_ID
    requires FloatsExact(c.floats, inst)
    ensures LoadFrom(InstrumentNode(inst, c), c).Some?
    ensures var r := LoadFrom(InstrumentNode(inst, c), c).value;
      && r.volume == inst.volume && r.panL == inst.panL && r.panR == inst.panR && r.gain == inst.gain
      && r.randomPitchFactor == inst.randomPitchFactor && r.filterCutoff == inst.filterCutoff
      && r.filterResonance == inst.filterResonance && r.adsr == inst.adsr && r.fxLevels == inst.fxLevels
  {
    var node := InstrumentNode(inst, c);
    IdRoundTrip(inst, c);
    SavedVolumeAndGain(inst, c);
    SavedPans(inst, c);
    SavedFilter(inst, c);
    SavedEnvelope(inst, c);
    SavedSends(inst, c);
    MixerLevelsRead(node, inst, c);
    FilterRead(node, inst, c);
    EnvelopeRead(node, inst, c);
    SendsRead(node, inst, c);
  }

  /**
   Saving an instrument and loading the result gives back `Persisted(inst)`,
   provided the id is not the sentinel and the float and layer codecs read
   back what they write.
   */
  lemma SaveLoadRoundTrip(inst: Instrument, c: Codecs)
    requires inst.id != EMPTY_INSTR_ID
    requires FloatsExact(c.floats, inst)
    requires LayersExact(c.layers, inst.layers)
    ensures LoadFrom(InstrumentNode(inst, c), c) == Some(Persisted(inst))
  {
    var node := InstrumentNode(inst, c);
    DiscreteRoundTrip(inst, c);
    LevelsRoundTrip(inst, c);
    LoadedFields(node, c);
    LayersRoundTrip(inst, c);
  }
}
