/**
 `Instrument::save_to` and `Instrument::load_from(XMLNode*)`
 (libs/hydrogen/src/basics/instrument.cpp:181-235, 261-292): an instrument
 as an `instrument` element with one text field per persisted value and one
 `layer` child per occupied slot.
 */
module Persistence {
  import opened Options
  import opened Decimal
  import opened Xml
  import opened Instruments

  /** `InstrumentLayer::save_to` (the children of the `layer` element it writes)
      and `InstrumentLayer::load_from`, which are not part of this model. */
  datatype LayerText = LayerText(save: Layer -> seq<Element>, load: Element -> Layer)

  datatype Codecs = Codecs(floats: FloatText, layers: LayerText)

  /** `QString("FX%1Level").arg(i + 1)`. */
  function FxFieldName(i: nat): string {
    "FX" + FormatNat(i + 1) + "Level"
  }

  /** The element `InstrumentLayer::save_to` appends for a layer. */
  function LayerElement(l: Layer, lt: LayerText): Element {
    Element("layer", "", lt.save(l))
  }

  // ---------------------------------------------------------------------------
  // Writing

  /** The fields `save_to` writes, as (name, text) in document order; each text is
      what `write_int`, `write_string`, `write_float` or `write_bool` produces. */
  function FieldTexts(inst: Instrument, ft: FloatText): seq<(string, string)> {
    ScalarTexts(inst, ft) + SendTexts(inst, ft)
  }

  function ScalarTexts(inst: Instrument, ft: FloatText): seq<(string, string)> {
    [ ("id", FormatInt(inst.id)),
      ("name", inst.name),
      ("volume", ft.format(inst.volume)),
      ("isMuted", BoolText(inst.muted)),
      ("pan_L", ft.format(inst.panL)),
      ("pan_R", ft.format(inst.panR)),
      ("randomPitchFactor", ft.format(inst.randomPitchFactor)),
      ("gain", ft.format(inst.gain)),
      ("filterActive", BoolText(inst.filterActive)),
      ("filterCutoff", ft.format(inst.filterCutoff)),
      ("filterResonance", ft.format(inst.filterResonance)),
      ("Attack", ft.format(inst.adsr.attack)),
      ("Decay", ft.format(inst.adsr.decay)),
      ("Sustain", ft.format(inst.adsr.sustain)),
      ("Release", ft.format(inst.adsr.release)),
      ("muteGroup", FormatInt(inst.muteGroup)),
      ("midiOutChannel", FormatInt(inst.midiOutChannel)),
      ("midiOutNote", FormatInt(inst.midiOutNote)),
      ("isStopNote", BoolText(inst.stopNotes)) ]
  }

  /** `FX1Level` ... `FX4Level`, written after the scalar fields. */
  function SendTexts(inst: Instrument, ft: FloatText): seq<(string, string)> {
    seq(MAX_FX, i requires 0 <= i < MAX_FX => (FxFieldName(i), ft.format(inst.fxLevels[i])))
  }

  /** The text elements a sequence of `write_child_node` calls appends. */
  function FieldElements(fs: seq<(string, string)>): (r: seq<Element>)
    ensures |r| == |fs|
    ensures forall k :: 0 <= k < |fs| ==> r[k] == TextElement(fs[k].0, fs[k].1)
  {
    seq(|fs|, k requires 0 <= k < |fs| => TextElement(fs[k].0, fs[k].1))
  }

  /** Successive `write_child_node` calls, one per field: the fields are appended
      in order and nothing else changes. */
  function WriteFields(node: XmlNode, fs: seq<(string, string)>): (r: XmlNode)
    ensures node.Null? ==> r.Null?
    ensures node.Node? ==> r.Node? && r.elem.name == node.elem.name && r.elem.text == node.elem.text
    ensures node.Node? ==> Children(r) == Children(node) + FieldElements(fs)
    decreases fs
  {
    if fs == [] then node else WriteFields(WriteChildNode(node, fs[0].0, fs[0].1), fs[1..])
  }

  /** One `layer` element per occupied slot, in slot order. */
  function LayerElements(slots: seq<Option<Layer>>, lt: LayerText): (r: seq<Element>)
    ensures |r| == |Occupied(slots)|
    ensures forall k :: 0 <= k < |r| ==> r[k] == LayerElement(Occupied(slots)[k], lt)
  {
    seq(|Occupied(slots)|, k requires 0 <= k < |Occupied(slots)| => LayerElement(Occupied(slots)[k], lt))
  }

  /** The loop over the slots calling `layer->save_to` for each occupied one:
      the occupied slots' layers are appended in slot order, empty slots are skipped. */
  function WriteLayers(node: XmlNode, slots: seq<Option<Layer>>, lt: LayerText): (r: XmlNode)
    ensures node.Null? ==> r.Null?
    ensures node.Node? ==> r.Node? && r.elem.name == node.elem.name && r.elem.text == node.elem.text
    ensures node.Node? ==> Children(r) == Children(node) + LayerElements(slots, lt)
    decreases slots
  {
    if slots == [] then node
    else if slots[0].Some? then WriteLayers(AppendChild(node, LayerElement(slots[0].value, lt)), slots[1..], lt)
    else WriteLayers(node, slots[1..], lt)
  }

  /** The layout of a saved instrument: an `instrument` element holding the
      field elements, then one `layer` element per occupied slot. */
  function InstrumentNode(inst: Instrument, c: Codecs): XmlNode {
    Node(Element("instrument", "", FieldElements(FieldTexts(inst, c.floats)) + LayerElements(inst.layers, c.layers)))
  }

  /** The writes `save_to` performs on a fresh `instrument` element produce that layout. */
  function WriteInstrument(inst: Instrument, c: Codecs): (r: XmlNode)
    ensures r == InstrumentNode(inst, c)
  {
    WriteLayers(WriteFields(Node(Element("instrument", "", [])), FieldTexts(inst, c.floats)), inst.layers, c.layers)
  }

  /** `save_to(node)`: appends the instrument element to `node` and changes nothing else. */
  function SaveTo(parent: XmlNode, inst: Instrument, c: Codecs): (r: XmlNode)
    ensures parent.Null? ==> r.Null?
    ensures parent.Node? ==> r.Node? && r.elem.name == parent.elem.name && r.elem.text == parent.elem.text
    ensures parent.Node? ==> Children(r) == Children(parent) + [InstrumentNode(inst, c).elem]
  {
    AppendChild(parent, WriteInstrument(inst, c).elem)
  }

  // ---------------------------------------------------------------------------
  // Reading

  /** The loop over sibling `layer` elements: the n-th goes to slot n; once the
      slots run out the remaining elements are dropped. */
  function FillLayers(slots: LayerSlots, elems: seq<Element>, n: nat, lt: LayerText): LayerSlots
    requires n <= MAX_LAYERS
    decreases |elems|
  {
    if elems == [] then slots
    else if n >= MAX_LAYERS then slots
    else FillLayers(slots[n := Some(lt.load(elems[0]))], elems[1..], n + 1, lt)
  }

  /** The layers of a stored instrument: the legacy single `filename` field when
      there is one (an empty one gives no layer), and the `layer` elements otherwise. */
  function ReadLayers(node: XmlNode, lt: LayerText): LayerSlots {
    if FirstChildElement(node, "filename").Some? then
      var filename := ReadString(node, "filename", "", true, true);
      if filename == "" then NoLayers()
      else NoLayers()[0 := Some(Layer(Sample(filename, 0, 0), FreshLayer))]
    else
      FillLayers(NoLayers(), ChildElements(node, "layer"), 0, lt)
  }

  /** The effect-send levels, `FX1Level` ... `FX4Level`, each defaulting to 0. */
  function ReadFxLevels(node: XmlNode, ft: FloatText): FxLevels {
    seq(MAX_FX, i requires 0 <= i < MAX_FX => ReadFloat(node, FxFieldName(i), 0.0, ft, true, true))
  }

  /** The `id` field, defaulting to the sentinel, reads as something else:
      the nodes `load_from` makes an instrument from. */
  predicate IdAccepted(node: XmlNode) {
    ReadInt(node, "id", EMPTY_INSTR_ID, false, false) != EMPTY_INSTR_ID
  }

  /**
   `load_from(node)`: no instrument when the `id` field, defaulting to the
   sentinel, reads as the sentinel; otherwise a new instrument whose fields are
   read with their defaults, passed through the validated MIDI setters, with
   the layers of the document.
   */
  function LoadFrom(node: XmlNode, c: Codecs): (r: Option<Instrument>)
    ensures r.Some? <==> IdAccepted(node)
    ensures r.Some? ==> r.value.id == ReadInt(node, "id", EMPTY_INSTR_ID, false, false) && MidiInRange(r.value)
  {
    var id := ReadInt(node, "id", EMPTY_INSTR_ID, false, false);
    if id == EMPTY_INSTR_ID then None
    else
      var ft := c.floats;
      var created := New(id, ReadString(node, "name", "", true, true), DefaultEnvelope);
      var mixed := created.(
        volume := ReadFloat(node, "volume", 1.0, ft, true, true),
        muted := ReadBool(node, "isMuted", false, true, true),
        panL := ReadFloat(node, "pan_L", 1.0, ft, true, true),
        panR := ReadFloat(node, "pan_R", 1.0, ft, true, true),
        filterActive := ReadBool(node, "filterActive", true, false, true),
        filterCutoff := ReadFloat(node, "filterCutoff", 1.0, ft, true, false),
        filterResonance := ReadFloat(node, "filterResonance", 0.0, ft, true, false),
        randomPitchFactor := ReadFloat(node, "randomPitchFactor", 0.0, ft, true, false));
      var envelope := Envelope(
        ReadFloat(node, "Attack", 0.0, ft, true, false),
        ReadFloat(node, "Decay", 0.0, ft, true, false),
        ReadFloat(node, "Sustain", 1.0, ft, true, false),
        ReadFloat(node, "Release", 1000.0, ft, true, false));
      var grouped := SetAdsr(mixed, envelope).(
        gain := ReadFloat(node, "gain", 1.0, ft, true, false),
        muteGroup := ReadInt(node, "muteGroup", -1, true, false));
      var routed := SetMidiOutNote(
        SetMidiOutChannel(grouped, ReadInt(node, "midiOutChannel", -1, true, false)),
        ReadInt(node, "midiOutNote", MIDI_MIDDLE_C, true, false));
      var sends := routed.(
        stopNotes := ReadBool(node, "isStopNote", true, false, true),
        fxLevels := ReadFxLevels(node, ft));
      Some(sends.(layers := ReadLayers(node, c.layers)))
  }

  // ---------------------------------------------------------------------------
  // Properties of reading

  /** Each field of a loaded instrument is the value its reader gives. */
  lemma LoadedFields(node: XmlNode, c: Codecs)
    requires IdAccepted(node)
    ensures var inst := LoadFrom(node, c).value; var ft := c.floats;
      && inst.name == ReadString(node, "name", "", true, true)
      && inst.volume == ReadFloat(node, "volume", 1.0, ft, true, true)
      && inst.muted == ReadBool(node, "isMuted", false, true, true)
      && inst.panL == ReadFloat(node, "pan_L", 1.0, ft, true, true)
      && inst.panR == ReadFloat(node, "pan_R", 1.0, ft, true, true)
      && inst.filterActive == ReadBool(node, "filterActive", true, false, true)
      && inst.filterCutoff == ReadFloat(node, "filterCutoff", 1.0, ft, true, false)
      && inst.filterResonance == ReadFloat(node, "filterResonance", 0.0, ft, true, false)
      && inst.randomPitchFactor == ReadFloat(node, "randomPitchFactor", 0.0, ft, true, false)
      && inst.adsr == Envelope(ReadFloat(node, "Attack", 0.0, ft, true, false), ReadFloat(node, "Decay", 0.0, ft, true, false),
                               ReadFloat(node, "Sustain", 1.0, ft, true, false), ReadFloat(node, "Release", 1000.0, ft, true, false))
      && inst.gain == ReadFloat(node, "gain", 1.0, ft, true, false)
      && inst.muteGroup == ReadInt(node, "muteGroup", -1, true, false)
      && inst.stopNotes == ReadBool(node, "isStopNote", true, false, true)
      && inst.fxLevels == ReadFxLevels(node, ft)
      && inst.layers == ReadLayers(node, c.layers)
      && inst.peakL == 0.0 && inst.peakR == 0.0 && inst.active && !inst.soloed && !inst.queued
  {
  }

  /** The field called `name` is absent or empty, so its reader falls back to the default. */
  predicate Missing(node: XmlNode, name: string) {
    ReadChildNode(node, name, true, true).None?
  }

  /** The layer loop puts the k-th element into slot n + k while slots remain and
      leaves every other slot as it was. */
  lemma {:induction false} FillLayersInOrder(slots: LayerSlots, elems: seq<Element>, n: nat, lt: LayerText)
    requires n <= MAX_LAYERS
    decreases |elems|
    ensures forall i :: 0 <= i < MAX_LAYERS ==>
              FillLayers(slots, elems, n, lt)[i] == if n <= i < n + |elems| then Some(lt.load(elems[i - n])) else slots[i]
  {
    if elems != [] && n < MAX_LAYERS {
      FillLayersInOrder(slots[n := Some(lt.load(elems[0]))], elems[1..], n + 1, lt);
    }
  }

  /** An id field that is absent, empty or reads as the sentinel gives no instrument;
      any other id gives one. */
  lemma SentinelRejected(node: XmlNode, c: Codecs)
    ensures Missing(node, "id") ==> LoadFrom(node, c).None?
    ensures LoadFrom(node, c).None? <==>
              (Missing(node, "id") || TextToInt32(ReadChildNode(node, "id", true, true).value) == EMPTY_INSTR_ID)
  {
    ReadChildNodeIgnoresFlags(node, "id", true, true, false, false);
  }

  /** Absent and empty mixer fields read as their documented defaults. */
  lemma LoadMixerDefaults(node: XmlNode, c: Codecs)
    requires IdAccepted(node)
    ensures var inst := LoadFrom(node, c).value;
      && (Missing(node, "name") ==> inst.name == "")
      && (Missing(node, "volume") ==> inst.volume == 1.0)
      && (Missing(node, "isMuted") ==> !inst.muted)
      && (Missing(node, "pan_L") ==> inst.panL == 1.0)
      && (Missing(node, "pan_R") ==> inst.panR == 1.0)
      && (Missing(node, "gain") ==> inst.gain == 1.0)
      && (Missing(node, "muteGroup") ==> inst.muteGroup == -1)
  {
    LoadedFields(node, c);
    ReadChildNodeIgnoresFlags(node, "gain", true, false, true, true);
    ReadChildNodeIgnoresFlags(node, "muteGroup", true, false, true, true);
  }

  /** Effect send i comes from field `FX<i+1>Level` alone: parsed when present,
      0 when absent or empty. */
  lemma LoadedSends(node: XmlNode, ft: FloatText)
    ensures forall i :: 0 <= i < MAX_FX && Missing(node, FxFieldName(i)) ==> ReadFxLevels(node, ft)[i] == 0.0
    ensures forall i :: 0 <= i < MAX_FX && !Missing(node, FxFieldName(i)) ==>
              ReadFxLevels(node, ft)[i] == ft.parse(ReadChildNode(node, FxFieldName(i), true, true).value)
  {
  }

  /** Absent and empty filter fields read as their documented defaults; note
      that a missing `filterActive` or `isStopNote` reads as true. */
  lemma LoadVoiceDefaults(node: XmlNode, c: Codecs)
    requires IdAccepted(node)
    ensures var inst := LoadFrom(node, c).value;
      && (Missing(node, "filterActive") ==> inst.filterActive)
      && (Missing(node, "filterCutoff") ==> inst.filterCutoff == 1.0)
      && (Missing(node, "filterResonance") ==> inst.filterResonance == 0.0)
      && (Missing(node, "randomPitchFactor") ==> inst.randomPitchFactor == 0.0)
      && (Missing(node, "isStopNote") ==> inst.stopNotes)
  {
    LoadedFields(node, c);
    ReadChildNodeIgnoresFlags(node, "filterActive", false, true, true, true);
    ReadChildNodeIgnoresFlags(node, "filterCutoff", true, false, true, true);
    ReadChildNodeIgnoresFlags(node, "filterResonance", true, false, true, true);
    ReadChildNodeIgnoresFlags(node, "randomPitchFactor", true, false, true, true);
    ReadChildNodeIgnoresFlags(node, "isStopNote", false, true, true, true);
  }

  /** Absent and empty envelope fields give the default envelope's values. */
  lemma LoadEnvelopeDefaults(node: XmlNode, c: Codecs)
    requires IdAccepted(node)
    ensures var inst := LoadFrom(node, c).value;
      && (Missing(node, "Attack") ==> inst.adsr.attack == 0.0)
      && (Missing(node, "Decay") ==> inst.adsr.decay == 0.0)
      && (Missing(node, "Sustain") ==> inst.adsr.sustain == 1.0)
      && (Missing(node, "Release") ==> inst.adsr.release == 1000.0)
  {
    LoadedFields(node, c);
    ReadChildNodeIgnoresFlags(node, "Attack", true, false, true, true);
    ReadChildNodeIgnoresFlags(node, "Decay", true, false, true, true);
    ReadChildNodeIgnoresFlags(node, "Sustain", true, false, true, true);
    ReadChildNodeIgnoresFlags(node, "Release", true, false, true, true);
  }

  /** What is not stored (peak levels, active, soloed, queued) starts from the
      constructor's values, and missing MIDI fields give no channel and middle C. */
  lemma LoadStateDefaults(node: XmlNode, c: Codecs)
    requires IdAccepted(node)
    ensures var inst := LoadFrom(node, c).value;
      && inst.peakL == 0.0 && inst.peakR == 0.0 && inst.active && !inst.soloed && !inst.queued
      && (Missing(node, "midiOutChannel") ==> inst.midiOutChannel == -1)
      && (Missing(node, "midiOutNote") ==> inst.midiOutNote == MIDI_MIDDLE_C)
  {
    LoadedFields(node, c);
    LoadedMidi(node, c);
    ReadChildNodeIgnoresFlags(node, "midiOutChannel", true, false, true, true);
    ReadChildNodeIgnoresFlags(node, "midiOutNote", true, false, true, true);
  }

  /** The MIDI fields go through the validated setters: an out-of-range stored
      value leaves the constructor's default (no channel, middle C). */
  lemma LoadedMidi(node: XmlNode, c: Codecs)
    requires IdAccepted(node)
    ensures var inst := LoadFrom(node, c).value;
      var channel := ReadInt(node, "midiOutChannel", -1, true, false);
      var note := ReadInt(node, "midiOutNote", MIDI_MIDDLE_C, true, false);
      && inst.midiOutChannel == (if ChannelInRange(channel) then channel else -1)
      && inst.midiOutNote == (if NoteInRange(note) then note else MIDI_MIDDLE_C)
  {
  }

  /**
   The layers of a stored instrument. With a legacy `filename` field, any `layer`
   elements are ignored, slot 0 holds a layer exactly when that field's text is
   non-empty, and every other slot is empty. Otherwise the first `MAX_LAYERS`
   `layer` elements fill slots 0, 1, ... in document order and the rest stay empty.
   */
  lemma LoadedLayers(node: XmlNode, lt: LayerText)
    ensures var slots := ReadLayers(node, lt);
      && (FirstChildElement(node, "filename").Some? ==>
            && (slots[0].Some? <==> ReadChildNode(node, "filename", true, true).Some?)
            && (slots[0].Some? ==> slots[0].value == Layer(Sample(ReadChildNode(node, "filename", true, true).value, 0, 0), FreshLayer))
            && forall i :: 1 <= i < MAX_LAYERS ==> slots[i].None?)
      && (FirstChildElement(node, "filename").None? ==>
            forall i :: 0 <= i < MAX_LAYERS ==>
              slots[i] == if i < |ChildElements(node, "layer")| then Some(lt.load(ChildElements(node, "layer")[i])) else None)
  {
    if FirstChildElement(node, "filename").Some? {
      LegacyLayers(node, lt);
    } else {
      ElementLayers(node, lt);
    }
  }

  /** The legacy case: one layer from the `filename` field, if it is not empty. */
  lemma LegacyLayers(node: XmlNode, lt: LayerText)
    requires FirstChildElement(node, "filename").Some?
    ensures var slots := ReadLayers(node, lt);
      && (slots[0].Some? <==> ReadChildNode(node, "filename", true, true).Some?)
      && (slots[0].Some? ==> slots[0].value == Layer(Sample(ReadChildNode(node, "filename", true, true).value, 0, 0), FreshLayer))
      && forall i :: 1 <= i < MAX_LAYERS ==> slots[i].None?
  {
    var filename := ReadString(node, "filename", "", true, true);
    if filename == "" {
      assert ReadLayers(node, lt) == NoLayers();
    } else {
      assert ReadLayers(node, lt) == NoLayers()[0 := Some(Layer(Sample(filename, 0, 0), FreshLayer))];
    }
  }

  /** The current case: the `layer` elements fill the slots from the first. */
  lemma ElementLayers(node: XmlNode, lt: LayerText)
    requires FirstChildElement(node, "filename").None?
    ensures forall i :: 0 <= i < MAX_LAYERS ==>
              ReadLayers(node, lt)[i] == if i < |ChildElements(node, "layer")| then Some(lt.load(ChildElements(node, "layer")[i])) else None
  {
    var es := ChildElements(node, "layer");
    var r := FillLayers(NoLayers(), es, 0, lt);
    assert ReadLayers(node, lt) == r;
    FillLayersInOrder(NoLayers(), es, 0, lt);
    forall i | 0 <= i < MAX_LAYERS
      ensures r[i] == if i < |es| then Some(lt.load(es[i])) else None
    {
      assert r[i] == if 0 <= i < 0 + |es| then Some(lt.load(es[i - 0])) else NoLayers()[i];
    }
  }

  // ---------------------------------------------------------------------------
  // Loading against construction

  /** Every child element of the node is an `id` field. */
  predicate OnlyIdChildren(node: XmlNode) {
    forall k :: 0 <= k < |Children(node)| ==> Children(node)[k].name == "id"
  }

  /** Every stored field other than `id` is absent or empty, and there are no
      layer elements and no legacy `filename` field. */
  predicate OnlyId(node: XmlNode) {
    && Missing(node, "name") && Missing(node, "volume") && Missing(node, "isMuted")
    && Missing(node, "pan_L") && Missing(node, "pan_R") && Missing(node, "gain")
    && Missing(node, "muteGroup") && Missing(node, "filterActive") && Missing(node, "filterCutoff")
    && Missing(node, "filterResonance") && Missing(node, "randomPitchFactor")
    && Missing(node, "Attack") && Missing(node, "Decay") && Missing(node, "Sustain") && Missing(node, "Release")
    && Missing(node, "midiOutChannel") && Missing(node, "midiOutNote") && Missing(node, "isStopNote")
    && (forall i :: 0 <= i < MAX_FX ==> Missing(node, FxFieldName(i)))
    && FirstChildElement(node, "filename").None? && ChildElements(node, "layer") == []
  }

  /** Beside `id` fields, a field of any other name is absent. */
  lemma AbsentBesideId(node: XmlNode, name: string)
    requires OnlyIdChildren(node) && name != "id"
    ensures Missing(node, name) && FirstChildElement(node, name).None? && ChildElements(node, name) == []
  {
    NamedNone(Children(node), name);
  }

  /** An element whose children are all `id` fields stores nothing else. */
  lemma OnlyIdChildrenStoreNothingElse(node: XmlNode)
    requires OnlyIdChildren(node)
    ensures OnlyId(node)
  {
    AbsentBesideId(node, "name");
    AbsentBesideId(node, "volume");
    AbsentBesideId(node, "isMuted");
    AbsentBesideId(node, "pan_L");
    AbsentBesideId(node, "pan_R");
    AbsentBesideId(node, "gain");
    AbsentBesideId(node, "muteGroup");
    AbsentBesideId(node, "filterActive");
    AbsentBesideId(node, "filterCutoff");
    AbsentBesideId(node, "filterResonance");
    AbsentBesideId(node, "randomPitchFactor");
    AbsentBesideId(node, "Attack");
    AbsentBesideId(node, "Decay");
    AbsentBesideId(node, "Sustain");
    AbsentBesideId(node, "Release");
    AbsentBesideId(node, "midiOutChannel");
    AbsentBesideId(node, "midiOutNote");
    AbsentBesideId(node, "isStopNote");
    AbsentBesideId(node, "filename");
    AbsentBesideId(node, "layer");
    forall i | 0 <= i < MAX_FX
      ensures Missing(node, FxFieldName(i))
    {
      assert FxFieldName(i)[0] == 'F';
      AbsentBesideId(node, FxFieldName(i));
    }
  }

  /** An element holding nothing but an accepted id loads as the instrument the
      constructor makes with that id, an empty name and a default envelope, except
      that the filter and stop-notes flags, whose load defaults are true, are set. */
  lemma LoadBareInstrument(node: XmlNode, c: Codecs)
    requires IdAccepted(node) && OnlyIdChildren(node)
    ensures LoadFrom(node, c) ==
              Some(New(ReadInt(node, "id", EMPTY_INSTR_ID, false, false), "", DefaultEnvelope).(filterActive := true, stopNotes := true))
  {
    OnlyIdChildrenStoreNothingElse(node);
    LoadOnlyId(node, c);
  }

  /** The same, for any element storing no field but `id`. */
  lemma LoadOnlyId(node: XmlNode, c: Codecs)
    requires IdAccepted(node) && OnlyId(node)
    ensures LoadFrom(node, c) ==
              Some(New(ReadInt(node, "id", EMPTY_INSTR_ID, false, false), "", DefaultEnvelope).(filterActive := true, stopNotes := true))
  {
    var inst := LoadFrom(node, c).value;
    var made := New(ReadInt(node, "id", EMPTY_INSTR_ID, false, false), "", DefaultEnvelope);
    LoadMixerDefaults(node, c);
    LoadVoiceDefaults(node, c);
    LoadEnvelopeDefaults(node, c);
    LoadStateDefaults(node, c);
    LoadedFields(node, c);
    LoadedSends(node, c.floats);
    ElementLayers(node, c.layers);
    assert inst.fxLevels == made.fxLevels;
    assert inst.layers == made.layers;
  }
}
