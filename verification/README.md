# Hydrogen drum instruments, modelled in Dafny

This project models the instrument core of the Hydrogen drum machine: the
`Instrument` aggregate in `libs/hydrogen/src/basics/instrument.cpp` and the
typed field reader and writer of `XMLNode` in
`libs/hydrogen/src/helpers/xml.cpp`.

An instrument has mixer, filter, envelope and MIDI fields, four effect-send
levels and sixteen optional layer slots. The model covers the following:

- **Construction and copying.** `Instruments.New`, `Instruments.CreateEmpty`
  and `Instruments.Copy`.
- **Setters.** The slot accessors, the envelope setter and the range-checked
  MIDI setters.
- **Replacing an instrument from a drum kit.** This is
  `load_from(Drumkit*, Instrument*, is_live)`, in module `KitReplace`. The
  audio-engine lock, sample loading and deletions are recorded as an event
  trace, so the locking protocol becomes a property of a sequence.
- **Loading and unloading samples.** Module `SampleLoading` covers one pass
  over the slots that stops at the first failure.
- **Persistence.** Module `Persistence` covers saving to and loading from an
  XML element. It is built on the `read_*`/`write_*` helpers of module `Xml`.
  Module `RoundTrip` proves what survives a save followed by a load.

The files:

| file | module | content |
|---|---|---|
| options.dfy | Options | `Option`, the stand-in for null pointers and null strings |
| decimal.dfy | Decimal | `int` text as `QString::number` writes it, and `QLocale::c().toInt` on decimal numerals |
| xml.dfy | Xml | elements, `read_child_node`, the typed readers and writers |
| instrument.dfy | Instruments | the instrument record, its constructors and setters |
| kit_replace.dfy | KitReplace | replacing from a kit, and the locking discipline |
| sample_loading.dfy | SampleLoading | `load_samples` / `unload_samples` |
| persistence.dfy | Persistence | `save_to`, `load_from(XMLNode*)` |
| round_trip.dfy | RoundTrip | save-then-load |

### Parameters for code outside this model

Code that lives outside this model enters as a parameter:

- **Float text.** `QString::number(float)` and `QLocale::toFloat` are the
  codec `Xml.FloatText`.
- **Layer persistence.** `InstrumentLayer::save_to` and
  `InstrumentLayer::load_from` are the codec `Persistence.LayerText`. The
  model assumes that `InstrumentLayer::save_to` appends exactly one `layer`
  element, whose children the codec chooses (`Persistence.LayerElement`).
  Every result about how layers are laid out and read back rests on this.
- **Sample loading for a kit.** `Sample::load` is a function from path to
  optional sample.
- **Loading a layer's sample.** `InstrumentLayer::load_sample` and
  `unload_sample` are functions from a layer to a success flag and the
  updated layer.

### Constants assumed from headers

The constants come from headers that are not part of this model. The values
assumed are:

- `MAX_LAYERS` = 16
- `MAX_FX` = 4
- `EMPTY_INSTR_ID` = -1
- `MIDI_MIDDLE_C` = 60
- the MIDI note range is 0..127
- the MIDI channel range is -1..15
- `new ADSR()` is (0, 0, 1, 1000)

### Setters assumed from the header

The inline setters live in `instrument.h`, which is not part of this model.
The model assumes that each of them stores its argument unchanged: `set_id`,
`set_name`, `set_gain`, `set_volume`, `set_pan_l`, `set_pan_r`,
`set_filter_active`, `set_filter_cutoff`, `set_filter_resonance`,
`set_random_pitch_factor`, `set_muted`, `set_mute_group`, `set_stop_notes` and
`set_fx_level`. They are record updates in `Persistence.LoadFrom` and
`KitReplace.ReplaceFromKit`. Only the MIDI setters, whose bodies are in
instrument.cpp:314-328, check their argument.

### Where the code and the documented behaviour differ

Where the documented behaviour and the code differ, the model follows the code:

- **Layer slots after a round trip.** A save followed by a load does not
  preserve slot positions. `save_to` skips empty slots, and `load_from` fills
  slots 0, 1, ... in document order. The occupied layers therefore come back
  packed to the front, in their original order (`RoundTrip.Persisted`,
  `RoundTrip.LayersRoundTrip`).
- **Fields that are not saved.** Besides the peak levels and `queued`, the
  `active` and `soloed` flags are also not saved. They come back as a new
  instrument has them: active, not soloed.
- **MIDI values on load.** Loaded MIDI values pass through the range-checked
  setters, so an out-of-range stored value comes back as the default.
- **The old envelope is freed under the lock.** In a live replacement, the old
  envelope is freed by `set_adsr` inside the locked field block
  (instrument.cpp:150-166). It is not freed outside the lock.
- **Defaults for `filterActive` and the stop-notes flag.** The constructor
  sets both to false. `load_from(XMLNode*)` defaults both to true when the
  field is absent or empty.
- **Flags of the two boolean reads.** The comment before the `filterActive`
  read says the field may be absent but not empty. The calls for
  `filterActive` and `isStopNote` (instrument.cpp:190, 203) pass the reverse:
  `inexistent_ok` false and `empty_ok` true. The model passes the flags as
  called. They only choose what is logged, so the values read are the same.

## Model

| member | source | states |
|---|---|---|
| Decimal.FormatInt | libs/hydrogen/src/helpers/xml.cpp:104 | `write_int` writes a numeral: an optional minus sign followed by at least one digit, never empty |
| Decimal.ParseInt | libs/hydrogen/src/helpers/xml.cpp:83-84 | text is read as an integer exactly when it is a numeral; the sign of the value follows the leading minus |
| Decimal.TextToInt32 | libs/hydrogen/src/helpers/xml.cpp:83-84 | `toInt` yields the numeral's value when it fits a 32-bit `int`, and 0 for a numeral out of that range or text that is not a numeral |
| Decimal.ParseFormatInt | libs/hydrogen/src/helpers/xml.cpp:104 | every integer read back from its written decimal text is itself |
| Decimal.Int32TextRoundTrip | libs/hydrogen/src/helpers/xml.cpp:77-85 | every `int` written by `write_int` reads back unchanged through `toInt` |
| Xml.FirstIndex | libs/hydrogen/src/helpers/xml.cpp:46 | the position found is that of the first child with the name; none is found exactly when no child has it |
| Xml.FirstChildElement | libs/hydrogen/src/helpers/xml.cpp:46 | `firstChildElement` finds a child exactly when one has the name, and then it is the first such child |
| Xml.ReadChildNode | libs/hydrogen/src/helpers/xml.cpp:41-56 | null node, missing child and empty text all give a null string; otherwise the first such child's non-empty text |
| Xml.ReadChildNodeIgnoresFlags | libs/hydrogen/src/helpers/xml.cpp:41-56 | the `inexistent_ok` / `empty_ok` flags never change the value read, only what is logged |
| Xml.ReadString | libs/hydrogen/src/helpers/xml.cpp:58-65 | the default when the child text is null, that text otherwise |
| Xml.ReadFloat | libs/hydrogen/src/helpers/xml.cpp:67-75 | the default when the child text is null, the C-locale parse of the text otherwise |
| Xml.ReadInt | libs/hydrogen/src/helpers/xml.cpp:77-85 | the default when the child text is null, `toInt` of the text otherwise |
| Xml.ReadBool | libs/hydrogen/src/helpers/xml.cpp:87-94 | the default when the child text is null; otherwise true exactly for the text "true" |
| Xml.WriteChildNode | libs/hydrogen/src/helpers/xml.cpp:96-101 | appends one element holding the text after the existing children, which are unchanged; a null node stays null |
| Xml.TextOfTextElement | libs/hydrogen/src/helpers/xml.cpp:98-99 | the text of an element made of one text node is that text |
| Xml.ReadAfterWrite | libs/hydrogen/src/helpers/xml.cpp:96-101 | reading a name just written under a node without it yields the text, or null when the text is empty |
| Xml.ReadShadowed | libs/hydrogen/src/helpers/xml.cpp:41-56 | writing a child with another name, or a second child with an existing name, does not change what is read |
| Xml.ReadAfterWriteInt | libs/hydrogen/src/helpers/xml.cpp:104 | an `int` written with `write_int` reads back unchanged with `read_int` |
| Xml.ReadAfterWriteBool | libs/hydrogen/src/helpers/xml.cpp:105 | a `bool` written with `write_bool` reads back unchanged with `read_bool` |
| Xml.ReadAfterWriteString | libs/hydrogen/src/helpers/xml.cpp:102 | a string written with `write_string` reads back unchanged, except that the empty string reads as the default |
| Xml.NamedStartsAtFirst | libs/hydrogen/src/basics/instrument.cpp:223-231 | the `firstChildElement` / `nextSiblingElement` walk is empty exactly when no child has the name, and starts at the first one |
| Instruments.Occupied | libs/hydrogen/src/basics/instrument.cpp:285-290 | the occupied slots' layers are empty exactly when every slot is empty |
| Instruments.New | libs/hydrogen/src/basics/instrument.cpp:39-65 | a new instrument keeps id, name and envelope; gain, volume and both pans are 1, peaks 0, filter off with cutoff 1 and resonance 0, random pitch 0; MIDI out on middle C with channel -1; mute group -1; no layers and silent sends; active, unsoloed, unmuted, not queued, stop-notes off |
| Instruments.CreateEmpty | libs/hydrogen/src/basics/instrument.cpp:112 | the empty instrument carries the sentinel id, the name "Empty Instrument", the default envelope, no layers, silent sends, and the constructor's mix, filter, MIDI and state defaults, stop-notes off included |
| Instruments.Copy | libs/hydrogen/src/basics/instrument.cpp:67-101 | the copy equals its source field for field, and each slot is occupied exactly when the source's is |
| Instruments.SetLayer | libs/hydrogen/src/basics/instrument.cpp:304-307 | slot `idx` holds the new layer, and every other slot and every other field is unchanged |
| Instruments.GetAfterSetLayer | libs/hydrogen/src/basics/instrument.cpp:299-307 | reading a slot after setting one sees the new layer at that index and the old contents elsewhere |
| Instruments.SetMidiOutChannel | libs/hydrogen/src/basics/instrument.cpp:314-320 | a channel in [-1, 15] is stored; any other leaves the instrument unchanged; no other field changes |
| Instruments.SetMidiOutNote | libs/hydrogen/src/basics/instrument.cpp:322-328 | a note in [0, 127] is stored; any other leaves the instrument unchanged; no other field changes |
| Instruments.MidiSettersKeepRange | libs/hydrogen/src/basics/instrument.cpp:314-328 | the validated setters keep the MIDI fields in range and are idempotent |
| KitReplace.ReplaceSlot | libs/hydrogen/src/basics/instrument.cpp:121-149 | a slot becomes empty exactly when the template slot is empty or its sample fails to load; otherwise it holds the loaded sample with the template layer's settings |
| KitReplace.ReplaceSlots | libs/hydrogen/src/basics/instrument.cpp:121-149 | after n iterations, the first n slots are replaced and the rest are unchanged |
| KitReplace.ReplaceFromKit | libs/hydrogen/src/basics/instrument.cpp:120-167 | layers per slot as above; id, name, mix, envelope, filter, pitch and mute fields come from the template; sends, MIDI, stop-notes, state and peaks are kept |
| KitReplace.LiveReplaceProtocol | libs/hydrogen/src/basics/instrument.cpp:120-167 | live: loads and layer deletions happen with the lock free; each install is in its own lock pair; there are 17 lock pairs; every slot is installed, once each, in order; each old layer is deleted after its slot is installed; the old envelope is freed under the lock |
| KitReplace.SlotsTouched | libs/hydrogen/src/basics/instrument.cpp:121-149 | live or not, every slot gets an install, and only a slot that held a layer has an old layer deleted |
| KitReplace.OfflineReplaceTakesNoLock | libs/hydrogen/src/basics/instrument.cpp:120-167 | not live: the lock is never taken, and every slot is still installed in order with old layers deleted afterwards |
| SampleLoading.FirstFailure | libs/hydrogen/src/basics/instrument.cpp:238-246 | the first occupied slot whose operation fails; every occupied slot before it succeeds; none exactly when all succeed |
| SampleLoading.VisitLayers | libs/hydrogen/src/basics/instrument.cpp:237-259 | the pass succeeds exactly when every occupied slot succeeds, visits occupied slots in order up to the first failure, and leaves later slots untouched |
| SampleLoading.LoadSamples | libs/hydrogen/src/basics/instrument.cpp:237-247 | `load_samples(path)` is that pass with the layer's `load_sample(path)`; no field other than the layers changes |
| SampleLoading.UnloadSamples | libs/hydrogen/src/basics/instrument.cpp:249-259 | `unload_samples()` is that pass with the layer's `unload_sample`; no field other than the layers changes |
| Persistence.FieldElements | libs/hydrogen/src/basics/instrument.cpp:263-284 | one text element per written field, in order: element k is named after field k and holds its text |
| Persistence.WriteFields | libs/hydrogen/src/basics/instrument.cpp:263-284 | successive field writes append the fields' elements in order and change nothing else |
| Persistence.LayerElements | libs/hydrogen/src/basics/instrument.cpp:285-290 | one `layer` element per occupied slot, in slot order |
| Persistence.WriteLayers | libs/hydrogen/src/basics/instrument.cpp:285-290 | the layer loop appends the occupied slots' layer elements in slot order and skips empty slots |
| Persistence.WriteInstrument | libs/hydrogen/src/basics/instrument.cpp:262-290 | the writes on a fresh `instrument` element produce the field elements followed by the layer elements |
| Persistence.SaveTo | libs/hydrogen/src/basics/instrument.cpp:261-292 | `save_to` appends exactly one `instrument` element to the parent and changes nothing else |
| Persistence.LoadFrom | libs/hydrogen/src/basics/instrument.cpp:181-235 | no instrument exactly when the id reads as the sentinel; otherwise one with that id and MIDI values in range |
| Persistence.LoadedFields | libs/hydrogen/src/basics/instrument.cpp:184-206 | each loaded field is what its reader yields, with the default and flags of its call; peaks, active, soloed and queued come from the constructor |
| Persistence.SentinelRejected | libs/hydrogen/src/basics/instrument.cpp:182-183 | a missing or empty id, or one that reads as -1, gives no instrument; any other id gives one |
| Persistence.LoadMixerDefaults | libs/hydrogen/src/basics/instrument.cpp:184-200 | absent or empty name, volume, isMuted, pans, gain and mute group read as "", 1, false, 1, 1, 1 and -1 |
| Persistence.LoadVoiceDefaults | libs/hydrogen/src/basics/instrument.cpp:190-203 | absent filterActive and isStopNote read as true; cutoff 1, resonance 0, random pitch 0 |
| Persistence.LoadEnvelopeDefaults | libs/hydrogen/src/basics/instrument.cpp:194-198 | absent envelope fields read as attack 0, decay 0, sustain 1, release 1000 |
| Persistence.LoadStateDefaults | libs/hydrogen/src/basics/instrument.cpp:184-202 | peaks 0, active, not soloed, not queued; absent MIDI fields give channel -1 and middle C |
| Persistence.LoadedMidi | libs/hydrogen/src/basics/instrument.cpp:201-202 | stored MIDI values go through the validated setters: out-of-range values leave the constructor's defaults |
| Persistence.LoadedSends | libs/hydrogen/src/basics/instrument.cpp:204-206 | send i is the parse of field `FX<i+1>Level` when present, 0 when absent or empty |
| Persistence.FillLayersInOrder | libs/hydrogen/src/basics/instrument.cpp:222-232 | the k-th `layer` element fills slot n + k while slots remain; surplus elements are dropped; other slots are unchanged |
| Persistence.LoadBareInstrument | libs/hydrogen/src/basics/instrument.cpp:181-235 | an element whose children are all `id` fields, with an accepted id, loads as the constructor's instrument with that id, name "" and the default envelope, except that `filterActive` and the stop-notes flag are true |
| Persistence.LoadedLayers | libs/hydrogen/src/basics/instrument.cpp:208-233 | with a legacy `filename` field, only slot 0 can be filled, and it is filled exactly when the name is non-empty; otherwise the first 16 `layer` elements fill slots 0, 1, ... in order |
| RoundTrip.FieldNamesDistinct | libs/hydrogen/src/basics/instrument.cpp:263-284 | the written field names are pairwise distinct, and none is `layer` or `filename` |
| RoundTrip.ReadSavedField | libs/hydrogen/src/basics/instrument.cpp:263-284 | each written field reads back as the text written for it |
| RoundTrip.SavedLayerChildren | libs/hydrogen/src/basics/instrument.cpp:285-290 | a saved instrument has no legacy `filename` field, and its `layer` children are exactly the occupied slots' elements |
| RoundTrip.Packed | libs/hydrogen/src/basics/instrument.cpp:222-232 | the given layers fill the first slots in order and the remaining slots are empty |
| RoundTrip.OccupiedOfPacked | libs/hydrogen/src/basics/instrument.cpp:222-232 | packing layers to the front keeps them and their order |
| RoundTrip.LayerOrderRoundTrip | libs/hydrogen/src/basics/instrument.cpp:208-233 | for any layer codec, slot k of the loaded instrument holds what the codec reads from the element saved for the k-th occupied slot, and the slots after the last one are empty |
| RoundTrip.LayersRoundTrip | libs/hydrogen/src/basics/instrument.cpp:208-233 | with a layer codec that reads back what it writes, the loaded layers are the occupied layers, packed to the front in slot order |
| RoundTrip.IdRoundTrip | libs/hydrogen/src/basics/instrument.cpp:182-183 | a saved instrument loads back exactly when its id is not the sentinel, and then with the same id |
| RoundTrip.EmptyInstrumentNotRestored | libs/hydrogen/src/basics/instrument.cpp:112 | the empty instrument, once saved, never loads back |
| RoundTrip.DiscreteRoundTrip | libs/hydrogen/src/basics/instrument.cpp:182-203 | for any float codec: id, name, flags, mute group and stop-notes survive; out-of-range MIDI values come back as defaults; unsaved state as in a new instrument |
| RoundTrip.LevelsRoundTrip | libs/hydrogen/src/basics/instrument.cpp:185-206 | with an exact float codec, volume, pans, gain, filter, pitch, envelope and sends survive |
| RoundTrip.SaveLoadRoundTrip | libs/hydrogen/src/basics/instrument.cpp:261-292 | save then load gives back the instrument with the unsaved fields reset, the MIDI values normalised and the layers packed |

## Left out

- `XMLDoc::read` and `XMLDoc::write` (xml.cpp:111-156): file I/O and schema validation are not modelled.
- `Instrument::load_instrument` and `load_from(drumkit_name, instrument_name, is_live)` (instrument.cpp:114-118, 169-179): they look up a kit on disk through `Filesystem` and `Drumkit::load`. These are not part of this model; only the `Drumkit*` overload they call is modelled.
- The destructor (instrument.cpp:103-110) and every `delete`: memory is not modelled. Deletions that matter to the locking protocol are events in the trace.
- Logging (`DEBUGLOG`, `ERRORLOG`): omitted. The `inexistent_ok` and `empty_ok` flags only choose what is logged, and `Xml.ReadChildNodeIgnoresFlags` proves they do not affect the value.
- Threads: the audio engine's lock is modelled as events in a trace, not as concurrent execution.
- `InstrumentLayer`, `Sample` and `ADSR` internals live in files that are not part of this model. They are abstract data here, and their loading and saving are parameters.
- The header files with the constants and with `is_queued` are not part of this model. The constants' values are assumed, as listed above.
- Instruments.Instrument: `queued` is a flag, not the counter behind `is_queued`. The copy constructor copies `is_queued()`, so a copy holds 0 or 1 anyway.
- Xml.ReadFloat: float parsing is the injected `FloatText.parse`. Rounding and the text form of `QString::number(float)` are not modelled.
- Decimal.TextToInt32: accepts an optional minus sign and decimal digits only. `read_int` calls Qt 4's `QLocale::toInt(s, ok, base = 0)`, which also detects the base from the text ("010" as octal 8, "0x10" as hex 16) and accepts group separators such as "1,000". Such text, and whitespace or a leading `+`, read as 0 here, and "010" reads as 10. `write_int` never writes such text, so the round trips do not depend on it.
- Xml.TextOf: an element's own character data comes before its children's text. The interleaving of text and child elements in mixed content is not kept.
- RoundTrip.SaveLoadRoundTrip: holds only for codecs that read back what they write (`RoundTrip.FloatsExact`, `RoundTrip.LayersExact`). Whether single-precision floats survive `QString::number` is outside this model.
- RoundTrip.LevelsRoundTrip: same float-codec hypothesis as above.
- RoundTrip.DiscreteRoundTrip: that the mute group survives for every `int` rests on the assumption that `set_mute_group` stores its argument unchanged. If the header's setter clamped groups below -1, such groups would come back changed.
- RoundTrip.LayersRoundTrip: holds only for a layer codec that reads back what it writes (`RoundTrip.LayersExact`), because `InstrumentLayer` is not part of this model. `RoundTrip.LayerOrderRoundTrip` states the slot order for any codec.
- `Instruments.SetAdsr` and `Instruments.GetLayer` have no contract of their own. The envelope a load installs is stated by `Persistence.LoadedFields`, and slot access by `Instruments.GetAfterSetLayer`.
- The `Xml.WriteString`, `Xml.WriteFloat`, `Xml.WriteInt` and `Xml.WriteBool` writers have no contract of their own. They are stated through `Xml.WriteChildNode` and the `Xml.ReadAfterWrite*` lemmas.
- Instruments.Copy: proves the copy is equal as a value. The copy constructor also gives the copy its own `ADSR` and `InstrumentLayer` objects, and the model does not state that separately. Instruments are values here and share nothing, so changing a copy never changes its source.
