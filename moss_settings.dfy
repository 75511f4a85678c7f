// The settings page of the TypoMoss engine: the per-element configs, density and
// minimum size it loads from and saves to browser storage, up to three named presets,
// and the recording-time label. Storage becomes fields holding what was last written,
// `confirm` becomes a boolean argument, alerts and calls into the live renderer are
// left out.
module MossSettings {
  import opened Wrappers
  import opened JsStrings
  import opened MossTypes

  /** The configs keyed by element id, as in `ELEMENT_CONFIGS` and the page's state. */
  type Configs = map<string, ElementConfig>

  /** `ELEMENT_CONFIGS` as a record: each row's id maps to the row with that id. */
  const ElementConfigs: Configs :=
    map id | id in (set c | c in ElementConfigRows :: c.elementId) :: TableEntry(id).value

  /** The density and minimum size used when storage has none. */
  const DefaultDensity: real := 0.6
  const DefaultMinElementSize: real := 40.0

  /** What `localStorage.getItem('typomoss-settings')` yields: nothing (or an empty string), text that does not parse to an object, or a parsed object whose fields may be missing. */
  datatype StoredSettings =
    | NoSettings
    | Corrupt
    | Saved(elementConfigs: Option<Configs>, density: Option<real>, minElementSize: Option<real>)

  datatype Settings = Settings(elementConfigs: Configs, density: real, minElementSize: real)

  /** The merge of `loadSettings`: every id of `defaults` keeps its default config; stored ids only add the ones `defaults` lacks. */
  function Merged(defaults: Configs, stored: Configs): (m: Configs)
    ensures m.Keys == defaults.Keys + stored.Keys
    ensures forall id :: id in defaults ==> m[id] == defaults[id]
    ensures forall id :: id in stored && id !in defaults ==> m[id] == stored[id]
  {
    map id | id in defaults.Keys + stored.Keys :: if id in defaults then defaults[id] else stored[id]
  }

  /** `loadSettings`: the defaults without usable storage; otherwise the merged configs and the stored numbers, defaulted when absent. */
  function Loaded(stored: StoredSettings): (s: Settings)
    ensures !stored.Saved? ==> s == Settings(ElementConfigs, DefaultDensity, DefaultMinElementSize)
    ensures stored.Saved? ==> s.elementConfigs == Merged(ElementConfigs, if stored.elementConfigs.Some? then stored.elementConfigs.value else map[])
    ensures stored.Saved? ==> s.density == (if stored.density.Some? then stored.density.value else DefaultDensity)
    ensures stored.Saved? ==> s.minElementSize == (if stored.minElementSize.Some? then stored.minElementSize.value else DefaultMinElementSize)
  {
    match stored
    case Saved(configs, density, minSize) =>
      Settings(Merged(ElementConfigs, if configs.Some? then configs.value else map[]),
        if density.Some? then density.value else DefaultDensity,
        if minSize.Some? then minSize.value else DefaultMinElementSize)
    case _ => Settings(ElementConfigs, DefaultDensity, DefaultMinElementSize)
  }

  /** What `saveSettings` writes. */
  function SavedOf(s: Settings): (st: StoredSettings)
    ensures st.Saved? && st.elementConfigs == Some(s.elementConfigs)
  {
    Saved(Some(s.elementConfigs), Some(s.density), Some(s.minElementSize))
  }

  /** Merging into an already merged record changes nothing. */
  lemma MergedIdempotent(defaults: Configs, stored: Configs)
    ensures Merged(defaults, Merged(defaults, stored)) == Merged(defaults, stored)
    ensures Merged(defaults, defaults) == defaults
  {
  }

  /** Saving the loaded settings and loading them again gives the same settings. */
  lemma ReloadStable(stored: StoredSettings)
    ensures Loaded(SavedOf(Loaded(stored))) == Loaded(stored)
  {
    MergedIdempotent(ElementConfigs, if stored.Saved? && stored.elementConfigs.Some? then stored.elementConfigs.value else map[]);
  }

  /** The two `forEach` loops of `loadSettings`: copy the defaults, then add the stored ids the defaults lack. */
  method MergeConfigs(defaults: Configs, stored: Configs) returns (merged: Configs)
    ensures merged == Merged(defaults, stored)
  {
    merged := map[];
    var todo := defaults.Keys;
    while todo != {}
      invariant todo <= defaults.Keys
      invariant merged.Keys == defaults.Keys - todo
      invariant forall id :: id in merged ==> merged[id] == defaults[id]
      decreases todo
    {
      var id :| id in todo;
      merged := merged[id := defaults[id]];
      todo := todo - {id};
    }
    todo := stored.Keys;
    while todo != {}
      invariant todo <= stored.Keys
      invariant merged.Keys == defaults.Keys + ((stored.Keys - todo) - defaults.Keys)
      invariant forall id :: id in merged ==> merged[id] == (if id in defaults then defaults[id] else stored[id])
      decreases todo
    {
      var id :| id in todo;
      if id !in defaults {
        merged := merged[id := stored[id]];
      }
      todo := todo - {id};
    }
  }

  /** `loadSettings`, with the loops of `MergeConfigs`. */
  method LoadSettings(stored: StoredSettings) returns (s: Settings)
    ensures s == Loaded(stored)
  {
    match stored {
      case Saved(configs, density, minSize) =>
        var merged := MergeConfigs(ElementConfigs, if configs.Some? then configs.value else map[]);
        s := Settings(merged,
          if density.Some? then density.value else DefaultDensity,
          if minSize.Some? then minSize.value else DefaultMinElementSize);
      case _ =>
        s := Settings(ElementConfigs, DefaultDensity, DefaultMinElementSize);
    }
  }

  /** One field of an element config, as `handleUpdateElementConfig` receives it. */
  datatype FieldUpdate =
    | Frequency(frequency: real)
    | Size(size: real)
    | MaxSize(maxSize: real)
    | AnimationMode(mode: Mode)
    | AnimationSpeed(speed: real)
    | Color(color: string)

  /** The config with the one field replaced. */
  function ApplyField(c: ElementConfig, u: FieldUpdate): (r: ElementConfig)
    ensures r.elementId == c.elementId
    ensures u.Frequency? ==> r == c.(frequency := u.frequency)
    ensures u.Size? ==> r == c.(size := Some(u.size))
    ensures u.MaxSize? ==> r == c.(maxSize := Some(u.maxSize))
    ensures u.AnimationMode? ==> r == c.(animationMode := u.mode)
    ensures u.AnimationSpeed? ==> r == c.(animationSpeed := u.speed)
    ensures u.Color? ==> r == c.(color := Some(u.color))
  {
    var none := ConfigPatch(None, None, None, None, None, None, None);
    match u
    case Frequency(f) => MergeConfig(c, none.(frequency := Some(f)))
    case Size(x) => MergeConfig(c, none.(size := Some(x)))
    case MaxSize(x) => MergeConfig(c, none.(maxSize := Some(x)))
    case AnimationMode(m) => MergeConfig(c, none.(animationMode := Some(m)))
    case AnimationSpeed(x) => MergeConfig(c, none.(animationSpeed := Some(x)))
    case Color(x) => MergeConfig(c, none.(color := Some(x)))
  }

  /** A named snapshot of the settings. */
  datatype Preset = Preset(name: string, elementConfigs: Configs, density: real, minElementSize: real)

  /** What `localStorage.getItem('typomoss-presets')` yields. */
  datatype StoredPresets = NoPresets | CorruptPresets | SavedPresets(presets: seq<Preset>)

  /** The most presets `savePreset` lets the list grow to. */
  const MaxPresets: nat := 3

  /** The merge of `loadPreset`: the current ids, each taking the preset's config when the preset has one. */
  function Overlay(current: Configs, preset: Configs): (m: Configs)
    ensures m.Keys == current.Keys
    ensures forall id :: id in current && id in preset ==> m[id] == preset[id]
    ensures forall id :: id in current && id !in preset ==> m[id] == current[id]
  {
    map id | id in current :: if id in preset then preset[id] else current[id]
  }

  /** Loading a preset taken from the current configs gives them back; a preset over the same ids replaces them all. */
  lemma OverlayRoundTrip(current: Configs, preset: Configs)
    ensures Overlay(current, current) == current
    ensures current.Keys <= preset.Keys ==> Overlay(current, preset) == map id | id in current :: preset[id]
  {
  }

  /** The loop of `loadPreset` over the preset's entries. */
  method OverlayConfigs(current: Configs, preset: Configs) returns (merged: Configs)
    ensures merged == Overlay(current, preset)
  {
    merged := current;
    var todo := preset.Keys;
    while todo != {}
      invariant todo <= preset.Keys && merged.Keys == current.Keys
      invariant forall id :: id in current ==> merged[id] == (if id in preset && id !in todo then preset[id] else current[id])
      decreases todo
    {
      var id :| id in todo;
      if id in merged {
        merged := merged[id := preset[id]];
      }
      todo := todo - {id};
    }
  }

  /** `padStart(2, '0')` on a numeral of at most two digits. */
  function PadTwo(s: string): (t: string)
    ensures 1 <= |s| <= 2 && AllDigits(s) ==> |t| == 2 && AllDigits(t) && DigitsValue(t) == DigitsValue(s)
  {
    if |s| < 2 then
      assert ("0" + s)[..1] == "0" && ("0" + s)[..1][..0] == [];
      "0" + s
    else s
  }

  /** The recording-time label: whole minutes, a colon, and the seconds padded to two digits. */
  function RecordingLabel(seconds: nat): (text: string)
    ensures |text| >= 4 && text[|text| - 3] == ':'
    ensures AllDigits(text[|text| - 2..]) && DigitsValue(text[|text| - 2..]) == seconds % 60
  {
    var m, t := NatToString(seconds / 60), PadTwo(NatToString(seconds % 60));
    PaddedSecondsValue(seconds % 60);
    ColonSplit(m, t);
    m + ":" + t
  }

  /** The label has one colon; before it are the minutes, after it exactly two digits holding the seconds, and together they give back the time. */
  lemma RecordingLabelReadsBack(seconds: nat)
    ensures var text := RecordingLabel(seconds);
            var m := NatToString(seconds / 60);
            && text[..|m|] == m && text[|m|] == ':'
            && |text| == |m| + 3 && AllDigits(text[|m| + 1..])
            && DigitsValue(m) * 60 + DigitsValue(text[|m| + 1..]) == seconds
  {
    var q, r := seconds / 60, seconds % 60;
    var m, t := NatToString(q), PadTwo(NatToString(r));
    NatToStringValue(q);
    PaddedSecondsValue(r);
    ColonSplit(m, t);
  }

  /** A string built as `m + ":" + t` splits back into `m` and `t` at index `|m|`. */
  lemma ColonSplit(m: string, t: string)
    ensures var text := m + ":" + t;
            text[..|m|] == m && text[|m|] == ':' && text[|m| + 1..] == t && |text| == |m| + 1 + |t|
  {
    var text := m + ":" + t;
    assert text[..|m|] == m;
    assert text[|m| + 1..] == t;
  }

  /** The seconds below 60, padded to two characters, are two digits reading back as the seconds. */
  lemma PaddedSecondsValue(n: nat)
    requires n < 60
    ensures var t := PadTwo(NatToString(n));
            |t| == 2 && AllDigits(t) && DigitsValue(t) == n
  {
    var s := NatToString(n);
    NatToStringValue(n);
    SecondsNumeralShort(n);
    if |s| < 2 {
      var t := "0" + s;
      assert t[..1] == "0" && t[1..] == s;
    }
  }

  /** A number below 60 has at most two digits. */
  lemma SecondsNumeralShort(n: nat)
    requires n < 60
    ensures |NatToString(n)| <= 2
  {
    if n >= 10 {
      assert NatToString(n) == NatToString(n / 10) + [DigitChar(n % 10)];
    }
  }

  /** The page's settings and preset state, and what it last wrote to storage. */
  class SettingsPage {
    var elementConfigs: Configs
    var density: real
    var minElementSize: real
    var presets: seq<Preset>
    var presetNameInput: string
    var editingPresetIndex: Option<nat>
    var isRenamingOnly: bool
    var showPresetModal: bool
    var storedSettings: StoredSettings
    var storedPresets: StoredPresets

    /** The first render: settings from storage, no presets yet, nothing being edited. */
    constructor (stored: StoredSettings, storedList: StoredPresets)
      ensures Settings(elementConfigs, density, minElementSize) == Loaded(stored)
      ensures presets == [] && editingPresetIndex.None? && !isRenamingOnly && !showPresetModal && presetNameInput == ""
      ensures storedSettings == stored && storedPresets == storedList
    {
      var s := LoadSettings(stored);
      elementConfigs := s.elementConfigs;
      density := s.density;
      minElementSize := s.minElementSize;
      presets := [];
      presetNameInput := "";
      editingPresetIndex := None;
      isRenamingOnly := false;
      showPresetModal := false;
      storedSettings := stored;
      storedPresets := storedList;
    }

    /** The preset effect: a stored list that parses replaces the presets; anything else leaves them. */
    method LoadPresets()
      modifies this`presets
      ensures storedPresets.SavedPresets? ==> presets == storedPresets.presets
      ensures !storedPresets.SavedPresets? ==> presets == old(presets)
    {
      if storedPresets.SavedPresets? {
        presets := storedPresets.presets;
      }
    }

    /** `handleUpdateDensity`: the density is replaced and the settings are saved with it. */
    method UpdateDensity(value: real)
      modifies this`density, this`storedSettings
      ensures density == value
      ensures storedSettings == SavedOf(Settings(elementConfigs, value, minElementSize))
    {
      density := value;
      storedSettings := SavedOf(Settings(elementConfigs, value, minElementSize));
    }

    /** `handleUpdateMinElementSize`: the minimum size is replaced and the settings are saved with it. */
    method UpdateMinElementSize(value: real)
      modifies this`minElementSize, this`storedSettings
      ensures minElementSize == value
      ensures storedSettings == SavedOf(Settings(elementConfigs, density, value))
    {
      minElementSize := value;
      storedSettings := SavedOf(Settings(elementConfigs, density, value));
    }

    /** `handleUpdateElementConfig`: a known element gets the one field replaced and the settings are saved; an unknown id changes nothing. */
    method UpdateElementConfig(elementId: string, u: FieldUpdate)
      modifies this`elementConfigs, this`storedSettings
      ensures elementId in old(elementConfigs) ==>
        && elementConfigs == old(elementConfigs)[elementId := ApplyField(old(elementConfigs)[elementId], u)]
        && storedSettings == SavedOf(Settings(elementConfigs, density, minElementSize))
      ensures elementId !in old(elementConfigs) ==> elementConfigs == old(elementConfigs) && storedSettings == old(storedSettings)
    {
      if elementId in elementConfigs {
        elementConfigs := elementConfigs[elementId := ApplyField(elementConfigs[elementId], u)];
        storedSettings := SavedOf(Settings(elementConfigs, density, minElementSize));
      }
    }

    /** `renamePreset` and `overwritePreset`: open the modal on an existing preset, its name in the input. */
    method EditPreset(index: nat, renameOnly: bool)
      requires index < |presets|
      modifies this`editingPresetIndex, this`presetNameInput, this`isRenamingOnly, this`showPresetModal
      ensures editingPresetIndex == Some(index) && presetNameInput == presets[index].name
      ensures isRenamingOnly == renameOnly && showPresetModal
    {
      editingPresetIndex := Some(index);
      presetNameInput := presets[index].name;
      isRenamingOnly := renameOnly;
      showPresetModal := true;
    }

    /** `savePreset`: when `PresetsAfterSave` refuses, the list, the storage and the input are left as they were; otherwise its list becomes the presets and is saved, the input is cleared and the modal closed. */
    method SavePreset()
      requires editingPresetIndex.Some? ==> editingPresetIndex.value < |presets|
      modifies this`presets, this`storedPresets, this`presetNameInput, this`editingPresetIndex, this`isRenamingOnly, this`showPresetModal
      ensures var r := PresetsAfterSave(old(presets), old(presetNameInput), old(editingPresetIndex), old(isRenamingOnly),
                Preset(old(presetNameInput), old(elementConfigs), old(density), old(minElementSize)));
        r.None? ==> (presets == old(presets) && storedPresets == old(storedPresets) && presetNameInput == old(presetNameInput) &&
          editingPresetIndex == old(editingPresetIndex) && isRenamingOnly == old(isRenamingOnly) && showPresetModal == old(showPresetModal))
      ensures var r := PresetsAfterSave(old(presets), old(presetNameInput), old(editingPresetIndex), old(isRenamingOnly),
                Preset(old(presetNameInput), old(elementConfigs), old(density), old(minElementSize)));
        r.Some? ==> (presets == r.value && storedPresets == SavedPresets(presets) &&
          presetNameInput == "" && editingPresetIndex.None? && !isRenamingOnly && !showPresetModal)
    {
      var r := PresetsAfterSave(presets, presetNameInput, editingPresetIndex, isRenamingOnly,
        Preset(presetNameInput, elementConfigs, density, minElementSize));
      if r.None? {
        return;
      }
      presets := r.value;
      storedPresets := SavedPresets(r.value);
      presetNameInput := "";
      editingPresetIndex := None;
      isRenamingOnly := false;
      showPresetModal := false;
    }

    /** `loadPreset`: the current ids take the preset's configs where it has them, the preset's numbers replace the page's, and the result is saved. */
    method LoadPreset(preset: Preset)
      modifies this`elementConfigs, this`density, this`minElementSize, this`storedSettings
      ensures elementConfigs == Overlay(old(elementConfigs), preset.elementConfigs)
      ensures elementConfigs.Keys == old(elementConfigs).Keys
      ensures density == preset.density && minElementSize == preset.minElementSize
      ensures storedSettings == SavedOf(Settings(elementConfigs, density, minElementSize))
    {
      var merged := OverlayConfigs(elementConfigs, preset.elementConfigs);
      elementConfigs := merged;
      density := preset.density;
      minElementSize := preset.minElementSize;
      storedSettings := SavedOf(Settings(merged, density, minElementSize));
    }

    /** `deletePreset`: when confirmed, exactly the entry at `index` leaves the list, the others keep their order, and the list is saved. */
    method DeletePreset(index: nat, confirmed: bool)
      requires index < |presets|
      modifies this`presets, this`storedPresets
      ensures !confirmed ==> presets == old(presets) && storedPresets == old(storedPresets)
      ensures confirmed ==> presets == old(presets)[..index] + old(presets)[index + 1..] && storedPresets == SavedPresets(presets)
    {
      if confirmed {
        presets := presets[..index] + presets[index + 1..];
        storedPresets := SavedPresets(presets);
      }
    }
  }

  /** The list `savePreset` stores, or `None` when it refuses: a blank name, or a new preset when 3 exist. An edited preset is renamed (only its name changes) or overwritten with `current`, in place; a new one is appended. */
  function PresetsAfterSave(ps: seq<Preset>, name: string, editing: Option<nat>, renameOnly: bool, current: Preset): (r: Option<seq<Preset>>)
    requires editing.Some? ==> editing.value < |ps|
    ensures Trim(name) == "" ==> r.None?
    ensures editing.None? && |ps| >= MaxPresets ==> r.None?
    ensures Trim(name) != "" && editing.Some? && renameOnly ==> r == Some(ps[editing.value := ps[editing.value].(name := name)])
    ensures Trim(name) != "" && editing.Some? && !renameOnly ==> r == Some(ps[editing.value := current])
    ensures Trim(name) != "" && editing.None? && |ps| < MaxPresets ==> r == Some(ps + [current])
  {
    if Trim(name) == "" then None
    else if editing.None? && |ps| >= MaxPresets then None
    else if editing.Some? then
      var i := editing.value;
      if renameOnly then Some(ps[i := ps[i].(name := name)]) else Some(ps[i := current])
    else Some(ps + [current])
  }

  /** A name made only of whitespace is refused. */
  lemma BlankNameRefused(ps: seq<Preset>, name: string, editing: Option<nat>, renameOnly: bool, current: Preset)
    requires editing.Some? ==> editing.value < |ps|
    requires forall i :: 0 <= i < |name| ==> IsJsWhitespace(name[i])
    ensures PresetsAfterSave(ps, name, editing, renameOnly, current).None?
  {
    TrimEmptyIffBlank(name);
  }

  /** A save grows the list by at most one, and only from fewer than 3: a list of at most 3 presets stays so. */
  lemma PresetCountBounded(ps: seq<Preset>, name: string, editing: Option<nat>, renameOnly: bool, current: Preset)
    requires editing.Some? ==> editing.value < |ps|
    ensures var r := PresetsAfterSave(ps, name, editing, renameOnly, current);
            r.Some? ==> (|r.value| == |ps| || (editing.None? && |ps| < MaxPresets && |r.value| == |ps| + 1))
    ensures var r := PresetsAfterSave(ps, name, editing, renameOnly, current);
            r.Some? && |ps| <= MaxPresets ==> |r.value| <= MaxPresets
  {
  }

  /** Renaming changes only the name of the edited preset; every other preset, and every other field, is kept. */
  lemma RenameKeepsRest(ps: seq<Preset>, name: string, i: nat, current: Preset)
    requires i < |ps| && Trim(name) != ""
    ensures var r := PresetsAfterSave(ps, name, Some(i), true, current).value;
            |r| == |ps| && r[i].name == name
            && r[i].elementConfigs == ps[i].elementConfigs && r[i].density == ps[i].density && r[i].minElementSize == ps[i].minElementSize
            && forall k :: 0 <= k < |ps| && k != i ==> r[k] == ps[k]
  {
  }

  /** The filtered list of `deletePreset` is the list without its `index`-th entry. */
  lemma DeleteKeepsOthers(ps: seq<Preset>, index: nat)
    requires index < |ps|
    ensures var r := ps[..index] + ps[index + 1..];
            |r| == |ps| - 1 && forall i :: 0 <= i < |r| ==> r[i] == (if i < index then ps[i] else ps[i + 1])
  {
  }
}
