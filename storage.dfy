// Local persistence of presets and settings under one storage key. A stored
// value is either text that does not decode into the expected shape of JSON
// (`Malformed`) or a decoded snapshot whose fields still have to pass the
// schema; loading falls back to the defaults whenever anything is missing or
// invalid, and saving writes only a snapshot that passes the same schema.
module Storage {
  import opened Wrappers
  import opened Core

  /** The preset as JSON gives it back: numbers are arbitrary JSON numbers. */
  datatype RawPreset = RawPreset(
    id: string,
    name: string,
    durationSeconds: real,
    sortOrder: real,
    createdAt: string,
    updatedAt: string)

  /** The settings as JSON gives them back: the modes are arbitrary strings. */
  datatype RawSettings = RawSettings(
    theme: string,
    sound: string,
    volume: real,
    finalMinuteWarnings: bool,
    autoFullscreenPrompt: bool,
    extraLargeFont: bool)

  datatype RawSnapshot = RawSnapshot(version: real, presets: seq<RawPreset>, settings: RawSettings)

  /** What the storage key holds when it is set. */
  datatype StoredItem = Malformed | Json(snapshot: RawSnapshot)

  datatype LocalState = LocalState(presets: seq<Preset>, settings: AppSettings)

  const StorageKey: string := "teachtimer.local.v1"

  function ThemeName(t: ThemeMode): string {
    match t
    case Light => "light"
    case Dark => "dark"
    case HighContrast => "high-contrast"
  }

  function SoundName(s: SoundMode): string {
    match s
    case Bell => "bell"
    case Chime => "chime"
    case Silent => "silent"
  }

  function ParseTheme(s: string): (t: Option<ThemeMode>)
    ensures t.Some? ==> ThemeName(t.value) == s
  {
    if s == "light" then Some(Light)
    else if s == "dark" then Some(Dark)
    else if s == "high-contrast" then Some(HighContrast)
    else None
  }

  function ParseSound(s: string): (m: Option<SoundMode>)
    ensures m.Some? ==> SoundName(m.value) == s
  {
    if s == "bell" then Some(Bell)
    else if s == "chime" then Some(Chime)
    else if s == "silent" then Some(Silent)
    else None
  }

  /** The enum names decode back to the mode they name. */
  lemma ModeNamesRoundTrip(t: ThemeMode, s: SoundMode)
    ensures ParseTheme(ThemeName(t)) == Some(t)
    ensures ParseSound(SoundName(s)) == Some(s)
  {
  }

  predicate IsInteger(x: real) {
    x.Floor as real == x
  }

  predicate PresetOk(p: RawPreset) {
    && |p.id| >= 1
    && 1 <= |p.name| <= 40
    && IsInteger(p.durationSeconds)
    && MinSeconds as real <= p.durationSeconds <= MaxSeconds as real
    && IsInteger(p.sortOrder)
    && p.sortOrder >= 0.0
  }

  predicate SettingsOk(s: RawSettings) {
    && ParseTheme(s.theme).Some?
    && ParseSound(s.sound).Some?
    && 0.0 <= s.volume <= 1.0
  }

  predicate SnapshotOk(snap: RawSnapshot) {
    && snap.version == 1.0
    && |snap.presets| >= 1
    && (forall i :: 0 <= i < |snap.presets| ==> PresetOk(snap.presets[i]))
    && SettingsOk(snap.settings)
  }

  function ToRawPreset(p: Preset): RawPreset {
    RawPreset(p.id, p.name, p.durationSeconds as real, p.sortOrder as real, p.createdAt, p.updatedAt)
  }

  function ToRawSettings(s: AppSettings): RawSettings {
    RawSettings(ThemeName(s.theme), SoundName(s.sound), s.volume,
                s.finalMinuteWarnings, s.autoFullscreenPrompt, s.extraLargeFont)
  }

  /** The object handed to the schema on save, with version 1. */
  function ToRaw(state: LocalState): (snap: RawSnapshot)
    ensures snap.version == 1.0 && |snap.presets| == |state.presets|
  {
    RawSnapshot(1.0,
      seq(|state.presets|, i requires 0 <= i < |state.presets| => ToRawPreset(state.presets[i])),
      ToRawSettings(state.settings))
  }

  function FromRawPreset(p: RawPreset): Preset {
    Preset(p.id, p.name, p.durationSeconds.Floor, p.sortOrder.Floor, p.createdAt, p.updatedAt)
  }

  function FromRawSettings(s: RawSettings): AppSettings
    requires SettingsOk(s)
  {
    AppSettings(ParseTheme(s.theme).value, ParseSound(s.sound).value, s.volume,
                s.finalMinuteWarnings, s.autoFullscreenPrompt, s.extraLargeFont)
  }

  /** The typed data of a snapshot that passed the schema. */
  function FromRaw(snap: RawSnapshot): (state: LocalState)
    requires SnapshotOk(snap)
    ensures |state.presets| == |snap.presets|
  {
    LocalState(
      seq(|snap.presets|, i requires 0 <= i < |snap.presets| => FromRawPreset(snap.presets[i])),
      FromRawSettings(snap.settings))
  }

  /** Whether a typed state would pass the schema when saved. */
  predicate StateOk(state: LocalState) {
    SnapshotOk(ToRaw(state))
  }

  /** Every preset of a state that passes the schema has a duration in range. */
  lemma StatePresetDuration(state: LocalState, i: nat)
    requires StateOk(state) && i < |state.presets|
    ensures MinSeconds <= state.presets[i].durationSeconds <= MaxSeconds
  {
    assert PresetOk(ToRaw(state).presets[i]);
  }

  function Defaults(stamp: string): LocalState {
    LocalState(DefaultPresets(stamp), DefaultSettings)
  }

  /** The default presets and settings pass the schema. */
  lemma DefaultsOk(stamp: string)
    ensures StateOk(Defaults(stamp))
  {
    DefaultPresetsTable(stamp);
    var raw := ToRaw(Defaults(stamp));
    forall i | 0 <= i < |raw.presets|
      ensures PresetOk(raw.presets[i])
    {
      assert raw.presets[i] == ToRawPreset(DefaultPresets(stamp)[i]);
    }
  }

  /** The key holds a snapshot that passes the schema. */
  predicate Stored(item: Option<StoredItem>) {
    item.Some? && item.value.Json? && SnapshotOk(item.value.snapshot)
  }

  /** `loadLocalState`: the stored snapshot when it passes the schema, and
      the defaults when the key is unset, the text is malformed or the
      snapshot fails the schema. Whatever comes back passes the schema. */
  function LoadLocalState(item: Option<StoredItem>, stamp: string): (state: LocalState)
    ensures StateOk(state)
    ensures Stored(item) ==> ToRaw(state) == item.value.snapshot
    ensures !Stored(item) ==> state == Defaults(stamp)
  {
    match item
    case Some(Json(snap)) =>
      if SnapshotOk(snap) then
        RawRoundTrip(snap);
        FromRaw(snap)
      else
        DefaultsOk(stamp);
        Defaults(stamp)
    case _ =>
      DefaultsOk(stamp);
      Defaults(stamp)
  }

  /** A snapshot that passes the schema is loaded as exactly what it says: it
      can be written back unchanged. */
  lemma {:induction false} RawRoundTrip(snap: RawSnapshot)
    requires SnapshotOk(snap)
    ensures ToRaw(FromRaw(snap)) == snap
  {
    var back := ToRaw(FromRaw(snap));
    assert back.settings == snap.settings;
    assert |back.presets| == |snap.presets|;
    forall i | 0 <= i < |snap.presets|
      ensures back.presets[i] == snap.presets[i]
    {
      assert PresetOk(snap.presets[i]);
    }
  }

  /** Writing the state to raw form and reading it back loses nothing. */
  lemma {:induction false} ToRawFaithful(state: LocalState)
    ensures SnapshotOk(ToRaw(state)) ==> FromRaw(ToRaw(state)) == state
  {
    if SnapshotOk(ToRaw(state)) {
      var back := FromRaw(ToRaw(state));
      ModeNamesRoundTrip(state.settings.theme, state.settings.sound);
      assert back.settings == state.settings;
      assert |back.presets| == |state.presets|;
      forall i | 0 <= i < |state.presets|
        ensures back.presets[i] == state.presets[i]
      {
      }
    }
  }

  /** `saveLocalState`: the new content of the storage key. A state that
      fails the schema is not written and the key keeps what it had. */
  function SaveTo(current: Option<StoredItem>, state: LocalState): (next: Option<StoredItem>)
    ensures StateOk(state) ==> next == Some(Json(ToRaw(state)))
    ensures !StateOk(state) ==> next == current
  {
    if SnapshotOk(ToRaw(state)) then Some(Json(ToRaw(state))) else current
  }

  /** Saving a state that passes the schema and loading it again gives that
      state back, whatever the key held before. */
  lemma SaveThenLoad(current: Option<StoredItem>, state: LocalState, stamp: string)
    requires StateOk(state)
    ensures LoadLocalState(SaveTo(current, state), stamp) == state
  {
    ToRawFaithful(state);
  }

  /** Saving a state that fails the schema leaves what loads unchanged. */
  lemma SaveRejectedKeepsLoad(current: Option<StoredItem>, state: LocalState, stamp: string)
    requires !StateOk(state)
    ensures LoadLocalState(SaveTo(current, state), stamp) == LoadLocalState(current, stamp)
  {
  }

  /** Saving what was just loaded and loading again is stable. */
  lemma LoadSaveLoad(current: Option<StoredItem>, stamp: string)
    ensures var state := LoadLocalState(current, stamp);
      LoadLocalState(SaveTo(current, state), stamp) == state
  {
    SaveThenLoad(current, LoadLocalState(current, stamp), stamp);
  }

  /** One invalid field discards the whole snapshot, valid presets included:
      a volume of 1.5 loads the default presets and settings. */
  lemma LoudVolumeFallsBack(snap: RawSnapshot, stamp: string)
    requires snap.settings.volume == 1.5
    ensures LoadLocalState(Some(Json(snap)), stamp) == Defaults(stamp)
  {
  }

  /** The window's storage for the one key. */
  class LocalStore {
    var item: Option<StoredItem>

    constructor ()
      ensures item == None
    {
      item := None;
    }

    function Load(stamp: string): (state: LocalState)
      reads this
      ensures StateOk(state)
    {
      LoadLocalState(item, stamp)
    }

    method Save(state: LocalState)
      modifies this
      ensures item == SaveTo(old(item), state)
    {
      if SnapshotOk(ToRaw(state)) {
        item := Some(Json(ToRaw(state)));
      }
    }
  }
}
