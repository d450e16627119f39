/**
 * `useFluidSettings`: the fluid-cursor settings, a module-wide record loaded
 * from the `fluidCursorSettings` key of `localStorage` (or the defaults), and
 * written back there by a deep watcher after every change. Setting values
 * are opaque data: nothing computes with them.
 */
module FluidSettings {
  import opened Js
  import opened Browser

  datatype SettingValue = Number(n: real) | Flag(b: bool) | Color(hex: string)

  /** A settings record: field name to value. */
  type Settings = map<string, SettingValue>

  /** `defaultFluidSettings` */
  const Defaults: Settings := map[
    "SIM_RESOLUTION" := Number(128.0),
    "DYE_RESOLUTION" := Number(512.0),
    "DENSITY_DISSIPATION" := Number(0.5),
    "VELOCITY_DISSIPATION" := Number(0.2),
    "PRESSURE" := Number(6.9),
    "PRESSURE_ITERATIONS" := Number(20.0),
    "CURL" := Number(9.0),
    "SPLAT_RADIUS" := Number(0.8),
    "SPLAT_FORCE" := Number(2200.0),
    "SHADING" := Flag(true),
    "COLOR_UPDATE_SPEED" := Number(0.0),
    "FLUID_COLOR" := Color("#FFA500"),
    "RANDOMIZE_COLOR_ON_CLICK" := Flag(false),
    "OPACITY" := Number(100.0),
    "BRIGHTNESS" := Number(100.0),
    "GRAYSCALE" := Number(0.0),
    "SATURATION" := Number(100.0),
    "CONTRAST" := Number(100.0),
    "BLUR" := Number(0.0)]

  /**
   * `JSON.parse(localStorage.getItem(key) || JSON.stringify(defaults))`: the
   * stored record when there is one, the defaults when the key is absent or
   * empty, and the parse error (thrown at module load) for other text.
   */
  function InitialSettings(stored: Option<Text<Settings>>): (r: Result<Settings, Exn>)
    ensures stored.Some? && stored.value.Serialized? ==> r == Success(stored.value.value)
    ensures stored.None? || !TextIsTruthy(stored.value) ==> r == Success(Defaults)
    ensures stored.Some? && stored.value.Malformed? && TextIsTruthy(stored.value) ==> r == Failure(Error(SyntaxErrorMessage))
  {
    var text := if stored.Some? && TextIsTruthy(stored.value) then stored.value else Stringify(Defaults);
    Parse(text)
  }

  /** `{ ...settings, ...patch }` */
  function Merge(settings: Settings, patch: Settings): (r: Settings)
    ensures r.Keys == settings.Keys + patch.Keys
    ensures forall k :: k in patch ==> r[k] == patch[k]
    ensures forall k :: k in settings && k !in patch ==> r[k] == settings[k]
  {
    settings + patch
  }

  /** Merging the empty patch changes nothing. */
  lemma MergeEmpty(settings: Settings)
    ensures Merge(settings, map[]) == settings
  {
  }

  /** Merging a patch twice is merging it once. */
  lemma MergeIdempotent(settings: Settings, patch: Settings)
    ensures Merge(Merge(settings, patch), patch) == Merge(settings, patch)
  {
  }

  class Fluid {
    var settings: Settings
    /** `localStorage['fluidCursorSettings']` */
    const stored: StorageItem<Text<Settings>>

    /** The stored copy is the serialized settings. */
    ghost predicate Mirrored()
      reads this, stored
    {
      stored.item == Some(Stringify(settings))
    }

    constructor Init(initial: Settings, stored: StorageItem<Text<Settings>>)
      ensures settings == initial && this.stored == stored
    {
      settings := initial;
      this.stored := stored;
    }

    /** The deep watcher: store the serialized settings. */
    method Persist()
      modifies stored
      ensures Mirrored()
    {
      stored.SetItem(Stringify(settings));
    }

    /** `updateSettings(patch)`: overrides exactly the patched fields, then the watcher stores the result. */
    method UpdateSettings(patch: Settings)
      modifies this, stored
      ensures settings == Merge(old(settings), patch)
      ensures Mirrored()
    {
      settings := Merge(settings, patch);
      Persist();
    }

    /**
     * `resetSettings()`: a copy of the defaults, then the watcher stores it.
     * Settings are values here, so later updates cannot reach `Defaults`.
     */
    method ResetSettings()
      modifies this, stored
      ensures settings == Defaults
      ensures Mirrored()
    {
      settings := Defaults;
      Persist();
    }
  }

  /**
   * Module load: the settings start from `InitialSettings`; the watcher has
   * not run yet, so storage is left as it was. A malformed stored record makes
   * the load throw.
   */
  method Load(stored: StorageItem<Text<Settings>>) returns (r: Result<Fluid, Exn>)
    ensures InitialSettings(stored.item).Failure? ==> r == Failure(InitialSettings(stored.item).error)
    ensures InitialSettings(stored.item).Success? ==>
      r.Success? && fresh(r.value) && r.value.settings == InitialSettings(stored.item).value && r.value.stored == stored
    ensures stored.item == old(stored.item)
  {
    var init := InitialSettings(stored.item);
    if init.Failure? {
      r := Failure(init.error);
    } else {
      var f := new Fluid.Init(init.value, stored);
      r := Success(f);
    }
  }
}
