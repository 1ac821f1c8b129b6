/**
 * The option stores of the front end: `Storage` (in www/src/services and
 * its older copy in www/src) and the landing page's `LandingStore`. Each
 * keeps the launcher's options as strings in the browser's
 * `localStorage`, modelled as a map owned by the store, under a prefixed
 * key; each getter turns a missing or empty item into a default.
 *
 * JavaScript values are modelled as `JsValue`: `setItem` stores their
 * string form, and `x || d` falls back to `d` when `x` is `null` or the
 * empty string. The values the stores take from their `Constants` module
 * are parameters: which keys the setter and `removeAllOptions` use for
 * the scaling and power-preference options, and the defaults.
 */
module OptionStorage {
  import opened Wrappers
  import Text

  datatype JsValue = Undefined | Str(s: string) | Num(n: int) | Bool(b: bool)

  /** `String(v)`, as `setItem` and string concatenation apply it. */
  function ToJsString(v: JsValue): string
  {
    match v
    case Undefined => "undefined"
    case Str(s) => s
    case Num(n) => Text.IntToString(n)
    case Bool(b) => if b then "true" else "false"
  }

  /** JavaScript truthiness, as `stretch ? 'true' : 'false'` tests it. */
  predicate Truthy(v: JsValue)
  {
    match v
    case Undefined => false
    case Str(s) => s != ""
    case Num(n) => n != 0
    case Bool(b) => b
  }

  /** The options; each store method pair is one of these. */
  datatype StoreOption =
    | ScalingSelect
    | PowerPreferenceSelect
    | CustomResWidth
    | CustomResHeight
    | CustomArX
    | CustomArY
    | CustomStretchNearest
    | AntiAliasing
    | FilterPresets

  /** The key names each source file declares locally. */
  function LocalName(o: StoreOption): string
  {
    match o
    case ScalingSelect => "option-scaling"
    case PowerPreferenceSelect => "option-powerPreference"
    case CustomResWidth => "option-scaling-custom-resolution-width"
    case CustomResHeight => "option-scaling-custom-resolution-height"
    case CustomArX => "option-scaling-custom-aspect-ratio-x"
    case CustomArY => "option-scaling-custom-aspect-ratio-y"
    case CustomStretchNearest => "option-scaling-custom-stretch-nearest"
    case AntiAliasing => "option-antialias"
    case FilterPresets => "option-filter-presets"
  }

  /** Which option a local key name belongs to. */
  function OptionOfName(name: string): Option<StoreOption>
  {
    if name == "option-scaling" then Some(ScalingSelect)
    else if name == "option-powerPreference" then Some(PowerPreferenceSelect)
    else if name == "option-scaling-custom-resolution-width" then Some(CustomResWidth)
    else if name == "option-scaling-custom-resolution-height" then Some(CustomResHeight)
    else if name == "option-scaling-custom-aspect-ratio-x" then Some(CustomArX)
    else if name == "option-scaling-custom-aspect-ratio-y" then Some(CustomArY)
    else if name == "option-scaling-custom-stretch-nearest" then Some(CustomStretchNearest)
    else if name == "option-antialias" then Some(AntiAliasing)
    else if name == "option-filter-presets" then Some(FilterPresets)
    else None
  }

  /** Every option is recognised from its key name. */
  lemma OptionOfLocalName(o: StoreOption)
    ensures OptionOfName(LocalName(o)) == Some(o)
  {
    match o {
      case ScalingSelect =>
      case PowerPreferenceSelect =>
      case CustomResWidth =>
      case CustomResHeight =>
      case CustomArX =>
      case CustomArY =>
      case CustomStretchNearest =>
      case AntiAliasing =>
      case FilterPresets =>
    }
  }

  /** No two options share a key name. */
  lemma LocalNamesDistinct(o: StoreOption, p: StoreOption)
    ensures LocalName(o) == LocalName(p) <==> o == p
  {
    OptionOfLocalName(o);
    OptionOfLocalName(p);
  }

  /** `getItem`'s prefix for `Storage`, and the one `LocalStorage('LandingStore')` builds. */
  const StoragePrefix := "DISPLAY_SIM."
  const LandingPrefix := "DISPLAY_SIM.LandingStore."

  /**
   * One store: its key prefix, whether it has the filter-presets option,
   * the key names its scaling setter and `removeAllOptions` use, and its
   * defaults for the scaling, power-preference and preset options.
   */
  datatype StoreConfig = StoreConfig(
    prefix: string,
    hasFilterPresets: bool,
    scalingSetName: string,
    scalingRemoveName: string,
    powerRemoveName: string,
    scalingDefault: JsValue,
    powerDefault: JsValue,
    presetDefault: JsValue)

  /**
   * `Storage` as written, in either copy: the scaling setter and the first
   * two removals use whatever `Constants` holds under the option names.
   */
  function StorageConfig(optionScalingSelect: JsValue, optionPowerPreferenceSelect: JsValue,
                         scalingAutoId: JsValue, powerPreferenceDefault: JsValue, presetApertureGrille: JsValue): StoreConfig
  {
    StoreConfig(StoragePrefix, true, ToJsString(optionScalingSelect), ToJsString(optionScalingSelect),
                ToJsString(optionPowerPreferenceSelect), scalingAutoId, powerPreferenceDefault, presetApertureGrille)
  }

  /** `Storage` with its own key names throughout, as the getters use them. */
  function CorrectedStorageConfig(scalingAutoId: JsValue, powerPreferenceDefault: JsValue, presetApertureGrille: JsValue): StoreConfig
  {
    StorageConfig(Str(LocalName(ScalingSelect)), Str(LocalName(PowerPreferenceSelect)), scalingAutoId, powerPreferenceDefault, presetApertureGrille)
  }

  /** `LandingStore`: local key names only, no filter-presets option. */
  function LandingConfig(scalingAutoId: JsValue, powerPreferenceDefault: JsValue): StoreConfig
  {
    StoreConfig(LandingPrefix, false, LocalName(ScalingSelect), LocalName(ScalingSelect), LocalName(PowerPreferenceSelect),
                scalingAutoId, powerPreferenceDefault, Undefined)
  }

  /** A store whose setter and removals use the getters' key names. */
  predicate Consistent(c: StoreConfig)
  {
    c.scalingSetName == LocalName(ScalingSelect) && c.scalingRemoveName == LocalName(ScalingSelect) &&
    c.powerRemoveName == LocalName(PowerPreferenceSelect)
  }

  predicate Offers(c: StoreConfig, o: StoreOption)
  {
    o != FilterPresets || c.hasFilterPresets
  }

  function GetterKey(c: StoreConfig, o: StoreOption): string
  {
    c.prefix + LocalName(o)
  }

  function SetterKey(c: StoreConfig, o: StoreOption): string
  {
    c.prefix + (if o == ScalingSelect then c.scalingSetName else LocalName(o))
  }

  /** The keys `removeAllOptions` removes. */
  function RemovedKeys(c: StoreConfig): set<string>
  {
    {c.prefix + c.scalingRemoveName, c.prefix + c.powerRemoveName} +
    (set o: StoreOption | o != ScalingSelect && o != PowerPreferenceSelect && Offers(c, o) :: c.prefix + LocalName(o))
  }

  predicate IsBooleanOption(o: StoreOption)
  {
    o == CustomStretchNearest || o == AntiAliasing
  }

  /** What a setter stores: `'true'`/`'false'` for the two flags, the string form of the value otherwise. */
  function Encode(o: StoreOption, v: JsValue): string
  {
    if IsBooleanOption(o) then (if Truthy(v) then "true" else "false") else ToJsString(v)
  }

  function DefaultOf(c: StoreConfig, o: StoreOption): JsValue
  {
    match o
    case ScalingSelect => c.scalingDefault
    case PowerPreferenceSelect => c.powerDefault
    case CustomResWidth => Num(256)
    case CustomResHeight => Num(224)
    case CustomArX => Num(4)
    case CustomArY => Num(3)
    case CustomStretchNearest => Bool(false)
    case AntiAliasing => Bool(true)
    case FilterPresets => c.presetDefault
  }

  /**
   * What a getter makes of the stored item: stretch-nearest is on only for
   * `'true'`, anti-aliasing is on unless `'false'`, and the rest take the
   * item unless it is missing or empty.
   */
  function Decode(c: StoreConfig, o: StoreOption, item: Option<string>): JsValue
  {
    if o == CustomStretchNearest then Bool(item == Some("true"))
    else if o == AntiAliasing then Bool(item != Some("false"))
    else if item.Some? && item.value != "" then Str(item.value)
    else DefaultOf(c, o)
  }

  function Lookup(m: map<string, string>, key: string): Option<string>
  {
    if key in m then Some(m[key]) else None
  }

  function GetOf(c: StoreConfig, m: map<string, string>, o: StoreOption): JsValue
  {
    Decode(c, o, Lookup(m, GetterKey(c, o)))
  }

  function SetOf(c: StoreConfig, m: map<string, string>, o: StoreOption, v: JsValue): map<string, string>
  {
    m[SetterKey(c, o) := Encode(o, v)]
  }

  function RemoveAllOf(c: StoreConfig, m: map<string, string>): map<string, string>
  {
    m - RemovedKeys(c)
  }

  lemma PrefixInjective(p: string, a: string, b: string)
    ensures p + a == p + b <==> a == b
  {
    if p + a == p + b {
      assert a == (p + a)[|p|..] && b == (p + b)[|p|..];
    }
  }

  /** Every key a store reads, writes or removes is under `DISPLAY_SIM.`. */
  lemma KeysArePrefixed(c: StoreConfig, o: StoreOption, k: string)
    requires c.prefix == StoragePrefix || c.prefix == LandingPrefix
    requires k == GetterKey(c, o) || k == SetterKey(c, o) || k in RemovedKeys(c)
    ensures |k| >= |StoragePrefix| && k[..|StoragePrefix|] == StoragePrefix
  {
    assert LandingPrefix == StoragePrefix + "LandingStore.";
  }

  /** In a consistent store each setter writes the key its getter reads, and no other option's key. */
  lemma ConsistentKeys(c: StoreConfig, o: StoreOption, p: StoreOption)
    requires Consistent(c)
    ensures SetterKey(c, o) == GetterKey(c, o)
    ensures SetterKey(c, o) == GetterKey(c, p) <==> o == p
  {
    LocalNamesDistinct(o, p);
    PrefixInjective(c.prefix, LocalName(o), LocalName(p));
  }

  /**
   * Where the setter and the getter agree on the key, reading back gives
   * the encoded value: a non-empty string comes back as it was, a number
   * as its decimal string, an empty string as the default, and a flag as
   * its truth value.
   */
  lemma RoundTrip(c: StoreConfig, m: map<string, string>, o: StoreOption, v: JsValue)
    requires SetterKey(c, o) == GetterKey(c, o)
    ensures GetOf(c, SetOf(c, m, o, v), o) == Decode(c, o, Some(Encode(o, v)))
    ensures IsBooleanOption(o) ==> GetOf(c, SetOf(c, m, o, v), o) == Bool(Truthy(v))
    ensures !IsBooleanOption(o) && v.Str? && v.s != "" ==> GetOf(c, SetOf(c, m, o, v), o) == v
    ensures !IsBooleanOption(o) && v == Str("") ==> GetOf(c, SetOf(c, m, o, v), o) == DefaultOf(c, o)
    ensures !IsBooleanOption(o) && v.Num? ==> GetOf(c, SetOf(c, m, o, v), o) == Str(Text.IntToString(v.n))
  {
  }

  /** In a consistent store, setting one option leaves what every other getter returns unchanged. */
  lemma SetLeavesOthers(c: StoreConfig, m: map<string, string>, o: StoreOption, p: StoreOption, v: JsValue)
    requires Consistent(c) && o != p
    ensures GetOf(c, SetOf(c, m, o, v), p) == GetOf(c, m, p)
  {
    ConsistentKeys(c, o, p);
  }

  /** An empty store answers every getter with its default. */
  lemma EmptyGivesDefaults(c: StoreConfig, o: StoreOption)
    ensures GetOf(c, map[], o) == DefaultOf(c, o)
  {
  }

  /** In a consistent store, after `removeAllOptions` every getter it offers returns its default. */
  lemma RemoveAllRestoresDefaults(c: StoreConfig, m: map<string, string>, o: StoreOption)
    requires Consistent(c) && Offers(c, o)
    ensures GetOf(c, RemoveAllOf(c, m), o) == DefaultOf(c, o)
  {
    assert GetterKey(c, o) in RemovedKeys(c);
  }

  /** Both shipped configurations of `LandingStore` and the corrected `Storage` are consistent. */
  lemma CorrectedStoresAreConsistent(scalingAutoId: JsValue, powerPreferenceDefault: JsValue, presetApertureGrille: JsValue)
    ensures Consistent(CorrectedStorageConfig(scalingAutoId, powerPreferenceDefault, presetApertureGrille))
    ensures Consistent(LandingConfig(scalingAutoId, powerPreferenceDefault))
    ensures !LandingConfig(scalingAutoId, powerPreferenceDefault).hasFilterPresets
  {
  }

  /**
   * `Storage` as written: when the `Constants` entry the scaling setter
   * uses does not print as `option-scaling`, a set scaling option is never
   * read back — the getter answers what it answered before — and when the
   * entries `removeAllOptions` uses for scaling and power preference print
   * as neither option's name, those two options survive the reset.
   */
  lemma AsWrittenScalingIsLost(optionScalingSelect: JsValue, optionPowerPreferenceSelect: JsValue,
                                scalingAutoId: JsValue, powerPreferenceDefault: JsValue, presetApertureGrille: JsValue,
                                m: map<string, string>, v: JsValue)
    requires ToJsString(optionScalingSelect) != LocalName(ScalingSelect)
    ensures var c := StorageConfig(optionScalingSelect, optionPowerPreferenceSelect, scalingAutoId, powerPreferenceDefault, presetApertureGrille);
            GetOf(c, SetOf(c, m, ScalingSelect, v), ScalingSelect) == GetOf(c, m, ScalingSelect)
  {
    var c := StorageConfig(optionScalingSelect, optionPowerPreferenceSelect, scalingAutoId, powerPreferenceDefault, presetApertureGrille);
    PrefixInjective(c.prefix, c.scalingSetName, LocalName(ScalingSelect));
  }

  lemma AsWrittenResetKeepsScaling(optionScalingSelect: JsValue, optionPowerPreferenceSelect: JsValue,
                                   scalingAutoId: JsValue, powerPreferenceDefault: JsValue, presetApertureGrille: JsValue,
                                   m: map<string, string>, o: StoreOption)
    requires o == ScalingSelect || o == PowerPreferenceSelect
    requires ToJsString(optionScalingSelect) != LocalName(ScalingSelect) && ToJsString(optionScalingSelect) != LocalName(PowerPreferenceSelect)
    requires ToJsString(optionPowerPreferenceSelect) != LocalName(ScalingSelect) && ToJsString(optionPowerPreferenceSelect) != LocalName(PowerPreferenceSelect)
    ensures var c := StorageConfig(optionScalingSelect, optionPowerPreferenceSelect, scalingAutoId, powerPreferenceDefault, presetApertureGrille);
            GetOf(c, RemoveAllOf(c, m), o) == GetOf(c, m, o)
  {
    ResetMissesKey(StorageConfig(optionScalingSelect, optionPowerPreferenceSelect, scalingAutoId, powerPreferenceDefault, presetApertureGrille), m, o);
  }

  /** `removeAllOptions` removes the getter's key of the scaling or power-preference option only if a removal names it. */
  lemma KeyNotRemoved(c: StoreConfig, o: StoreOption)
    requires o == ScalingSelect || o == PowerPreferenceSelect
    requires c.scalingRemoveName != LocalName(o) && c.powerRemoveName != LocalName(o)
    ensures GetterKey(c, o) !in RemovedKeys(c)
  {
    var key := GetterKey(c, o);
    PrefixInjective(c.prefix, c.scalingRemoveName, LocalName(o));
    PrefixInjective(c.prefix, c.powerRemoveName, LocalName(o));
    forall p: StoreOption | p != ScalingSelect && p != PowerPreferenceSelect
      ensures c.prefix + LocalName(p) != key
    {
      LocalNamesDistinct(p, o);
      PrefixInjective(c.prefix, LocalName(p), LocalName(o));
    }
  }

  /** So that option's getter answers the same after the reset. */
  lemma ResetMissesKey(c: StoreConfig, m: map<string, string>, o: StoreOption)
    requires o == ScalingSelect || o == PowerPreferenceSelect
    requires c.scalingRemoveName != LocalName(o) && c.powerRemoveName != LocalName(o)
    ensures GetOf(c, RemoveAllOf(c, m), o) == GetOf(c, m, o)
  {
    KeyNotRemoved(c, o);
    assert Lookup(RemoveAllOf(c, m), GetterKey(c, o)) == Lookup(m, GetterKey(c, o));
  }

  /**
   * With `Constants` lacking the option names, as the constants module
   * next to www/src/services/storage.js does, the scaling option is written
   * under `DISPLAY_SIM.undefined`.
   */
  lemma UndefinedConstantKey(scalingAutoId: JsValue, powerPreferenceDefault: JsValue, presetApertureGrille: JsValue)
    ensures SetterKey(StorageConfig(Undefined, Undefined, scalingAutoId, powerPreferenceDefault, presetApertureGrille), ScalingSelect) == "DISPLAY_SIM.undefined"
    ensures ToJsString(Undefined) != LocalName(ScalingSelect) && ToJsString(Undefined) != LocalName(PowerPreferenceSelect)
  {
  }

  /** A store over the browser's local storage. */
  class OptionStore {
    var local: map<string, string>
    const config: StoreConfig

    constructor (config: StoreConfig, local: map<string, string>)
      ensures this.config == config && this.local == local
    {
      this.config := config;
      this.local := local;
    }

    /** The getters: `getScalingSelectOption` … `getFilterPresets`. */
    method Get(o: StoreOption) returns (r: JsValue)
      requires Offers(config, o)
      ensures r == GetOf(config, local, o)
    {
      var key := config.prefix + LocalName(o);
      var item := if key in local then Some(local[key]) else None;
      if o == CustomStretchNearest {
        r := Bool(item == Some("true"));
      } else if o == AntiAliasing {
        r := Bool(item != Some("false"));
      } else if item.Some? && item.value != "" {
        r := Str(item.value);
      } else {
        r := DefaultOf(config, o);
      }
    }

    /** The setters: `setScalingSelectOption` … `setFilterPresets`. */
    method Set(o: StoreOption, v: JsValue)
      requires Offers(config, o)
      modifies this
      ensures local == SetOf(config, old(local), o, v)
    {
      var name := if o == ScalingSelect then config.scalingSetName else LocalName(o);
      local := local[config.prefix + name := Encode(o, v)];
    }

    method RemoveAllOptions()
      modifies this
      ensures local == RemoveAllOf(config, old(local))
    {
      local := local - RemovedKeys(config);
    }
  }
}
