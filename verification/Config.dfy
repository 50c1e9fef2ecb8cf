/** Configuration: several layers, one above the other, and what makes the result valid. */
module Config {
  import opened EchoTypes

  datatype Key =
    | EchoEnabled | EchoAutoStart | EchoDebug | EchoCacheMode
    | EssURL | UseESS | EssHTTPSEnabled
    | Idv5Enabled | WebviewCookiesEnabled | ComscoreResetDataOnUserStateChange
    | ReportingProfile | MeasurementLibName | MeasurementLibVersion
    | ApplicationName | ComScoreEnabled | ComScoreDebugMode | TestServiceEnabled | BarbEnabled
    | OtherKey(name: string)

  type Values = map<Key, string>

  /** What the delegates and the reporting profiles bring; a profile is looked up by
      name, in any case of letters. */
  datatype Layers = Layers(comScore: Values, spring: Values, atInternet: Values, profile: string -> Option<Values>)

  const LIBRARY: Values := map[MeasurementLibName := "echo_ios_swift", MeasurementLibVersion := "5.2.1"]

  const DEFAULTS: Values := map[
    EchoEnabled := "true", EchoAutoStart := "true", EchoDebug := "false",
    EssURL := "ess.api.bbci.co.uk", UseESS := "false", EssHTTPSEnabled := "true",
    EchoCacheMode := "offline"]

  // ---- collation ---------------------------------------------------------------------------

  function ProfileOf(l: Layers, user: Option<Values>): Values {
    if user.Some? && ReportingProfile in user.value && l.profile(user.value[ReportingProfile]).Some?
    then l.profile(user.value[ReportingProfile]).value
    else map[]
  }

  /** An empty value counts as not given. */
  function NonEmpty(values: Values): Values { map key | key in values && values[key] != "" :: values[key] }

  function UserValues(user: Option<Values>): Values { if user.Some? then NonEmpty(user.value) else map[] }

  function Lower(l: Layers): Values { DEFAULTS + l.comScore + l.spring + l.atInternet }

  function Collated(l: Layers, user: Option<Values>): Values {
    Lower(l) + ProfileOf(l, user) + UserValues(user) + LIBRARY
  }

  function Lookup(values: Values, key: Key): Option<string> { if key in values then Some(values[key]) else None }

  function First(upper: Option<string>, lower: Option<string>): Option<string> { if upper.Some? then upper else lower }

  /** The value of the highest layer that defines the key. */
  function Highest(l: Layers, user: Option<Values>, key: Key): Option<string> {
    First(Lookup(LIBRARY, key),
    First(Lookup(UserValues(user), key),
    First(Lookup(ProfileOf(l, user), key),
    First(Lookup(l.atInternet, key),
    First(Lookup(l.spring, key),
    First(Lookup(l.comScore, key), Lookup(DEFAULTS, key)))))))
  }

  /** The user's values among the keys no longer `left`. */
  function Taken(values: Values, left: set<Key>): Values {
    map key | key in values && key !in left && values[key] != "" :: values[key]
  }

  lemma LibraryLast(values: Values)
    ensures values[MeasurementLibName := "echo_ios_swift"][MeasurementLibVersion := "5.2.1"] == values + LIBRARY
  {}

  lemma NothingAdded(values: Values)
    ensures values + map[] == values && map[] + values == values
  {}

  /** Builds the configuration layer by layer, walking the user's entries in no
      particular order: the result is the same for every order. */
  method CollateConfig(l: Layers, user: Option<Values>) returns (config: Values)
    ensures config == Collated(l, user)
  {
    NothingAdded(DEFAULTS);
    config := map[];
    config := config + DEFAULTS;
    config := config + l.comScore;
    config := config + l.spring;
    config := config + l.atInternet;
    if user.Some? {
      NothingAdded(config);
      if ReportingProfile in user.value && l.profile(user.value[ReportingProfile]).Some? {
        config := config + l.profile(user.value[ReportingProfile]).value;
      }
      config := OverrideWith(config, user.value);
    } else {
      NothingAdded(config);
    }
    LibraryLast(config);
    config := config[MeasurementLibName := "echo_ios_swift"];
    config := config[MeasurementLibVersion := "5.2.1"];
    hide NonEmpty;
  }

  method OverrideWith(below: Values, values: Values) returns (config: Values)
    ensures config == below + NonEmpty(values)
  {
    config := below;
    var left := values.Keys;
    while left != {}
      invariant left <= values.Keys
      invariant config == below + Taken(values, left)
      decreases left
    {
      var key :| key in left;
      ghost var before := left;
      if values[key] != "" {
        config := config[key := values[key]];
      }
      left := left - {key};
      assert Taken(values, left) ==
             if values[key] != "" then Taken(values, before)[key := values[key]] else Taken(values, before);
    }
    assert Taken(values, {}) == NonEmpty(values);
  }

  lemma CollatedIsHighest(l: Layers, user: Option<Values>, key: Key)
    ensures Lookup(Collated(l, user), key) == Highest(l, user, key)
  {}

  predicate NoEmptyValue(values: Values) { forall key :: key in values ==> values[key] != "" }

  /** No layer below the user's brings an empty value. */
  ghost predicate LayersFilled(l: Layers) {
    NoEmptyValue(l.comScore) && NoEmptyValue(l.spring) && NoEmptyValue(l.atInternet)
    && forall name :: l.profile(name).Some? ==> NoEmptyValue(l.profile(name).value)
  }

  lemma FilledUnion(a: Values, b: Values)
    requires NoEmptyValue(a) && NoEmptyValue(b)
    ensures NoEmptyValue(a + b)
  {}

  lemma DefaultsFilled()
    ensures NoEmptyValue(DEFAULTS) && NoEmptyValue(LIBRARY)
  {}

  lemma CollatedFilled(l: Layers, user: Option<Values>)
    requires LayersFilled(l)
    ensures NoEmptyValue(Collated(l, user))
  {
    DefaultsFilled();
    FilledUnion(DEFAULTS, l.comScore);
    FilledUnion(DEFAULTS + l.comScore, l.spring);
    FilledUnion(DEFAULTS + l.comScore + l.spring, l.atInternet);
    FilledUnion(Lower(l), ProfileOf(l, user));
    FilledUnion(Lower(l) + ProfileOf(l, user), UserValues(user));
    FilledUnion(Lower(l) + ProfileOf(l, user) + UserValues(user), LIBRARY);
    hide NoEmptyValue;
  }

  /** Adding `once` above layers whose keys it has leaves `once`. */
  lemma Absorbs(lower: Values, profile: Values, library: Values, once: Values)
    requires lower.Keys <= once.Keys && library.Keys <= once.Keys
    requires forall key :: key in library ==> once[key] == library[key]
    ensures lower + profile + once + library == once <==> profile.Keys <= once.Keys
  {
    var twice := lower + profile + once + library;
    assert twice.Keys == once.Keys + profile.Keys;
    assert forall key :: key in once ==> twice[key] == once[key];
  }

  /** Collating the result again changes nothing if, and only if, the profile the
      result itself names brings no key that is missing. */
  lemma IdempotentIff(l: Layers, user: Option<Values>)
    requires LayersFilled(l)
    ensures var once := Collated(l, user);
            Collated(l, Some(once)) == once <==> ProfileOf(l, Some(once)).Keys <= once.Keys
  {
    var once := Collated(l, user);
    CollatedFilled(l, user);
    assert UserValues(Some(once)) == once;
    Absorbs(Lower(l), ProfileOf(l, Some(once)), LIBRARY, once);
    hide Lower, ProfileOf, LayersFilled, NoEmptyValue, NonEmpty;
  }

  /** So it is idempotent whenever only the user may name a profile. */
  lemma IdempotentWhenOnlyTheUserNamesAProfile(l: Layers, user: Option<Values>)
    requires LayersFilled(l)
    requires ReportingProfile !in Lower(l)
    requires forall name :: l.profile(name).Some? ==> ReportingProfile !in l.profile(name).value
    ensures Collated(l, Some(Collated(l, user))) == Collated(l, user)
  {
    var once := Collated(l, user);
    CollatedFilled(l, user);
    if ReportingProfile in once {
      assert once[ReportingProfile] == user.value[ReportingProfile];
      assert ProfileOf(l, Some(once)) == ProfileOf(l, user);
    }
    IdempotentIff(l, user);
  }

  // ---- validation ----------------------------------------------------------------------------

  datatype Rule = Optional | NonZeroLength | NoWhiteSpace

  /** Every character is white space; so is the empty text. */
  predicate Blank(isSpace: char -> bool, text: string) { forall c :: c in text ==> isSpace(c) }

  predicate ValidField(isSpace: char -> bool, v: Option<string>, permitted: seq<string>, options: set<Rule>) {
    if v.None? then Optional in options
    else if NonZeroLength in options && |v.value| == 0 then false
    else if NoWhiteSpace in options && Blank(isSpace, v.value) then false
    else |permitted| == 0 || v.value in permitted
  }

  const BOOLEAN: seq<string> := ["true", "false"]

  predicate IsValid(isSpace: char -> bool, appName: string, config: Values) {
    && ValidField(isSpace, Lookup(config, EchoEnabled), BOOLEAN, {})
    && ValidField(isSpace, Lookup(config, EchoAutoStart), BOOLEAN, {})
    && ValidField(isSpace, Some(appName), [], {NonZeroLength, NoWhiteSpace})
    && ValidField(isSpace, Lookup(config, EchoCacheMode), ["offline", "all"], {})
    && ValidField(isSpace, Lookup(config, ComScoreEnabled), BOOLEAN, {Optional})
    && ValidField(isSpace, Lookup(config, ComScoreDebugMode), ["0", "1"], {Optional})
    && ValidField(isSpace, Lookup(config, TestServiceEnabled), BOOLEAN, {Optional})
    && ValidField(isSpace, Lookup(config, UseESS), BOOLEAN, {})
    && ValidField(isSpace, Lookup(config, EssHTTPSEnabled), BOOLEAN, {})
    && ValidField(isSpace, Lookup(config, Idv5Enabled), BOOLEAN, {Optional})
    && ValidField(isSpace, Lookup(config, WebviewCookiesEnabled), BOOLEAN, {Optional})
    && ValidField(isSpace, Lookup(config, BarbEnabled), BOOLEAN, {Optional})
  }

  /** The values a key may have, for the keys that are looked at. */
  function Permitted(key: Key): Option<seq<string>> {
    match key
    case EchoEnabled => Some(BOOLEAN)
    case EchoAutoStart => Some(BOOLEAN)
    case EchoCacheMode => Some(["offline", "all"])
    case ComScoreEnabled => Some(BOOLEAN)
    case ComScoreDebugMode => Some(["0", "1"])
    case TestServiceEnabled => Some(BOOLEAN)
    case UseESS => Some(BOOLEAN)
    case EssHTTPSEnabled => Some(BOOLEAN)
    case Idv5Enabled => Some(BOOLEAN)
    case WebviewCookiesEnabled => Some(BOOLEAN)
    case BarbEnabled => Some(BOOLEAN)
    case _ => None
  }

  predicate Acceptable(v: Option<string>, key: Key) {
    v.Some? && Permitted(key).Some? ==> v.value in Permitted(key).value
  }

  lemma RequiredKeysArePresent(l: Layers, user: Option<Values>)
    ensures {EchoEnabled, EchoAutoStart, EchoCacheMode, UseESS, EssHTTPSEnabled, EssURL} <= Collated(l, user).Keys
  {}

  /** A client is refused for its configuration exactly when its name is blank or the
      highest layer of some checked key holds a value that is not permitted: nothing
      required is ever missing, and no lower layer matters. */
  lemma ValidIff(isSpace: char -> bool, appName: string, l: Layers, user: Option<Values>)
    ensures IsValid(isSpace, appName, Collated(l, user)) <==>
            !Blank(isSpace, appName) && forall key :: Acceptable(Highest(l, user, key), key)
  {
    var config := Collated(l, user);
    RequiredKeysArePresent(l, user);
    forall key ensures Lookup(config, key) == Highest(l, user, key) { CollatedIsHighest(l, user, key); }
    hide Collated, Highest;
    assert forall key :: Acceptable(Lookup(config, key), key) <==> Acceptable(Highest(l, user, key), key);
    AcceptableFields(isSpace, appName, config);
  }

  /** For a key that is looked at, the field is valid when its value is permitted. */
  lemma FieldAcceptable(isSpace: char -> bool, config: Values, key: Key)
    requires Permitted(key).Some?
    ensures ValidField(isSpace, Lookup(config, key), Permitted(key).value, {Optional}) <==>
            Acceptable(Lookup(config, key), key)
    ensures key in config ==>
              (ValidField(isSpace, Lookup(config, key), Permitted(key).value, {}) <==> Acceptable(Lookup(config, key), key))
  {}

  lemma AcceptableFields(isSpace: char -> bool, appName: string, config: Values)
    requires {EchoEnabled, EchoAutoStart, EchoCacheMode, UseESS, EssHTTPSEnabled} <= config.Keys
    ensures IsValid(isSpace, appName, config) <==>
            !Blank(isSpace, appName) && forall key :: Acceptable(Lookup(config, key), key)
  {
    hide ValidField, Acceptable, Blank, Lookup;
    NameValid(isSpace, appName);
    forall key | Permitted(key).Some? { FieldAcceptable(isSpace, config, key); }
    forall key | Permitted(key).None? ensures Acceptable(Lookup(config, key), key) {
      Unchecked(Lookup(config, key), key);
    }
  }

  lemma Unchecked(v: Option<string>, key: Key)
    ensures Permitted(key).None? ==> Acceptable(v, key)
  {}

  lemma NameValid(isSpace: char -> bool, appName: string)
    ensures ValidField(isSpace, Some(appName), [], {NonZeroLength, NoWhiteSpace}) <==> !Blank(isSpace, appName)
  {
    assert |appName| == 0 ==> Blank(isSpace, appName);
  }

  // ---- what the client takes from it -----------------------------------------------------------

  predicate IsTrue(config: Values, key: Key) { Lookup(config, key) == Some("true") }

  function ModeOf(config: Values): CacheMode {
    if Lookup(config, EchoCacheMode) == Some("all") then All else Offline
  }

  function SetupOf(config: Values, keys: LabelKeys, cleanser: Cleanser, essErrorText: string): Setup {
    Setup(IsTrue(config, EchoAutoStart), IsTrue(config, Idv5Enabled),
          IsTrue(config, Idv5Enabled) && IsTrue(config, ComscoreResetDataOnUserStateChange),
          IsTrue(config, UseESS), Lookup(config, EssURL), keys, cleanser, essErrorText)
  }

  /** Every setting of a client, by the highest layer that defines its key. */
  lemma SettingsIff(l: Layers, user: Option<Values>, keys: LabelKeys, cleanser: Cleanser, essErrorText: string)
    ensures var config := Collated(l, user);
            var setup := SetupOf(config, keys, cleanser, essErrorText);
            && (IsTrue(config, EchoEnabled) <==> Highest(l, user, EchoEnabled) == Some("true"))
            && (ModeOf(config) == CacheMode.All <==> Highest(l, user, EchoCacheMode) == Some("all"))
            && (ModeOf(config) == Offline <==> Highest(l, user, EchoCacheMode) != Some("all"))
            && (setup.autoStart <==> Highest(l, user, EchoAutoStart) == Some("true"))
            && (setup.idv5Enabled <==> Highest(l, user, Idv5Enabled) == Some("true"))
            && (setup.resetOnUserStateChange <==>
                Highest(l, user, Idv5Enabled) == Some("true")
                && Highest(l, user, ComscoreResetDataOnUserStateChange) == Some("true"))
            && (setup.essEnabled <==> Highest(l, user, UseESS) == Some("true"))
            && setup.essUrl == Highest(l, user, EssURL)
            && setup.keys == keys && setup.cleanser == cleanser && setup.essErrorText == essErrorText
  {
    forall key ensures Lookup(Collated(l, user), key) == Highest(l, user, key) { CollatedIsHighest(l, user, key); }
    hide Collated, Highest;
  }

  /** With nothing configured by anybody: on, starting by itself, caching offline, without the
      schedule service and without the user feature. */
  lemma DefaultSettings(l: Layers, keys: LabelKeys, cleanser: Cleanser, essErrorText: string)
    requires l.comScore == l.spring == l.atInternet == map[]
    ensures var config := Collated(l, None);
            && IsTrue(config, EchoEnabled) && ModeOf(config) == Offline
            && SetupOf(config, keys, cleanser, essErrorText) ==
               Setup(true, false, false, false, Some("ess.api.bbci.co.uk"), keys, cleanser, essErrorText)
  {
    SettingsIff(l, None, keys, cleanser, essErrorText);
    hide Collated, SetupOf;
  }

  predicate Switch(v: Option<string>) { v == Some("true") || v == Some("false") }

  /** What each key that is looked at may hold. */
  predicate KeyByKey(v: Key -> Option<string>) {
    && Switch(v(EchoEnabled)) && Switch(v(EchoAutoStart)) && Switch(v(UseESS)) && Switch(v(EssHTTPSEnabled))
    && (v(EchoCacheMode) == Some("offline") || v(EchoCacheMode) == Some("all"))
    && (v(ComScoreDebugMode).None? || v(ComScoreDebugMode) == Some("0") || v(ComScoreDebugMode) == Some("1"))
    && (v(ComScoreEnabled).None? || Switch(v(ComScoreEnabled)))
    && (v(TestServiceEnabled).None? || Switch(v(TestServiceEnabled)))
    && (v(Idv5Enabled).None? || Switch(v(Idv5Enabled)))
    && (v(WebviewCookiesEnabled).None? || Switch(v(WebviewCookiesEnabled)))
    && (v(BarbEnabled).None? || Switch(v(BarbEnabled)))
  }

  /** The keys that are switches; the others that are looked at hold one of two texts. */
  predicate IsSwitch(key: Key) {
    || key.EchoEnabled? || key.EchoAutoStart? || key.UseESS? || key.EssHTTPSEnabled?
    || key.ComScoreEnabled? || key.TestServiceEnabled? || key.Idv5Enabled? || key.WebviewCookiesEnabled? || key.BarbEnabled?
  }

  lemma AcceptableSwitch(v: Option<string>, key: Key)
    requires IsSwitch(key)
    ensures Acceptable(v, key) <==> v.None? || Switch(v)
  {}

  lemma AcceptableText(v: Option<string>)
    ensures Acceptable(v, EchoCacheMode) <==> v.None? || v == Some("offline") || v == Some("all")
    ensures Acceptable(v, ComScoreDebugMode) <==> v.None? || v == Some("0") || v == Some("1")
  {}

  lemma AcceptableUnchecked(v: Option<string>, key: Key)
    requires !IsSwitch(key) && !key.EchoCacheMode? && !key.ComScoreDebugMode?
    ensures Acceptable(v, key)
  {}

  lemma AcceptableKeyByKey(v: Key -> Option<string>)
    requires forall key :: key in [EchoEnabled, EchoAutoStart, EchoCacheMode, UseESS, EssHTTPSEnabled] ==> v(key).Some?
    ensures (forall key :: Acceptable(v(key), key)) <==> KeyByKey(v)
  {
    hide Acceptable, Switch;
    AcceptableText(v(EchoCacheMode));
    AcceptableText(v(ComScoreDebugMode));
    forall key | IsSwitch(key) ensures Acceptable(v(key), key) <==> v(key).None? || Switch(v(key)) {
      AcceptableSwitch(v(key), key);
    }
    forall key | !IsSwitch(key) && !key.EchoCacheMode? && !key.ComScoreDebugMode? ensures Acceptable(v(key), key) {
      AcceptableUnchecked(v(key), key);
    }
    if forall key :: Acceptable(v(key), key) {
      assert Acceptable(v(EchoEnabled), EchoEnabled) && Acceptable(v(EchoAutoStart), EchoAutoStart);
      assert Acceptable(v(UseESS), UseESS) && Acceptable(v(EssHTTPSEnabled), EssHTTPSEnabled);
      assert Acceptable(v(EchoCacheMode), EchoCacheMode) && Acceptable(v(ComScoreDebugMode), ComScoreDebugMode);
      assert Acceptable(v(ComScoreEnabled), ComScoreEnabled) && Acceptable(v(TestServiceEnabled), TestServiceEnabled);
      assert Acceptable(v(Idv5Enabled), Idv5Enabled) && Acceptable(v(BarbEnabled), BarbEnabled);
      assert Acceptable(v(WebviewCookiesEnabled), WebviewCookiesEnabled);
    }
  }

  /** The check of a configuration, key by key. */
  lemma ValidKeyByKey(isSpace: char -> bool, appName: string, l: Layers, user: Option<Values>)
    ensures IsValid(isSpace, appName, Collated(l, user)) <==>
            !Blank(isSpace, appName) && KeyByKey(key => Highest(l, user, key))
  {
    var v := (key: Key) => Highest(l, user, key);
    ValidIff(isSpace, appName, l, user);
    RequiredKeysArePresent(l, user);
    forall key | key in [EchoEnabled, EchoAutoStart, EchoCacheMode, UseESS, EssHTTPSEnabled] ensures v(key).Some? {
      CollatedIsHighest(l, user, key);
    }
    hide Collated, Highest, Blank, IsValid, Acceptable, KeyByKey;
    AcceptableKeyByKey(v);
    assert forall key :: Acceptable(v(key), key) <==> Acceptable(Highest(l, user, key), key);
  }
}
