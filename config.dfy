/**
 * `validateConfig` and `notEmpty` from lib/config.ts: the options record a
 * caller passes to initialise the Shopify API library is checked for its
 * mandatory fields, merged over the defaults, and migrated away from the
 * deprecated `isPrivateApp` flag.
 *
 * The raw params and the resulting config are JavaScript objects, modelled as
 * maps from property names to values (see JsValues). `ValidateConfig` is the
 * imperative routine; `Missing` and `ExpectedField` are the specification it
 * is proved against, and the lemmas below state what the routine promises in
 * terms of them.
 */
module Config {
  import opened Wrappers
  import opened JsValues
  import Types
  import AuthScopes
  import Strings

  // ---------------------------------------------------------------------
  // notEmpty (lib/config.ts:99-106)
  // ---------------------------------------------------------------------

  /** `null` and `undefined` are empty; a string or array is empty when it has
      length zero; every other value counts as present. */
  predicate NotEmpty(v: Value)
  {
    if Nullish(v) then false
    else if v.Str? then |v.s| > 0
    else if v.Arr? then |v.items| > 0
    else true
  }

  /** Exactly four values are empty, so `false`, `0` and objects are present. */
  lemma EmptyValues(v: Value)
    ensures !NotEmpty(v) <==> v == Undefined || v == Null || v == Str("") || v == Arr([])
    ensures NotEmpty(Bool(false)) && NotEmpty(Num(0.0)) && NotEmpty(Obj(map[]))
  {
  }

  // ---------------------------------------------------------------------
  // Defaults (lib/config.ts:8-23)
  // ---------------------------------------------------------------------

  /** The default log callback; its console output is not part of this model. */
  const DefaultLogFunction: Value := Func("defaultLogFunction")

  const DefaultLogger: JsObject := map[
    "log" := DefaultLogFunction,
    "level" := Severity(Types.Info),
    "httpRequests" := Bool(false),
    "timestamps" := Bool(false)
  ]

  const DefaultConfig: JsObject := map[
    "apiKey" := Str(""),
    "apiSecretKey" := Str(""),
    "scopes" := Scopes(AuthScopes.Create([])),
    "hostName" := Str(""),
    "hostScheme" := Str("https"),
    "apiVersion" := Str(Types.LatestApiVersion),
    "isEmbeddedApp" := Bool(true),
    "isCustomStoreApp" := Bool(false),
    "logger" := Obj(DefaultLogger)
  ]

  // ---------------------------------------------------------------------
  // Mandatory fields and the missing-values error (lib/config.ts:25-51)
  // ---------------------------------------------------------------------

  const AlwaysMandatory: seq<string> := ["apiKey", "apiSecretKey", "hostName"]

  /** `key in params && params[key]` is truthy. */
  predicate SetsFlag(params: JsObject, key: string)
  {
    key in params && Truthy(params[key])
  }

  /** `scopes` is mandatory unless the raw params declare a custom store app,
      under either the current or the deprecated flag. */
  predicate ScopesRequired(params: JsObject)
  {
    !SetsFlag(params, "isCustomStoreApp") && !SetsFlag(params, "isPrivateApp")
  }

  /** The `mandatory` list of lines 26-37. */
  function Mandatory(params: JsObject): seq<string>
  {
    AlwaysMandatory + (if ScopesRequired(params) then ["scopes"] else [])
  }

  /** The rejection test applied to one field: `[key]` when it is missing. */
  function MissingIfEmpty(params: JsObject, key: string): seq<string>
  {
    if NotEmpty(Get(params, key)) then [] else [key]
  }

  /** The keys, in their order, whose raw values `notEmpty` rejects. */
  function Rejected(params: JsObject, keys: seq<string>): (r: seq<string>)
    ensures |r| <= |keys|
    ensures forall k :: k in r <==> k in keys && !NotEmpty(Get(params, k))
  {
    if |keys| == 0 then []
    else
      var last := keys[|keys| - 1];
      Rejected(params, keys[..|keys| - 1]) + MissingIfEmpty(params, last)
  }

  function Missing(params: JsObject): seq<string>
  {
    Rejected(params, Mandatory(params))
  }

  /** The missing fields are `apiKey`, `apiSecretKey`, `hostName` and, when it
      is mandatory, `scopes`, each listed exactly when rejected, in that order. */
  lemma {:induction false} MissingInOrder(params: JsObject)
    ensures Missing(params) ==
            MissingIfEmpty(params, "apiKey") + MissingIfEmpty(params, "apiSecretKey") + MissingIfEmpty(params, "hostName") +
            (if ScopesRequired(params) then MissingIfEmpty(params, "scopes") else [])
  {
    RejectedAlwaysMandatory(params);
    if ScopesRequired(params) {
      RejectedAppend(params, AlwaysMandatory, "scopes");
    } else {
      assert Mandatory(params) == AlwaysMandatory;
    }
  }

  lemma RejectedAlwaysMandatory(params: JsObject)
    ensures Rejected(params, AlwaysMandatory) ==
            MissingIfEmpty(params, "apiKey") + MissingIfEmpty(params, "apiSecretKey") + MissingIfEmpty(params, "hostName")
  {
    var k0: seq<string> := [];
    var k1 := k0 + ["apiKey"];
    var k2 := k1 + ["apiSecretKey"];
    var k3 := k2 + ["hostName"];
    assert k3 == AlwaysMandatory;
    RejectedAppend(params, k0, "apiKey");
    RejectedAppend(params, k1, "apiSecretKey");
    RejectedAppend(params, k2, "hostName");
  }

  lemma RejectedAppend(params: JsObject, keys: seq<string>, key: string)
    ensures Rejected(params, keys + [key]) == Rejected(params, keys) + MissingIfEmpty(params, key)
  {
    assert (keys + [key])[..|keys|] == keys;
  }

  /** `scopes` is on the mandatory list exactly when neither flag is set to a
      truthy value; the other three always are. */
  lemma ScopesMandatoryUnlessCustomStoreApp(params: JsObject)
    ensures "scopes" in Mandatory(params) <==>
            !(("isCustomStoreApp" in params && Truthy(params["isCustomStoreApp"])) ||
              ("isPrivateApp" in params && Truthy(params["isPrivateApp"])))
    ensures Mandatory(params)[..3] == ["apiKey", "apiSecretKey", "hostName"]
    ensures |Mandatory(params)| == if ScopesRequired(params) then 4 else 3
  {
  }

  const MissingValuesPrefix: string := "Cannot initialize Shopify API Library. Missing values for: "

  /** The text of the error thrown at lines 45-51. */
  function MissingValuesMessage(missing: seq<string>): string
  {
    MissingValuesPrefix + Strings.Join(missing, ", ")
  }

  /** The message names exactly the missing fields: what follows the fixed
      prefix splits at ", " back into the list of missing fields. */
  lemma MissingValuesMessageLists(params: JsObject)
    requires |Missing(params)| > 0
    ensures var message := MissingValuesMessage(Missing(params));
            |MissingValuesPrefix| <= |message| &&
            message[..|MissingValuesPrefix|] == MissingValuesPrefix &&
            Strings.Split(message[|MissingValuesPrefix|..]) == Missing(params)
  {
    var missing := Missing(params);
    forall i | 0 <= i < |missing|
      ensures Strings.CommaFree(missing[i])
    {
      assert missing[i] in Mandatory(params);
    }
    Strings.SplitJoin(missing);
    var message := MissingValuesMessage(missing);
    assert message[|MissingValuesPrefix|..] == Strings.Join(missing, ", ");
  }

  /** With nothing given, all four fields are reported, in order. */
  lemma NothingGiven()
    ensures Missing(map[]) == ["apiKey", "apiSecretKey", "hostName", "scopes"]
  {
    var none: JsObject := map[];
    MissingInOrder(none);
    assert MissingIfEmpty(none, "apiKey") == ["apiKey"];
    assert MissingIfEmpty(none, "apiSecretKey") == ["apiSecretKey"];
    assert MissingIfEmpty(none, "hostName") == ["hostName"];
    assert MissingIfEmpty(none, "scopes") == ["scopes"];
    assert ScopesRequired(none);
  }

  /** The two ways `validateConfig` throws. */
  datatype ConfigError =
    | ShopifyError(message: string)
    | HostNameTypeError  // `params.hostName.replace` is not a function

  // ---------------------------------------------------------------------
  // Merging raw values over the defaults (lib/config.ts:53-81)
  // ---------------------------------------------------------------------

  /** The keys destructured by name at lines 53-60; every other own key of
      `params` lands in `mandatoryParams`. */
  const DestructuredKeys: set<string> := {
    "hostScheme", "isCustomStoreApp", "userAgentPrefix", "logger",
    "privateAppStorefrontAccessToken", "customShopDomains", "billing"
  }

  /** `mandatoryParams`, the rest object of line 61. */
  function RestParams(params: JsObject): JsObject
  {
    params - DestructuredKeys
  }

  predicate EndsWithSlash(s: string)
  {
    |s| > 0 && s[|s| - 1] == '/'
  }

  /** `s.replace(/\/$/, '')`: drops one final `/`, if there is one. */
  function StripTrailingSlash(s: string): (r: string)
    ensures EndsWithSlash(s) <==> r != s
    ensures r == s || r + "/" == s
  {
    if EndsWithSlash(s) then s[..|s| - 1] else s
  }

  /** Stripping undoes exactly one appended slash... */
  lemma StripUndoesOneSlash(s: string)
    ensures StripTrailingSlash(s + "/") == s
  {
    assert (s + "/")[..|s|] == s;
  }

  /** ...and only one: a host name given with two trailing slashes keeps one. */
  lemma StripKeepsSecondSlash(s: string)
    ensures StripTrailingSlash(s + "//") == s + "/"
    ensures EndsWithSlash(StripTrailingSlash(s + "//"))
  {
    assert s + "//" == (s + "/") + "/";
    StripUndoesOneSlash(s + "/");
  }

  /** The scope names `new AuthScopes(v)` is built from: the strings of an
      array, or a single string. */
  function ScopeNames(v: Value): seq<string>
  {
    match v
    case Str(s) => [s]
    case Arr(items) => StringItems(items)
    case _ => []
  }

  function StringItems(items: seq<Value>): seq<string>
  {
    if |items| == 0 then []
    else (if items[0].Str? then [items[0].s] else []) + StringItems(items[1..])
  }

  /** Lines 66-69: an `AuthScopes` instance is adopted, anything else wrapped. */
  function AdoptScopes(v: Value): AuthScopes.ScopeSet
  {
    if v.Scopes? then v.scopeSet else AuthScopes.Create(ScopeNames(v))
  }

  /** The names taken from an array are exactly its string elements. */
  lemma {:induction false} StringItemsMembers(items: seq<Value>)
    ensures forall n :: n in StringItems(items) <==> Str(n) in items
  {
    if |items| > 0 {
      StringItemsMembers(items[1..]);
      assert items == [items[0]] + items[1..];
    }
  }

  /** An `AuthScopes` instance is kept as it is; an array of names becomes the
      set of its string elements; a missing value becomes the empty set. */
  lemma AdoptScopesRule(v: Value)
    ensures v.Scopes? ==> AdoptScopes(v) == v.scopeSet
    ensures v.Arr? ==> forall n :: n in AdoptScopes(v).names <==> Str(n) in v.items
    ensures Nullish(v) ==> AdoptScopes(v) == AuthScopes.ScopeSet({})
  {
    if v.Arr? {
      StringItemsMembers(v.items);
    }
  }

  /** The object literal passed last to `Object.assign` (lines 64-81); `base`
      is the config as it stands before the assignment. */
  function Overrides(params: JsObject, hostName: string, base: JsObject): JsObject
  {
    var isCustomStoreApp := Get(params, "isCustomStoreApp");
    var logger := Get(params, "logger");
    map[
      "hostName" := Str(StripTrailingSlash(hostName)),
      "scopes" := Scopes(AdoptScopes(Get(params, "scopes"))),
      "hostScheme" := Coalesce(Get(params, "hostScheme"), Get(base, "hostScheme")),
      "isCustomStoreApp" := if isCustomStoreApp == Undefined then Get(base, "isCustomStoreApp") else isCustomStoreApp,
      "userAgentPrefix" := Coalesce(Get(params, "userAgentPrefix"), Get(base, "userAgentPrefix")),
      "logger" := Obj(OwnProps(Get(base, "logger")) + OwnProps(if Truthy(logger) then logger else Obj(map[]))),
      "privateAppStorefrontAccessToken" :=
        Coalesce(Get(params, "privateAppStorefrontAccessToken"), Get(base, "privateAppStorefrontAccessToken")),
      "customShopDomains" := Coalesce(Get(params, "customShopDomains"), Get(base, "customShopDomains")),
      "billing" := Coalesce(Get(params, "billing"), Get(base, "billing"))
    ]
  }

  // ---------------------------------------------------------------------
  // The isPrivateApp migration (lib/config.ts:83-94)
  // ---------------------------------------------------------------------

  const PrivateAppRemovalVersion: string := "7.0.0"

  const PrivateAppDeprecationMessage: string :=
    "The `isPrivateApp` config option has been deprecated. Please use `isCustomStoreApp` instead."

  /** A call of `createLogger(config).deprecated(version, message)`; `logger`
      is the `logger` setting of the config it was created from. */
  datatype Notice = Deprecated(version: string, message: string, logger: Value)

  // ---------------------------------------------------------------------
  // The specification: what the resulting config holds, key by key
  // ---------------------------------------------------------------------

  predicate HostNameIsString(params: JsObject)
  {
    Get(params, "hostName").Str?
  }

  /** The final `isCustomStoreApp`: an explicit key beats the deprecated flag,
      which beats the default; an explicit `undefined` reads as the default. */
  function ExpectedCustomStoreApp(params: JsObject): Value
  {
    if "isCustomStoreApp" !in params && "isPrivateApp" in params then params["isPrivateApp"]
    else if Get(params, "isCustomStoreApp") == Undefined then Bool(false)
    else Get(params, "isCustomStoreApp")
  }

  /** The sub-fields `...(logger || {})` contributes. */
  function LoggerOverrides(params: JsObject): JsObject
  {
    var logger := Get(params, "logger");
    if Truthy(logger) then OwnProps(logger) else map[]
  }

  /** The final `logger`: the raw sub-fields laid over the four defaults. */
  function ExpectedLogger(params: JsObject): Value
  {
    Obj(DefaultLogger + LoggerOverrides(params))
  }

  /** Whether the config `validateConfig` returns has `key`, and its value. */
  function ExpectedField(params: JsObject, key: string): Option<Value>
    requires HostNameIsString(params)
  {
    match key
    case "isPrivateApp" => None
    case "hostName" => Some(Str(StripTrailingSlash(Get(params, "hostName").s)))
    case "scopes" => Some(Scopes(AdoptScopes(Get(params, "scopes"))))
    case "hostScheme" => Some(Coalesce(Get(params, key), Str("https")))
    case "isCustomStoreApp" => Some(ExpectedCustomStoreApp(params))
    case "logger" => Some(ExpectedLogger(params))
    case "userAgentPrefix" | "privateAppStorefrontAccessToken" | "customShopDomains" | "billing" =>
      Some(Coalesce(Get(params, key), Undefined))
    case _ => if key in params then Some(params[key]) else Lookup(DefaultConfig, key)
  }

  /** The config once the `Object.assign` of line 64 has run. */
  function Merged(params: JsObject): JsObject
    requires HostNameIsString(params)
  {
    DefaultConfig + RestParams(params) + Overrides(params, Get(params, "hostName").s, DefaultConfig)
  }

  /** Lines 89-93 applied to `config`. */
  function Migrated(params: JsObject, config: JsObject): JsObject
  {
    if "isPrivateApp" !in params then config
    else
      var adopted := if "isCustomStoreApp" in params then config else config["isCustomStoreApp" := params["isPrivateApp"]];
      adopted - {"isPrivateApp"}
  }

  /** Merging and migrating yields, key by key, what ExpectedField specifies.
      The cases are proved one key at a time, by the lemmas that follow. */
  lemma ConformsAt(params: JsObject, key: string)
    requires HostNameIsString(params)
    ensures Lookup(Migrated(params, Merged(params)), key) == ExpectedField(params, key)
  {
    if key == "isPrivateApp" {
      MigratedDropsPrivateApp(params);
    } else if key == "isCustomStoreApp" {
      MigratedCustomStoreApp(params);
    } else {
      assert Lookup(Migrated(params, Merged(params)), key) == Lookup(Merged(params), key);
      if key == "hostName" {
        MergedAtHostName(params);
      } else if key == "scopes" {
        MergedAtScopes(params);
      } else if key == "hostScheme" {
        MergedAtHostScheme(params);
      } else if key == "logger" {
        MergedAtLogger(params);
      } else if key == "userAgentPrefix" {
        MergedAtUserAgentPrefix(params);
      } else if key == "privateAppStorefrontAccessToken" {
        MergedAtStorefrontToken(params);
      } else if key == "customShopDomains" {
        MergedAtCustomShopDomains(params);
      } else if key == "billing" {
        MergedAtBilling(params);
      } else {
        MergedAtOther(params, key);
      }
    }
  }

  lemma ConformsEverywhere(params: JsObject)
    requires HostNameIsString(params)
    ensures Conforms(Migrated(params, Merged(params)), params)
  {
    forall key
      ensures Lookup(Migrated(params, Merged(params)), key) == ExpectedField(params, key)
    {
      ConformsAt(params, key);
    }
  }

  lemma MigratedDropsPrivateApp(params: JsObject)
    requires HostNameIsString(params)
    ensures Lookup(Migrated(params, Merged(params)), "isPrivateApp") == None
  {
    assert "isPrivateApp" !in DefaultConfig;
  }

  lemma MergedCustomStoreApp(params: JsObject)
    requires HostNameIsString(params)
    ensures "isCustomStoreApp" in Merged(params)
    ensures var raw := Get(params, "isCustomStoreApp");
            Merged(params)["isCustomStoreApp"] == if raw == Undefined then Bool(false) else raw
  {
    assert Get(DefaultConfig, "isCustomStoreApp") == Bool(false);
  }

  lemma MigratedCustomStoreApp(params: JsObject)
    requires HostNameIsString(params)
    ensures Lookup(Migrated(params, Merged(params)), "isCustomStoreApp") == Some(ExpectedCustomStoreApp(params))
  {
    MergedCustomStoreApp(params);
  }

  lemma MergedAtHostName(params: JsObject)
    requires HostNameIsString(params)
    ensures Lookup(Merged(params), "hostName") == ExpectedField(params, "hostName")
  {
    var host := Get(params, "hostName").s;
    var ov := Overrides(params, host, DefaultConfig);
    assert ov["hostName"] == Str(StripTrailingSlash(host));
  }

  lemma MergedAtScopes(params: JsObject)
    requires HostNameIsString(params)
    ensures Lookup(Merged(params), "scopes") == ExpectedField(params, "scopes")
  {
    var ov := Overrides(params, Get(params, "hostName").s, DefaultConfig);
    assert ov["scopes"] == Scopes(AdoptScopes(Get(params, "scopes")));
  }

  lemma MergedAtHostScheme(params: JsObject)
    requires HostNameIsString(params)
    ensures Lookup(Merged(params), "hostScheme") == ExpectedField(params, "hostScheme")
  {
    assert Get(DefaultConfig, "hostScheme") == Str("https");
    var ov := Overrides(params, Get(params, "hostName").s, DefaultConfig);
    assert ov["hostScheme"] == Coalesce(Get(params, "hostScheme"), Str("https"));
  }

  lemma MergedAtLogger(params: JsObject)
    requires HostNameIsString(params)
    ensures Lookup(Merged(params), "logger") == ExpectedField(params, "logger")
  {
    assert Get(DefaultConfig, "logger") == Obj(DefaultLogger);
    var ov := Overrides(params, Get(params, "hostName").s, DefaultConfig);
    assert ov["logger"] == ExpectedLogger(params);
  }

  lemma MergedAtUserAgentPrefix(params: JsObject)
    requires HostNameIsString(params)
    ensures Lookup(Merged(params), "userAgentPrefix") == ExpectedField(params, "userAgentPrefix")
  {
    assert "userAgentPrefix" !in DefaultConfig;
    var ov := Overrides(params, Get(params, "hostName").s, DefaultConfig);
    assert ov["userAgentPrefix"] == Coalesce(Get(params, "userAgentPrefix"), Undefined);
  }

  lemma MergedAtStorefrontToken(params: JsObject)
    requires HostNameIsString(params)
    ensures Lookup(Merged(params), "privateAppStorefrontAccessToken") ==
            ExpectedField(params, "privateAppStorefrontAccessToken")
  {
    assert "privateAppStorefrontAccessToken" !in DefaultConfig;
    var ov := Overrides(params, Get(params, "hostName").s, DefaultConfig);
    assert ov["privateAppStorefrontAccessToken"] == Coalesce(Get(params, "privateAppStorefrontAccessToken"), Undefined);
  }

  lemma MergedAtCustomShopDomains(params: JsObject)
    requires HostNameIsString(params)
    ensures Lookup(Merged(params), "customShopDomains") == ExpectedField(params, "customShopDomains")
  {
    assert "customShopDomains" !in DefaultConfig;
    var ov := Overrides(params, Get(params, "hostName").s, DefaultConfig);
    assert ov["customShopDomains"] == Coalesce(Get(params, "customShopDomains"), Undefined);
  }

  lemma MergedAtBilling(params: JsObject)
    requires HostNameIsString(params)
    ensures Lookup(Merged(params), "billing") == ExpectedField(params, "billing")
  {
    assert "billing" !in DefaultConfig;
    var ov := Overrides(params, Get(params, "hostName").s, DefaultConfig);
    assert ov["billing"] == Coalesce(Get(params, "billing"), Undefined);
  }

  /** Every key without a rule of its own is copied from the params when
      present there, and otherwise keeps its default, if it has one. */
  lemma MergedAtOther(params: JsObject, key: string)
    requires HostNameIsString(params)
    requires key !in {"isPrivateApp", "hostName", "scopes", "hostScheme", "isCustomStoreApp", "logger"}
    requires key !in {"userAgentPrefix", "privateAppStorefrontAccessToken", "customShopDomains", "billing"}
    ensures Lookup(Merged(params), key) == ExpectedField(params, key)
  {
    var ov := Overrides(params, Get(params, "hostName").s, DefaultConfig);
    assert key !in ov && key !in DestructuredKeys;
  }

  /** `config` holds, at every key, exactly what ExpectedField specifies. */
  ghost predicate Conforms(config: JsObject, params: JsObject)
    requires HostNameIsString(params)
  {
    forall key :: Lookup(config, key) == ExpectedField(params, key)
  }

  // ---------------------------------------------------------------------
  // validateConfig (lib/config.ts:7-97)
  // ---------------------------------------------------------------------

  /** Lines 26-43: builds the mandatory list and collects, in its order, the
      fields whose raw values `notEmpty` rejects. */
  method CollectMissing(params: JsObject) returns (missing: seq<string>)
    ensures missing == Missing(params)
  {
    var mandatory := AlwaysMandatory;
    if ScopesRequired(params) {
      mandatory := mandatory + ["scopes"];
    }
    missing := [];
    var i := 0;
    while i < |mandatory|
      invariant 0 <= i <= |mandatory|
      invariant missing == Rejected(params, mandatory[..i])
    {
      var key := mandatory[i];
      if !NotEmpty(Get(params, key)) {
        missing := missing + [key];
      }
      assert mandatory[..i + 1][..i] == mandatory[..i];
      i := i + 1;
    }
    assert mandatory[..i] == mandatory == Mandatory(params);
  }

  /** Lines 8-23 and 53-94: the defaults, the raw values assigned over them,
      and the `isPrivateApp` migration, once validation has passed. */
  method BuildConfig(params: JsObject, hostName: string) returns (config: JsObject, notices: seq<Notice>)
    requires Get(params, "hostName") == Str(hostName)
    ensures Conforms(config, params)
    ensures notices ==
              if "isPrivateApp" in params
              then [Deprecated(PrivateAppRemovalVersion, PrivateAppDeprecationMessage, ExpectedLogger(params))]
              else []
  {
    config := DefaultConfig;
    config := config + RestParams(params) + Overrides(params, hostName, config);
    ghost var merged := config;
    assert merged == Merged(params);

    notices := [];
    if "isPrivateApp" in params {
      MergedAtLogger(params);
      assert config["logger"] == ExpectedLogger(params);
      notices := notices + [Deprecated(PrivateAppRemovalVersion, PrivateAppDeprecationMessage, config["logger"])];
      if "isCustomStoreApp" !in params {
        config := config["isCustomStoreApp" := params["isPrivateApp"]];
      }
      config := config - {"isPrivateApp"};
    }
    assert config == Migrated(params, merged);
    ConformsEverywhere(params);
  }

  /** `validateConfig`: throws when a mandatory field is empty or `hostName`
      is not a string, and otherwise returns the merged config together with
      the deprecation notices it logged. */
  method ValidateConfig(params: JsObject) returns (result: Result<JsObject, ConfigError>, notices: seq<Notice>)
    ensures result.Failure? <==> |Missing(params)| > 0 || !HostNameIsString(params)
    ensures |Missing(params)| > 0 ==> result == Failure(ShopifyError(MissingValuesMessage(Missing(params))))
    ensures |Missing(params)| == 0 && !HostNameIsString(params) ==> result == Failure(HostNameTypeError)
    ensures result.Success? ==> Conforms(result.value, params)
    ensures notices ==
              if result.Success? && "isPrivateApp" in params
              then [Deprecated(PrivateAppRemovalVersion, PrivateAppDeprecationMessage, ExpectedLogger(params))]
              else []
  {
    var missing := CollectMissing(params);
    if |missing| > 0 {
      result, notices := Failure(ShopifyError(MissingValuesMessage(missing))), [];
      return;
    }
    var hostName := Get(params, "hostName");
    if !hostName.Str? {
      result, notices := Failure(HostNameTypeError), [];
      return;
    }
    var config;
    config, notices := BuildConfig(params, hostName.s);
    result := Success(config);
  }

  // ---------------------------------------------------------------------
  // What the resulting config holds
  // ---------------------------------------------------------------------

  /** A custom store app need not name scopes: validation passes without
      them, and the config gets the empty scope set. */
  lemma CustomStoreAppNeedsNoScopes(params: JsObject)
    requires "isCustomStoreApp" in params && params["isCustomStoreApp"] == Bool(true)
    requires NotEmpty(Get(params, "apiKey")) && NotEmpty(Get(params, "apiSecretKey"))
    requires HostNameIsString(params) && Get(params, "hostName").s != ""
    requires "scopes" !in params
    ensures Missing(params) == []
    ensures ExpectedField(params, "scopes") == Some(Scopes(AuthScopes.ScopeSet({})))
  {
    MissingInOrder(params);
    AdoptScopesRule(Undefined);
  }

  /** The precedence for `isCustomStoreApp`: an explicitly given key beats the
      deprecated `isPrivateApp` key, which beats the default `false`. A given
      `false` or `null` is kept; a given `undefined` reads as the default. */
  lemma CustomStoreAppPrecedence(params: JsObject)
    requires HostNameIsString(params)
    ensures "isCustomStoreApp" in params && params["isCustomStoreApp"] != Undefined ==>
              ExpectedField(params, "isCustomStoreApp") == Some(params["isCustomStoreApp"])
    ensures "isCustomStoreApp" in params && params["isCustomStoreApp"] == Undefined ==>
              ExpectedField(params, "isCustomStoreApp") == Some(Bool(false))
    ensures "isCustomStoreApp" !in params && "isPrivateApp" in params ==>
              ExpectedField(params, "isCustomStoreApp") == Some(params["isPrivateApp"])
    ensures "isCustomStoreApp" !in params && "isPrivateApp" !in params ==>
              ExpectedField(params, "isCustomStoreApp") == Some(Bool(false))
  {
  }

  /** The config never carries `isPrivateApp`. */
  lemma NoPrivateAppField(params: JsObject)
    requires HostNameIsString(params)
    ensures ExpectedField(params, "isPrivateApp") == None
  {
  }

  /** The `logger` holds the four defaulted sub-fields and whatever the raw
      `logger` object has; a given sub-field replaces its default, and every
      other default stays. */
  lemma LoggerMerge(params: JsObject)
    ensures ExpectedLogger(params).Obj?
    ensures var props := ExpectedLogger(params).props;
            && "log" in props && "level" in props && "httpRequests" in props && "timestamps" in props
            && (forall sub :: sub in props <==> sub in DefaultLogger || sub in LoggerOverrides(params))
            && (forall sub :: sub in LoggerOverrides(params) ==> props[sub] == LoggerOverrides(params)[sub])
            && (forall sub :: sub in DefaultLogger && sub !in LoggerOverrides(params) ==> props[sub] == DefaultLogger[sub])
  {
  }

  /** `logger: {timestamps: true}` turns on timestamps and keeps the other
      three defaults. */
  lemma TimestampsOnly(params: JsObject)
    requires "logger" in params && params["logger"] == Obj(map["timestamps" := Bool(true)])
    ensures ExpectedLogger(params) ==
            Obj(map["log" := DefaultLogFunction, "level" := Severity(Types.Info),
                    "httpRequests" := Bool(false), "timestamps" := Bool(true)])
  {
  }

  /** `hostScheme` and the four optional fields take a non-null raw value;
      otherwise `hostScheme` is `https` and the others hold `undefined`. */
  lemma OptionalFieldDefaults(params: JsObject)
    requires HostNameIsString(params)
    ensures ExpectedField(params, "hostScheme") ==
            Some(if Nullish(Get(params, "hostScheme")) then Str("https") else params["hostScheme"])
    ensures ExpectedField(params, "userAgentPrefix") ==
            Some(if Nullish(Get(params, "userAgentPrefix")) then Undefined else params["userAgentPrefix"])
    ensures ExpectedField(params, "privateAppStorefrontAccessToken") ==
            Some(if Nullish(Get(params, "privateAppStorefrontAccessToken")) then Undefined
                 else params["privateAppStorefrontAccessToken"])
    ensures ExpectedField(params, "customShopDomains") ==
            Some(if Nullish(Get(params, "customShopDomains")) then Undefined else params["customShopDomains"])
    ensures ExpectedField(params, "billing") ==
            Some(if Nullish(Get(params, "billing")) then Undefined else params["billing"])
  {
  }

  /** `apiVersion` and `isEmbeddedApp` are copied whenever their keys are
      present, even when they hold `undefined`, and are defaulted otherwise. */
  lemma PresenceDefaults(params: JsObject)
    requires HostNameIsString(params)
    ensures ExpectedField(params, "apiVersion") ==
            if "apiVersion" in params then Some(params["apiVersion"]) else Some(Str(Types.LatestApiVersion))
    ensures ExpectedField(params, "isEmbeddedApp") ==
            if "isEmbeddedApp" in params then Some(params["isEmbeddedApp"]) else Some(Bool(true))
  {
  }

  /** A key the routine knows nothing about is copied as it is, or stays absent. */
  lemma ExtraKeysPassThrough(params: JsObject, key: string)
    requires HostNameIsString(params)
    requires key !in DefaultConfig && key !in DestructuredKeys && key != "isPrivateApp"
    ensures ExpectedField(params, key) == Lookup(params, key)
  {
  }

  /** A minimal valid input: key, secret, host and one scope. */
  const MinimalParams: JsObject := map[
    "apiKey" := Str("k"), "apiSecretKey" := Str("s"),
    "hostName" := Str("h.test"), "scopes" := Arr([Str("read_x")])
  ]

  lemma MinimalInputValidates()
    ensures Missing(MinimalParams) == []
  {
    MissingInOrder(MinimalParams);
    assert NotEmpty(Get(MinimalParams, "scopes"));
  }

  /** The minimal input gets the latest API version, `https` and an embedded
      app... */
  lemma MinimalInputDefaults()
    ensures HostNameIsString(MinimalParams)
    ensures ExpectedField(MinimalParams, "apiVersion") == Some(Str(Types.LatestApiVersion))
    ensures ExpectedField(MinimalParams, "hostScheme") == Some(Str("https"))
    ensures ExpectedField(MinimalParams, "isEmbeddedApp") == Some(Bool(true))
  {
  }

  /** ...and its one scope. */
  lemma MinimalInputScopes()
    ensures HostNameIsString(MinimalParams)
    ensures ExpectedField(MinimalParams, "scopes") == Some(Scopes(AuthScopes.ScopeSet({"read_x"})))
  {
    var raw := Arr([Str("read_x")]);
    assert Get(MinimalParams, "scopes") == raw;
    AdoptScopesRule(raw);
    assert forall n :: Str(n) in raw.items <==> n == "read_x";
    assert AdoptScopes(raw).names == {"read_x"};
  }

  /** `isPrivateApp: true` alone makes a custom store app, scopes optional. */
  lemma PrivateAppAdopted(params: JsObject)
    requires "isPrivateApp" in params && params["isPrivateApp"] == Bool(true)
    requires "isCustomStoreApp" !in params
    requires HostNameIsString(params)
    ensures !ScopesRequired(params)
    ensures ExpectedField(params, "isCustomStoreApp") == Some(Bool(true))
  {
  }

  /** A given `isCustomStoreApp: undefined` still blocks the migration: with
      `isPrivateApp: true`, scopes become optional, yet the config keeps the
      default `false`. */
  lemma UndefinedCustomStoreAppBlocksMigration(params: JsObject)
    requires "isPrivateApp" in params && params["isPrivateApp"] == Bool(true)
    requires "isCustomStoreApp" in params && params["isCustomStoreApp"] == Undefined
    requires HostNameIsString(params)
    ensures !ScopesRequired(params)
    ensures ExpectedField(params, "isCustomStoreApp") == Some(Bool(false))
  {
  }

  /** With both keys, an explicit `isCustomStoreApp: false` wins. */
  lemma ExplicitCustomStoreAppWins(params: JsObject)
    requires "isPrivateApp" in params && params["isPrivateApp"] == Bool(true)
    requires "isCustomStoreApp" in params && params["isCustomStoreApp"] == Bool(false)
    requires HostNameIsString(params)
    ensures !ScopesRequired(params)
    ensures ExpectedField(params, "isCustomStoreApp") == Some(Bool(false))
  {
  }
}
