# Configuration validation of the Shopify API library

This project models `validateConfig` and `notEmpty` from `lib/config.ts`.
`validateConfig` is the routine that turns the raw parameters an application
passes to the library into its configuration object:

- It starts from a fixed set of defaults.
- It checks that the mandatory fields have content. Those are `apiKey`,
  `apiSecretKey` and `hostName`, plus `scopes` unless the app is a custom
  store app.
- If any mandatory field is empty, it fails with one error that lists every
  empty field.
- Otherwise it copies the raw values over the defaults. Along the way it
  normalises `hostName` and `scopes`, falls back to defaults for the optional
  fields, and merges the `logger` settings.
- Finally it migrates the deprecated `isPrivateApp` flag into
  `isCustomStoreApp`.

The raw parameters and the configuration are JavaScript objects. They are
modelled as `map<string, Value>`, where `Value` covers the JavaScript values
the routine can meet (`js_values.dfy`). A key absent from the map is a
missing property. A key mapped to `Undefined` is a property that is present
but holds `undefined`. The routine treats these two cases differently, and
the model keeps them apart.

Files:

- `wrappers.dfy`: `Option` and `Result`.
- `types.dfy`: the log severities and the latest API version.
- `scopes.dfy`: an `AuthScopes` value reduced to its set of names.
- `js_values.dfy`: JavaScript values, with truthiness, `== null` and `??`.
- `strings.dfy`: `Array.prototype.join` and the matching split, with the
  round trip between them.
- `config.dfy`: the routine itself. It contains:
  - the methods `CollectMissing`, `BuildConfig` and `ValidateConfig`;
  - `ExpectedField`, the reference definition of what the resulting
    configuration holds at each key;
  - the lemmas about both.

`ValidateConfig` is proved against the specification functions `Missing`,
`MissingValuesMessage` and `ExpectedField`. On success, the configuration it
returns agrees with `ExpectedField` at every key.

Some of the code's behaviour is easy to overlook. The model follows the code
in these points:

- A `hostName` that passes the emptiness check but is not a string (a
  number, `true`, a non-empty array) makes `.replace` throw a `TypeError`.
  So the routine has a second failure, `HostNameTypeError`, besides the
  library's own error.
- The regular expression `/\/$/` removes only one trailing slash. A host name
  given with two trailing slashes keeps one (`StripKeepsSecondSlash`).
- The four optional fields (`userAgentPrefix`,
  `privateAppStorefrontAccessToken`, `customShopDomains`, `billing`) are
  always present in the result. When no value is given, they hold
  `undefined`.
- `apiVersion` and `isEmbeddedApp` are copied whenever their key is present,
  even when the value is `undefined` or `null`.
- An explicit `isCustomStoreApp: null` is kept, because the code compares
  with `=== undefined`.
- An explicit `isCustomStoreApp: undefined` together with `isPrivateApp: true`
  makes `scopes` optional, because the mandatory test reads the flag's value.
  The result still has `isCustomStoreApp: false`, because the migration only
  checks whether the key is present
  (`UndefinedCustomStoreAppBlocksMigration`).
- The error text is the code's own:
  `Cannot initialize Shopify API Library. Missing values for: ` followed by
  the names joined with `, `.

## Model

| member | source | states |
|---|---|---|
| Config.NotEmpty | lib/config.ts:99-106 | `notEmpty`: `null` and `undefined` are empty, a string or array is empty when its length is zero, and every other value has content |
| Config.EmptyValues | lib/config.ts:99-106 | `notEmpty` rejects exactly `undefined`, `null`, the empty string and the empty array; `false`, `0` and an empty object count as content |
| Config.Mandatory | lib/config.ts:26-37 | the `mandatory` list: `apiKey`, `apiSecretKey`, `hostName`, then `scopes` when neither custom-store-app flag is set |
| Config.ScopesMandatoryUnlessCustomStoreApp | lib/config.ts:26-37 | the mandatory list starts with `apiKey`, `apiSecretKey`, `hostName`; it contains `scopes`, as its fourth and last entry, if and only if neither `isCustomStoreApp` nor `isPrivateApp` is present and truthy |
| Config.SetsFlag | lib/config.ts:32-34 | a flag is set when its key is present and its value truthy: the negation of each half of the condition at lines 32 and 34 |
| Config.ScopesRequired | lib/config.ts:31-35 | the `if` condition that makes `scopes` mandatory: neither `isCustomStoreApp` nor `isPrivateApp` is set |
| JsValues.Truthy | lib/config.ts:31-34 | JavaScript truthiness, as `!` and `||` read it: `undefined`, `null`, `false`, `0` and `""` are falsy, and every other value is truthy |
| JsValues.Nullish | lib/config.ts:100 | `value == null`: holds of exactly `null` and `undefined`; also the test inside `??` |
| JsValues.Get | lib/config.ts:40 | the property read `params[key]`: the stored value when the key is present, `undefined` otherwise |
| JsValues.Lookup | lib/config.ts:83 | `key in o` together with the read: no value for an absent key, the stored value for a present one |
| Config.Rejected | lib/config.ts:38-43 | a name is collected if and only if it is in the mandatory list and `notEmpty` rejects its raw value; the collection is never longer than the list |
| Config.MissingIfEmpty | lib/config.ts:40-42 | one step of the `forEach`: the key's name when `notEmpty` rejects its raw value, and nothing otherwise |
| Config.Missing | lib/config.ts:26-43 | the `missing` list: the mandatory names whose raw values `notEmpty` rejects, in the order of the mandatory list |
| Config.CollectMissing | lib/config.ts:26-43 | the loop over the mandatory list collects exactly the specified missing fields, in list order |
| Config.MissingInOrder | lib/config.ts:26-43 | the missing fields are `apiKey`, `apiSecretKey`, `hostName` and then `scopes` (only when scopes are mandatory), each one listed exactly when its raw value is empty |
| Config.NothingGiven | lib/config.ts:26-43 | with no parameters, all four fields are reported missing, in order |
| Config.MissingValuesMessage | lib/config.ts:45-51 | the error text: the fixed prefix followed by the missing names joined with `, ` |
| Strings.Join | lib/config.ts:47-49 | `Array.prototype.join`: the elements in order with the separator between neighbours, and the empty string for no elements |
| Config.MissingValuesMessageLists | lib/config.ts:45-51 | the error message is the fixed prefix followed by the missing names, and splitting its tail at `, ` gives back exactly the missing list |
| Strings.SplitJoin | lib/config.ts:47-49 | joining comma-free names with `, ` and splitting the result at `, ` gives back the names |
| Config.ValidateConfig | lib/config.ts:7-97 | it fails if and only if a mandatory field is empty or `hostName` is not a string; the missing-values error comes first and carries the message; on success, the config equals `ExpectedField` at every key; exactly one deprecation notice is logged (version `7.0.0`, the fixed message, the merged logger) when it succeeds with an `isPrivateApp` key, and none otherwise |
| Config.BuildConfig | lib/config.ts:53-94 | the defaults plus the copied and normalised values plus the migration give a config equal to `ExpectedField` at every key, plus the notice list |
| Config.RestParams | lib/config.ts:53-62 | the `mandatoryParams` rest object: every raw key except the seven destructured ones, with its raw value |
| JsValues.Coalesce | lib/config.ts:70-80 | `??`: the fallback when the value is `null` or `undefined`, and the value otherwise |
| Config.HostNameIsString | lib/config.ts:65 | the raw `hostName` is a string, the condition under which `.replace` does not throw |
| Config.EndsWithSlash | lib/config.ts:65 | what `/\/$/` matches: the string is non-empty and its last character is `/` |
| JsValues.OwnProps | lib/config.ts:76 | the properties an object spread copies: those of a plain object, and none of any other value |
| Config.LoggerOverrides | lib/config.ts:76 | the spread of `logger`, or of `{}` when it is falsy: the own properties of a truthy raw logger, and none for a falsy one |
| Config.Overrides | lib/config.ts:64-81 | the object literal assigned last: the stripped `hostName`, the adopted `scopes`, the `??` and `=== undefined` fallbacks against the current config, and the merged `logger` |
| Config.Merged | lib/config.ts:53-81 | the config after `Object.assign`: the defaults, overwritten by every raw key except the seven destructured ones, overwritten by the literal |
| Config.Migrated | lib/config.ts:83-94 | the `isPrivateApp` migration: without that key the config is unchanged; with it, `isCustomStoreApp` takes its value unless that key was given, and `isPrivateApp` is deleted |
| Config.ExpectedCustomStoreApp | lib/config.ts:71-92 | the final `isCustomStoreApp`: the `isPrivateApp` value when only that key is given; otherwise `false` for an absent or `undefined` value, and the given value for any other |
| Config.ExpectedLogger | lib/config.ts:17-76 | the final `logger`: the four defaults, overwritten by the own properties of a truthy raw logger object |
| Config.ExpectedField | lib/config.ts:8-94 | the reference definition of the result, key by key: no `isPrivateApp`; the stripped `hostName`; the adopted `scopes`; the `hostScheme` and optional-field fallbacks; the `isCustomStoreApp` precedence; the merged `logger`; for any other key, the raw value when given, and otherwise the default |
| Config.ConformsAt | lib/config.ts:64-94 | at any one key, `Object.assign` over the defaults followed by the migration yields what `ExpectedField` specifies |
| Config.StripTrailingSlash | lib/config.ts:65 | the host name changes if and only if it ends with `/`, and then exactly one `/` is removed |
| Config.StripUndoesOneSlash | lib/config.ts:65 | stripping a name with one appended `/` gives back the name |
| Config.StripKeepsSecondSlash | lib/config.ts:65 | a name with two trailing slashes keeps one, so the result can still end with `/` |
| AuthScopes.Create | lib/config.ts:69 | `new AuthScopes(names)`, abstracted as the set of the given names: order is forgotten and duplicates collapse |
| Config.AdoptScopes | lib/config.ts:66-69 | the `scopes` value of the config: a raw `AuthScopes` instance as it is, anything else wrapped into a new scope set |
| Config.ScopeNames | lib/config.ts:69 | the names handed to `new AuthScopes`: the one name of a string, the string elements of an array, and none otherwise |
| Config.StringItems | lib/config.ts:69 | the string elements of an array, in order |
| Config.StringItemsMembers | lib/config.ts:69 | the scope names taken from an array are exactly its string elements |
| Config.AdoptScopesRule | lib/config.ts:66-69 | an `AuthScopes` instance is kept as it is; an array becomes the set of its string elements; a missing value becomes the empty scope set |
| Config.CustomStoreAppNeedsNoScopes | lib/config.ts:31-69 | a custom store app with key, secret and host validates without scopes and gets the empty scope set |
| Config.CustomStoreAppPrecedence | lib/config.ts:71-92 | a given `isCustomStoreApp` other than `undefined` is kept; a given `undefined` gives `false`, even when `isPrivateApp` is set; with no `isCustomStoreApp` key, the `isPrivateApp` value when that key is given; otherwise `false` |
| Config.UndefinedCustomStoreAppBlocksMigration | lib/config.ts:31-92 | with `isCustomStoreApp: undefined` and `isPrivateApp: true`, `scopes` is optional, yet the config's `isCustomStoreApp` is `false` |
| Config.PrivateAppAdopted | lib/config.ts:83-94 | `isPrivateApp: true` with no `isCustomStoreApp` makes `scopes` optional and sets `isCustomStoreApp` to `true` |
| Config.ExplicitCustomStoreAppWins | lib/config.ts:89-92 | with `isPrivateApp: true` and `isCustomStoreApp: false`, the result keeps `false` |
| Config.NoPrivateAppField | lib/config.ts:83-94 | the resulting config never has an `isPrivateApp` key |
| Config.LoggerMerge | lib/config.ts:76 | the logger has the four defaulted sub-fields and every sub-field of the raw logger; a given sub-field replaces its default and the other defaults stay |
| Config.TimestampsOnly | lib/config.ts:17-22 | a raw logger of just `timestamps: true` gives the default log function, level `Info`, no request logging, and timestamps on |
| Config.OptionalFieldDefaults | lib/config.ts:70-80 | `hostScheme` falls back to `https` and the four optional fields to `undefined` when their raw value is `null` or `undefined`; any other raw value is kept |
| Config.PresenceDefaults | lib/config.ts:61-64 | `apiVersion` and `isEmbeddedApp` are copied whenever their keys are present, and otherwise default to the latest version and `true` |
| Config.ExtraKeysPassThrough | lib/config.ts:61-64 | a key the routine does not know is copied unchanged when given, and otherwise stays absent |
| Config.MinimalInputValidates | lib/config.ts:26-51 | key, secret, host and one scope are enough to pass validation |
| Config.MinimalInputDefaults | lib/config.ts:8-23 | that minimal input gets the latest API version, `https` and an embedded app |
| Config.MinimalInputScopes | lib/config.ts:66-69 | that minimal input's scope array becomes the scope set holding its one name |

## Left out

- `defaultLogFunction` (lib/config.ts:108-126) writes to the console. It is
  I/O, so the model only represents it as the opaque function value stored
  in the default logger.
- `createLogger(config).deprecated(...)` is outside this model (it lives in
  `lib/logger`). The model records the call as a `Notice` carrying the
  version, the message and the logger settings. It does not model what the
  logger prints, or whether it throws once the library version reaches
  7.0.0.
- `AuthScopes` is reduced to a set of names. The constructor's splitting of
  comma-separated strings, trimming, implied scopes and its behaviour on
  values that are neither strings nor arrays are not part of this model.
  The non-string elements of a scope array are dropped, so `scopes: [1]`
  passes validation and gives the empty scope set in the model.
- The value of `LATEST_API_VERSION` is left abstract. The numeric values of
  `LogSeverity` are not modelled: a severity counts as truthy.
- JavaScript numbers are modelled as reals, so `NaN` and `-0` (both falsy)
  are not represented.
- Spreading a raw `logger` that is truthy but not a plain object (a string,
  an array, an `AuthScopes` instance or a function) contributes no
  sub-fields in the model. In JavaScript, strings and arrays would
  contribute their index keys.
- Objects are values in the model. Property order, the prototype chain (seen
  by `in` and by property reads), getters, non-enumerable properties and
  object identity are not modelled. In particular, a raw `AuthScopes`
  instance or logger is not shared with the config.
- A non-string `hostName` always leads to `HostNameTypeError`. An object
  that supplies its own `replace` method is not modelled.
- The regular expression engine is not modelled. `replace(/\/$/, '')` is
  modelled directly as removing one final `/`.
- NothingGiven: states the missing list for empty parameters but not the
  full message text. The message for any missing list is covered by
  MissingValuesMessageLists.
