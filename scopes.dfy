/**
 * The `AuthScopes` value type from `./auth/scopes`, which is not part of this
 * model beyond what lib/config.ts relies on: a set of scope names, compared as
 * a set, built from a sequence of names.
 */
module AuthScopes {

  datatype ScopeSet = ScopeSet(names: set<string>)

  /** `new AuthScopes(names)`: order is forgotten and duplicates collapse. */
  function Create(names: seq<string>): ScopeSet
  {
    ScopeSet(set n | n in names)
  }
}
