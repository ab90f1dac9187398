/**
 * The two declarations that lib/config.ts imports from `./types`, whose
 * definitions are not part of this model.
 */
module Types {

  /** The severities a log callback is called with. */
  datatype LogSeverity = Error | Warning | Info | Debug

  /** The library's newest known Admin API version; its value is left abstract. */
  const LatestApiVersion: string
}
