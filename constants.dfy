/**
 * The module's own constants class. Its values are not part of this model,
 * so each is an opaque constant: proofs hold for every choice of them.
 */
module ViaBillConstants {
  import opened Php

  /** The affiliate (platform) name substituted into the addon paths. */
  const Affiliate: string

  /** The ISO 3166-1 alpha-2 country codes accepted by `validIso`. */
  const IsoCodes: set<string>

  const TestModeOn: Value
  const TestModeOff: Value
  const TbybOn: Value
  const TbybOff: Value
  const TransactionTypeAuthorizeOnly: Value
  const TransactionTypeAuthorizeCapture: Value
}

/**
 * Library primitives whose internals are not modelled: MD5 digests and
 * `json_decode($s, TRUE)` (NULL for text that is not JSON).
 */
module Primitives {
  import opened Php

  const Md5: string -> string
  const JsonDecode: string -> Value
}
