/** The opaque `error` values that flow through the plugin unchanged. */
module Errors {

  datatype Error =
    | StorageError(message: string)   // the host's storage failed a Get or a Put
    | DecodeError                     // the stored entry is not a decodable configuration record
    | AuthError(message: string)      // credential or Graph client construction failed
    | GraphError(message: string)     // the remote platform rejected or failed a call
    | NotFound(id: string)            // the remote platform holds no active key for this keyset
}
