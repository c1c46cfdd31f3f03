module Options {
  datatype Option<T> = None | Some(value: T)
}

/** The user's tracking consent (core.hpp). */
module Consents {
  datatype Consent = Granted | NotGranted | Pending
}
