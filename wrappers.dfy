/** The optional value used for unset configuration entries and for the
    factory's optional `ServiceDiscoveryFinderDelegate`. */
module Wrappers {

  datatype Option<+T> = None | Some(value: T)
}
