/** A lock key: the token that set it and when it expires. */
module Leases {
  import opened Prelude

  type Token = string

  datatype Lease = Lease(owner: Token, expires: real)

  /** The lease in force: an expired key does not exist for GET or SET NX. */
  function InForce(key: Option<Lease>, now: real): Option<Lease> {
    if key.Some? && now < key.value.expires then key else None
  }

  /** The atomic operation a release is meant to be. */
  function CompareAndDelete(key: Option<Lease>, now: real, t: Token): Option<Lease> {
    if InForce(key, now).Some? && key.value.owner == t then None else InForce(key, now)
  }
}
