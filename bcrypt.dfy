/**
 * The password-hashing library, reduced to oracles: hashing (salted, so the
 * same password hashes differently each time; here just some hash) and
 * comparing a plaintext with a stored hash. Either call may throw, which is
 * `None`.
 */
module Bcrypt {
  import opened Js

  /** `bcrypt.hash(password, 10)`. */
  type Hasher = Value -> Option<string>

  /** `bcrypt.compare(password, hash)`. */
  type Comparer = (Value, Value) -> Option<bool>
}
