/** Small shared vocabulary: optional values, bytes and two-component vectors. */
module Wrappers {

  datatype Option<+T> = None | Some(value: T)
}

module Types {

  /** An 8-bit unsigned byte (`byte`/`unsigned char` on the target). */
  type byte = bv8

  /** A two-component double vector (Eigen::Vector2d), modelled over the reals. */
  datatype Vector2 = Vector2(x: real, y: real)

  /** The Arduino PI constant. */
  const Pi: real := 3.1415926535897932384626433832795
}
