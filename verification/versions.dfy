/** DSL versions, compared as Python compares `(major, minor)` tuples. */
module Versions {

  datatype Version = Version(major: int, minor: int)

  /** `version < (major, minor)`, lexicographically. */
  predicate Below(v: Version, major: int, minor: int)
  {
    v.major < major || (v.major == major && v.minor < minor)
  }
}
