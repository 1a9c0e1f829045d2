/** Kotlin's nullable values and thrown exceptions, as plain datatypes. */
module Wrappers {

  /** A value of a nullable Kotlin type. */
  datatype Option<+T> = None | Some(value: T)

  /** A call that either returns a value or throws an error. */
  datatype Result<+T, +E> = Success(value: T) | Failure(error: E)
}

/** The distinct failures the Android plugin can raise. */
module Errors {
  import opened Wrappers

  datatype Error =
    | UnknownPlayer    // `players[id]!!` on an id that is not in the registry
    | NotInitialized   // `checkInitialized` found a `lateinit` field unset
    | ContextNull      // `OcarinaPlayer.load` was given no Android context
    | EngineDetached   // the plugin's `lateinit` context/assets were never set

  type Outcome<T> = Result<T, Error>
}

/** Kotlin's 32-bit `Int`, which wraps on overflow. */
module Ints {

  const MinInt32: int := -0x8000_0000
  const MaxInt32: int := 0x7fff_ffff

  type Int32 = x: int | MinInt32 <= x <= MaxInt32

  /** `x++` on a Kotlin `Int`: two's-complement wrap-around at the top. */
  function Inc(x: Int32): (r: Int32)
    ensures r == (x - MinInt32 + 1) % 0x1_0000_0000 + MinInt32
    ensures x < MaxInt32 ==> r == x + 1 && x < r
    ensures x == MaxInt32 ==> r == MinInt32 && r < x
  {
    if x == MaxInt32 then MinInt32 else x + 1
  }
}
