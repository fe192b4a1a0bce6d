/** Small failure-carrying datatypes shared by every module of the model. */
module Wrappers {

  /** Python's `None` / value. */
  datatype Option<+T> = None | Some(value: T) {
    function GetOr(default: T): T {
      match this
      case Some(v) => v
      case None => default
    }
  }

  /** The outcome of a Python call that may raise: the value it returned, or the
      text (`str(e)`) of the exception it raised. */
  datatype Outcome<+T> = Returned(value: T) | Raised(error: string)
}

/** The process environment, read through `os.getenv`. */
module Environ {
  import opened Wrappers

  type Env = map<string, string>

  /** `os.getenv(key)` */
  function GetEnv(env: Env, key: string): Option<string> {
    if key in env then Some(env[key]) else None
  }

  /** `os.getenv(key, default)`: a variable that is set wins, even when empty. */
  function GetEnvOr(env: Env, key: string, default: string): string {
    if key in env then env[key] else default
  }

  /** Python truthiness of an optional string: set and non-empty. */
  predicate Truthy(s: Option<string>) {
    s.Some? && s.value != ""
  }
}
