/** The process environment and Python's truthiness of optional strings. */
module Env {
  import opened Wrappers

  /** `os.environ`: names to values. */
  type Environ = map<string, string>

  /** `os.getenv(name)`. */
  function Getenv(env: Environ, name: string): (r: Option<string>)
    ensures r.Some? <==> name in env
    ensures r.Some? ==> r.value == env[name]
  {
    if name in env then Some(env[name]) else None
  }

  /** An optional string is truthy when it is present and not empty. */
  predicate Truthy(o: Option<string>) {
    o.Some? && o.value != ""
  }
}
