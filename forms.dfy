/**
 * Request parameters as `parse_qs` delivers them: each name maps to the
 * list of values given for it, in request order. The server reads only the
 * first value of a name, and treats an absent name, an empty list and an
 * empty first value alike as "not given" (Python truthiness).
 */
module Forms {
  import opened Wrappers

  type Params = map<string, seq<string>>

  /** `params.get(name)[0] if params.get(name) else None` */
  function FirstValue(params: Params, name: string): Option<string> {
    if name in params && params[name] != [] then Some(params[name][0]) else None
  }

  /** A Python string in a boolean context: present and non-empty. */
  predicate Truthy(v: Option<string>) {
    v.Some? && v.value != ""
  }

  /** The parameter `name` has a non-empty first value. */
  predicate Given(params: Params, name: string) {
    Truthy(FirstValue(params, name))
  }
}
