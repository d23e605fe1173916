/** The few Python notions the model needs: `None` (Option), the exceptions
    the modelled code can raise (Error), the outcome of a call that may raise
    (Result), and `str.join`. */
module Runtime {

  datatype Option<+T> = None | Some(value: T) {
    function GetOr(default: T): T {
      match this
      case Some(v) => v
      case None => default
    }
  }

  /** The exceptions raised by the modelled code, with the key, attribute or
      message Python would report. */
  datatype Error =
    | KeyError(key: string)              // `d[k]` on a dict without key k
    | AttributeError(attribute: string)  // `.get` / `.iteritems` on a value that is not a dict
    | TypeError(reason: string)          // indexing or iterating a value that does not support it
    | NameError(message: string)         // raised for an unknown role
    | InvalidValue(value: string)        // a permission scope outside the enumeration
    | UnicodeEncodeError(text: string)   // a non-ASCII unicode string turned into a byte string
    | Unsupported(reason: string)        // behaviour the model does not represent

  /** A call that either returns a value or raises. Failure-compatible, so
      that `:-` propagates the first exception, as Python does. */
  datatype Result<+T> = Success(value: T) | Failure(error: Error) {
    predicate IsFailure() {
      Failure?
    }

    function PropagateFailure<U>(): Result<U>
      requires Failure?
    {
      Failure(error)
    }

    function Extract(): T
      requires Success?
    {
      value
    }
  }

  /** `sep.join(parts)`. */
  function Join(parts: seq<string>, sep: string): string {
    if |parts| == 0 then ""
    else if |parts| == 1 then parts[0]
    else Join(parts[..|parts| - 1], sep) + sep + parts[|parts| - 1]
  }

  /** Joining three parts puts the separator between each neighbouring pair. */
  lemma JoinThree(a: string, b: string, c: string, sep: string)
    ensures Join([a, b, c], sep) == a + sep + b + sep + c
  {
    assert [a, b, c][..2] == [a, b];
    assert [a, b][..1] == [a];
    assert Join([a], sep) == a;
    assert Join([a, b], sep) == a + sep + b;
  }

  /** The `NameError` raised when `role` is not in `roles`:
      "role '<role>' is not in [<roles joined by |>]". */
  function RoleError(role: string, roles: seq<string>): Error {
    NameError("role '" + role + "' is not in [" + Join(roles, "|") + "]")
  }

  /** The role check that opens the role-based searches: nothing when `role`
      is one of `roles`, otherwise the exception they raise. */
  function CheckRole(role: string, roles: seq<string>): (r: Option<Error>)
    ensures r.None? <==> role in roles
    ensures r.Some? ==> r.value == RoleError(role, roles)
  {
    if role in roles then None else Some(RoleError(role, roles))
  }
}
