/** Values that cross the boundary between the dashboard components and the
    services they call: optional values (JavaScript's null), the outcome of an
    awaited call that may throw, and the shapes a list endpoint may answer with.
    The normalisation every component applies to such an answer is defined
    here once. */
module Responses {

  /** A value that may be absent (null or undefined on the JavaScript side). */
  datatype Option<T> = None | Some(value: T) {
    function GetOr(default: T): (r: T)
      ensures Some? ==> r == value
      ensures None? ==> r == default
    {
      match this
      case Some(v) => v
      case None => default
    }
  }

  /** The outcome of an awaited foreign call: it resolves with a value or throws
      an error whose `message` is the given text ("" when the error carries no
      message, or an empty one). */
  datatype Outcome<T> = Ok(value: T) | Err(message: string)

  /** The JSON value a list endpoint answers with, as far as a component looks at
      it. `Array` is a value for which `Array.isArray` holds; `Object` is any
      other non-null value. `field` is the named list property the component
      reads (`consents`, `transactions`, `patients` or `records`): `Some` when it
      is set to a list (a list, even an empty one, is truthy), `None` when it is
      missing or falsy. */
  datatype Body<T> =
    | Array(items: seq<T>, field: Option<seq<T>>)
    | Object(field: Option<seq<T>>)

  /** Field-first normalisation (`if (response.x) … else if (Array.isArray(response)) …`):
      the first matching case wins, and `None` means the shape was not recognised. */
  function FieldFirst<T>(b: Body<T>): (r: Option<seq<T>>)
    ensures b.field.Some? ==> r == b.field
    ensures b.field.None? && b.Array? ==> r == Some(b.items)
    ensures b.field.None? && b.Object? ==> r == None
  {
    if b.field.Some? then b.field
    else if b.Array? then Some(b.items)
    else None
  }

  /** Array-first normalisation (`if (Array.isArray(response)) … else if (response.x) …`).
      It differs from the field-first order only on an array that also carries
      the named property. */
  function ArrayFirst<T>(b: Body<T>): (r: Option<seq<T>>)
    ensures b.Array? ==> r == Some(b.items)
    ensures b.Object? ==> r == b.field
    ensures !(b.Array? && b.field.Some?) ==> r == FieldFirst(b)
  {
    if b.Array? then Some(b.items) else b.field
  }

  /** What a fetch stores: the recognised list, or the empty list both for an
      unrecognised shape and for a call that threw. */
  function Loaded<T>(reply: Outcome<Body<T>>): (r: seq<T>)
    ensures reply.Err? ==> r == []
    ensures reply.Ok? && FieldFirst(reply.value).Some? ==> r == FieldFirst(reply.value).value
    ensures reply.Ok? && FieldFirst(reply.value).None? ==> r == []
  {
    if reply.Ok? then FieldFirst(reply.value).GetOr([]) else []
  }

  /** True when a refresh reply resolved with a recognised shape. */
  predicate Recognised<T>(reply: Outcome<Body<T>>)
  {
    reply.Ok? && FieldFirst(reply.value).Some?
  }

  /** What a refresh after a write stores: like `Loaded` when the reply is
      recognised, and otherwise the list it had (a refresh has no `else` that
      empties the list). */
  function Reloaded<T>(current: seq<T>, reply: Outcome<Body<T>>): (r: seq<T>)
    ensures Recognised(reply) ==> r == Loaded(reply)
    ensures !Recognised(reply) ==> r == current
  {
    if Recognised(reply) then FieldFirst(reply.value).value else current
  }

  /** `value || fallback` on a string: the value unless it is empty (`null`,
      `undefined` and `''` are all falsy), else the fallback. The components use
      it for `err.message || 'Failed to ...'` and for the badges' defaults. */
  function OrElse(value: string, fallback: string): (r: string)
    ensures value != "" ==> r == value
    ensures value == "" ==> r == fallback
    ensures fallback != "" ==> r != ""
  {
    if value != "" then value else fallback
  }
}
