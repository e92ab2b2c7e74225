/** JavaScript values as the deduplication core sees them: the stored marker,
    its truthiness, thrown errors and the optional properties of option
    objects. */
module Js {

  /** A runtime value held by a store. Objects are opaque (only their identity
      matters); numbers are integers (NaN and fractions are not modelled). */
  datatype Value =
    | Undefined
    | Null
    | Bool(b: bool)
    | Num(n: int)
    | Str(s: string)
    | Obj(id: nat)

  /** JavaScript truthiness, as used by `if (existingValue)`. */
  predicate Truthy(v: Value)
    ensures !Truthy(v) <==> v in {Undefined, Null, Bool(false), Num(0), Str("")}
  {
    match v
    case Undefined => false
    case Null => false
    case Bool(b) => b
    case Num(n) => n != 0
    case Str(s) => s != ""
    case Obj(_) => true
  }

  /** A thrown `Error`; only its message is observable. */
  datatype Error = Error(message: string)

  /** The error JavaScript raises when a member is read off `undefined`. */
  function UndefinedReceiver(member: string): Error
  {
    Error("Cannot read properties of undefined (reading '" + member + "')")
  }

  datatype Option<+T> = None | Some(value: T) {
    function GetOr(default: T): T
    {
      match this
      case Some(v) => v
      case None => default
    }
  }

  /** A promise that resolves with a value or rejects with an error. */
  datatype Result<+T> = Ok(value: T) | Err(error: Error)

  /** A promise of `void`: it resolves or rejects. */
  datatype Outcome = Pass | Fail(error: Error)

  /** An optional property of an object literal: absent, present with the
      value `undefined`, or present with a value. Object spread copies a
      property that is present with `undefined`, so the two are different. */
  datatype Prop<+T> = Missing | SetUndefined | Has(v: T) {
    /** Reading the property: absent and `undefined` read alike. */
    function Read(): Option<T>
    {
      if Has? then Some(v) else None
    }
  }
}
