/** Configuration and message values, errors, and the usual wrappers. */
module Values {

  datatype Option<+T> = None | Some(value: T)

  /** The two results of a Go constructor or configurer: a component, or an error. */
  datatype Result<+T> = Ok(value: T) | Fail(err: Err) {
    predicate IsFailure() { Fail? }
    function PropagateFailure<U>(): Result<U> requires Fail? { Fail(err) }
    function Extract(): T requires Ok? { value }
  }

  /** Go's `interface{}` as far as configuration and messages use it. */
  datatype Value =
    | Nil
    | Str(s: string)
    | Int(n: int)
    | Float(r: real)
    | Bool(b: bool)
    | Map(m: map<string, Value>)
    | Arr(a: seq<Value>)
    | Other(tag: nat)

  /** Errors by origin. Message texts are not modelled. */
  datatype Err =
    | External(code: nat)                 // any error of code outside the model
    | Wrapped(cause: Err, annotation: Err)
    | NilPanic                            // the Go code would dereference nil
    | ClientClosed                        // a kafka client used after it was closed
    | PoolTimeout
    | TapUnconfigured
    | InputNotMap
    | InputNotString
    | UnknownStrategy
    | Misconfigured(target: string, kind: Kind)
    | NotRegistered(key: string)
    | NotSinglePair
    | NotSingleKey
    | WrongEntryType(kind: Kind)
    | UnsupportedTemplate
    | Undecodable
    | NegativeConcurrency                 // Go panics in `make`
    | SourceRequired
    | FnRequired

  /** The dynamic type of a configuration value. */
  datatype Kind = NilK | StrK | IntK | FloatK | BoolK | MapK | ArrK | OtherK

  function KindOf(v: Value): Kind {
    match v
    case Nil => NilK
    case Str(_) => StrK
    case Int(_) => IntK
    case Float(_) => FloatK
    case Bool(_) => BoolK
    case Map(_) => MapK
    case Arr(_) => ArrK
    case Other(_) => OtherK
  }

  /** What `Invoke` returns: Go hands back an output and an error side by side. */
  datatype Outcome = Outcome(output: Value, err: Option<Err>)
}
