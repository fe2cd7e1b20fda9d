/** The slice of Python's value model the core relies on: the four scalar
    kinds a setting can hold, truthiness (`if x:`, `x and y`), the built-in
    constructors `str`, `int`, `float` and `bool` applied to such a value,
    and the exceptions the core raises or lets through. */
module PyValues {

  datatype Option<+T> = None | Some(value: T)

  /** The exceptions that can leave the core. The three `RuntimeError`s the
      source raises get a constructor each, so that a contract can name the
      message they carry. */
  datatype PyError =
    | KeyError(key: string)             // a missing timer
    | AttributeError(attr: string)      // a state attribute nobody set
    | Diverged(itt: int)                // 'solution diverged at iteration {itt}'
    | DataLossGuard                     // 'To prevent data loss, force_overwrite cannot be used in restart runs'
    | SettingConflict                   // 'use TKE model only with implicit vertical friction'
    | External(cause: string)           // raised inside code outside the model (kernels, hooks, signals)

  datatype Result<+T> = Ok(value: T) | Err(error: PyError)

  /** A scalar attribute value. Python's `float` is modelled by an exact `real`. */
  datatype Value = Str(s: string) | Int(i: int) | Float(r: real) | Bool(b: bool)

  /** The type column of a setting: which constructor `type(default)` calls. */
  datatype Kind = StrKind | IntKind | FloatKind | BoolKind

  function KindOf(v: Value): Kind
  {
    match v
    case Str(_) => StrKind
    case Int(_) => IntKind
    case Float(_) => FloatKind
    case Bool(_) => BoolKind
  }

  /** Python truthiness: empty strings and zeros are false. */
  predicate Truthy(v: Value)
  {
    match v
    case Str(s) => s != ""
    case Int(i) => i != 0
    case Float(r) => r != 0.0
    case Bool(b) => b
  }

  /** Values that take part in arithmetic (`bool` is an `int` in Python). */
  predicate IsNumber(v: Value)
  {
    !v.Str?
  }

  function AsReal(v: Value): (r: real)
    requires IsNumber(v)
    ensures r == 0.0 <==> !Truthy(v)
  {
    match v
    case Int(i) => i as real
    case Float(r) => r
    case Bool(b) => if b then 1.0 else 0.0
  }

  /** `int(r)` for a float: truncation toward zero. */
  function Truncate(r: real): (n: int)
    ensures 0.0 <= r ==> n as real <= r < n as real + 1.0
    ensures r < 0.0 ==> n as real - 1.0 < r <= n as real
  {
    if r >= 0.0 then r.Floor else -((-r).Floor)
  }

  /** `str(v)`, `int(v)`, `float(v)` or `bool(v)`. Parsing a number out of a
      string and formatting a number as a string are not modelled: they give
      `None`. */
  function Convert(k: Kind, v: Value): (r: Option<Value>)
    ensures r.Some? ==> KindOf(r.value) == k
    ensures r.None? <==> (k == StrKind && !v.Str?) || ((k == IntKind || k == FloatKind) && v.Str?)
    ensures k == FloatKind && IsNumber(v) ==> r == Some(Float(AsReal(v)))
    ensures k == BoolKind ==> r == Some(Bool(Truthy(v)))
  {
    match k
    case StrKind => if v.Str? then Some(v) else None
    case IntKind =>
      (match v
       case Str(_) => None
       case Int(i) => Some(Int(i))
       case Float(r) => Some(Int(Truncate(r)))
       case Bool(b) => Some(Int(if b then 1 else 0)))
    case FloatKind => if v.Str? then None else Some(Float(AsReal(v)))
    case BoolKind => Some(Bool(Truthy(v)))
  }

  /** Converting a value that already has the target kind changes nothing, so
      applying a setting's type twice is the same as applying it once. */
  lemma ConvertIdempotent(k: Kind, v: Value)
    requires Convert(k, v).Some?
    ensures Convert(k, Convert(k, v).value) == Convert(k, v)
    ensures KindOf(v) == k ==> Convert(k, v) == Some(v)
  {
  }
}
