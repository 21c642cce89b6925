/** Result and Option types for the Python code's exceptions and optional values. */
module Outcomes {

  datatype Option<+T> = None | Some(value: T)

  /** The exceptions the modelled code raises, by Python exception class. */
  datatype Error =
    | AssertionError(field: string)        // a failed `assert` inside a validator
    | PatternError(pattern: string)        // `re.error` raised while compiling a pattern
    | ValueError(message: string)
    | TypeError(message: string)
    | AttributeError(attribute: string)
    | IndexError
    | NotImplementedError(message: string)
    | RuntimeError(message: string)
    | RecursionError
    | MissingField(field: string)          // pydantic: a required field was not supplied
    | WrongFieldType(field: string)        // pydantic: a field's value has the wrong type
  {
    /** Pydantic turns these into entries of its `ValidationError` and goes on with the
        next field; any other exception leaves validation at once. */
    predicate IsCollected() {
      AssertionError? || ValueError? || MissingField? || WrongFieldType?
    }
  }

  datatype Result<+T> = Ok(value: T) | Err(error: Error) {
    predicate IsFailure() { Err? }

    function PropagateFailure<U>(): Result<U>
      requires Err?
    {
      Err(error)
    }

    function Extract(): T
      requires Ok?
    {
      value
    }
  }

  /** Running `check` on each item in turn, as a loop of assertions does: the first
      item that fails raises, and the rest are not looked at. */
  function FirstFailure<T>(check: T -> Result<()>, xs: seq<T>): (r: Result<()>)
    ensures r.Ok? <==> forall i :: 0 <= i < |xs| ==> check(xs[i]).Ok?
    ensures r.Err? ==> exists i :: 0 <= i < |xs| && check(xs[i]) == Err(r.error)
                                   && forall j :: 0 <= j < i ==> check(xs[j]).Ok?
  {
    if xs == [] then Ok(())
    else if check(xs[0]).Err? then Err(check(xs[0]).error)
    else
      var r := FirstFailure(check, xs[1..]);
      assert forall i :: 1 <= i < |xs| ==> xs[i] == xs[1..][i - 1];
      if r.Err? then
        var i :| 0 <= i < |xs| - 1 && check(xs[1..][i]) == Err(r.error)
                 && forall j :: 0 <= j < i ==> check(xs[1..][j]).Ok?;
        assert xs[i + 1] == xs[1..][i];
        r
      else r
  }

  /** The unit type has one value, so a successful unit outcome is `Ok(())`. */
  lemma UnitOk(r: Result<()>)
    requires r.Ok?
    ensures r == Ok(())
  {
    match r
    case Ok(u) =>
      match u
      case () =>
  }
}
