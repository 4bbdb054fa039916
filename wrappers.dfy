/** Option and exception-aware results shared by every module of the model. */
module Wrappers {

  datatype Option<+T> = None | Some(value: T)

  /** The outcome of a Python expression that may raise (AttributeError on `.get`
      of a non-dict, TypeError on iterating a non-iterable): either a value or a raise. */
  datatype Res<+T> = Ok(value: T) | Raise

  /** Python's `a + b` on two string results, where the first raise aborts. */
  function Join(a: Res<string>, b: Res<string>): (r: Res<string>)
    ensures r.Ok? <==> a.Ok? && b.Ok?
    ensures r.Ok? ==> r.value == a.value + b.value
  {
    match a
    case Raise => Raise
    case Ok(x) => match b
      case Raise => Raise
      case Ok(y) => Ok(x + y)
  }

  /** Joining is associative: it does not matter how a run of pieces is grouped. */
  lemma JoinAssoc(a: Res<string>, b: Res<string>, c: Res<string>)
    ensures Join(Join(a, b), c) == Join(a, Join(b, c))
  {
    if a.Ok? && b.Ok? && c.Ok? {
      assert (a.value + b.value) + c.value == a.value + (b.value + c.value);
    }
  }

  /** Joining with an empty piece changes nothing. */
  lemma JoinEmpty(a: Res<string>)
    ensures Join(a, Ok("")) == a
  {
    if a.Ok? {
      assert a.value + "" == a.value;
    }
  }
}
