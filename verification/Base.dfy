/** The result shapes and sequence helpers every component uses. */
module Base {
  datatype Option<+T> = None | Some(value: T)

  datatype Result<+T, +E> = Ok(value: T) | Err(error: E)

  function Last<T>(s: seq<T>): T
    requires s != []
  {
    s[|s| - 1]
  }

  function Init<T>(s: seq<T>): seq<T>
    requires s != []
  {
    s[..|s| - 1]
  }

  /** The values that are present, in order. */
  function Present<T>(vs: seq<Option<T>>): seq<T>
    decreases |vs|
  {
    if vs == [] then []
    else if Last(vs).Some? then Present(Init(vs)) + [Last(vs).value]
    else Present(Init(vs))
  }

  lemma PresentSnoc<T>(vs: seq<Option<T>>, v: Option<T>)
    ensures Present(vs + [v]) == if v.Some? then Present(vs) + [v.value] else Present(vs)
  {
    assert Init(vs + [v]) == vs;
  }
}
