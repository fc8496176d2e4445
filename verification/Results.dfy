/** Results of control-plane transactions: a failed transaction changes nothing. */
module Results {

  const MAX_INT64: int := 0x7FFF_FFFF_FFFF_FFFF

  /** Ids are canonical UUIDs, ordered as the numbers they spell; 0 stands for
      every string that is not one. */
  type Id = nat

  predicate ValidId(id: Id)
  {
    id != 0
  }

  predicate ValidRuntime(name: string)
  {
    && 1 <= |name| <= 48
    && 'a' <= name[0] <= 'z'
    && forall i :: 1 <= i < |name| ==> 'a' <= name[i] <= 'z' || '0' <= name[i] <= '9' || name[i] == '-'
  }

  datatype Option<+T> = None | Some(value: T)

  datatype Error = Invalid | Budget | Conflict | Sequence | Scope | Revision | Recovery | Drain | NotFound

  datatype Result<+T> = Ok(value: T) | Err(error: Error) {
    predicate IsFailure()
    {
      Err?
    }

    function PropagateFailure<U>(): Result<U>
      requires Err?
    {
      Err(error)
    }

    function Extract(): T
      requires Ok?
    {
      value
    }
  }

  datatype Check = Pass | Fail(error: Error) {
    predicate IsFailure()
    {
      Fail?
    }

    function PropagateFailure<U>(): Result<U>
      requires Fail?
    {
      Err(error)
    }
  }

  function Need(condition: bool, error: Error): Check
  {
    if condition then Pass else Fail(error)
  }

  function Lookup<V>(table: map<Id, V>, id: Id): Result<V>
  {
    if id in table then Ok(table[id]) else Err(NotFound)
  }
}
