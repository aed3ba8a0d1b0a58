/** The API server and the token service as one object that client calls update in place. */
module Server {
  import opened Environment

  datatype Result<+T> = Success(value: T) | Failure {
    predicate IsFailure() {
      Failure?
    }

    function PropagateFailure<U>(): Result<U>
      requires Failure?
    {
      Failure
    }

    function Extract(): T
      requires Success?
    {
      value
    }
  }

  /** What the caller sees of a run. */
  function Verdict<T>(run: Run<T>): Result<T> {
    match run
    case Ok(_, value) => Success(value)
    case Fail(_) => Failure
  }

  class Server {
    var world: World

    constructor (w: World)
      ensures world == w
    {
      world := w;
    }

    /** One client call: the world moves on, the caller gets the answer. */
    method Do<T>(call: World -> Run<T>) returns (r: Result<T>)
      modifies this
      ensures world == call(old(world)).w && r == Verdict(call(old(world)))
    {
      var run := call(world);
      world := run.w;
      r := Verdict(run);
    }

    /** The generator counts the names it has returned. */
    method Draw() returns (i: nat)
      modifies this
      ensures i == old(world).issued && world == old(world).(issued := i + 1)
    {
      i := world.issued;
      world := world.(issued := i + 1);
    }
  }
}
