/**
 * The lock device hierarchy: the two-valued lock state, the base device whose
 * constructor starts every device LOCKED, and the simulated device whose
 * `lock`/`unlock` overwrite that state unconditionally and return it.
 */
module Locks {

  datatype LockState = Locked | Unlocked

  /** A request to a device: its `lock()` or its `unlock()`. */
  datatype Request = LockRequest | UnlockRequest

  /** The state a device is in after serving `req`, whatever it was before. */
  function Target(req: Request): (s: LockState)
    ensures s == Locked <==> req == LockRequest
  {
    match req
    case LockRequest => Locked
    case UnlockRequest => Unlocked
  }

  /** The state of a device started in `s` after serving `reqs` in order. */
  function Run(reqs: seq<Request>, s: LockState): LockState
  {
    if reqs == [] then s else Run(reqs[1..], Target(reqs[0]))
  }

  /** The last request decides the state; the initial state matters only if there is none. */
  lemma {:induction false} RunLastWins(reqs: seq<Request>, s: LockState)
    ensures Run(reqs, s) == if reqs == [] then s else Target(reqs[|reqs| - 1])
  {
    if reqs != [] {
      RunLastWins(reqs[1..], Target(reqs[0]));
    }
  }

  /** Serving a request twice in a row is the same as serving it once. */
  lemma RunIdempotent(req: Request, s: LockState)
    ensures Run([req, req], s) == Run([req], s) == Target(req)
  {
    assert [req, req][1..] == [req];
    assert [req][1..] == [];
  }

  /**
   * The simulated device. The constructor is the base class's: it starts the
   * device LOCKED. The device delay is 0, so the sleep is left out.
   */
  class LockSimulation {
    var state: LockState

    constructor ()
      ensures state == Locked
    {
      state := Locked;
    }

    method Lock() returns (r: LockState)
      modifies this
      ensures state == Target(LockRequest) && r == state
    {
      state := Locked;
      r := state;
    }

    method Unlock() returns (r: LockState)
      modifies this
      ensures state == Target(UnlockRequest) && r == state
    {
      state := Unlocked;
      r := state;
    }
  }
}
