/**
 * The older two-state lock controller: states encoded as integers, starting
 * Unlocked, delegating each request to a device controller and recording the
 * new state only once the controller's call has returned.
 */
module LegacyLock {

  const Unlocked: int := 0
  const Locked: int := 1

  /** How a call into the device controller ended: with a response, or by raising. */
  datatype Call<R> = Returned(response: R) | Raised

  /**
   * The controller's code is not part of this model, so each method receives
   * the outcome of its call to the controller; a raised call propagates.
   */
  class Lock<D> {
    var state: int
    const deviceController: D

    ghost predicate Valid()
      reads this
    {
      state == Unlocked || state == Locked
    }

    constructor (deviceCtrl: D)
      ensures Valid() && state == Unlocked && deviceController == deviceCtrl
    {
      state := Unlocked;
      deviceController := deviceCtrl;
    }

    method Lock<R>(call: Call<R>) returns (r: Call<R>)
      requires Valid()
      modifies this
      ensures Valid() && r == call
      ensures state == if call.Returned? then Locked else old(state)
    {
      r := call;
      if call.Returned? {
        state := Locked;
      }
    }

    method Unlock<R>(call: Call<R>) returns (r: Call<R>)
      requires Valid()
      modifies this
      ensures Valid() && r == call
      ensures state == if call.Returned? then Unlocked else old(state)
    {
      r := call;
      if call.Returned? {
        state := Unlocked;
      }
    }
  }

  /** The unit-test sequence: a new lock reads Unlocked, Locked after lock, Unlocked after unlock. */
  method LegacyLockScenario<D>(deviceCtrl: D) returns (initial: int, afterLock: int, afterUnlock: int)
    ensures initial == Unlocked && afterLock == Locked && afterUnlock == Unlocked
  {
    var virtLock := new Lock(deviceCtrl);
    initial := virtLock.state;
    var response := virtLock.Lock(Returned(()));
    afterLock := virtLock.state;
    response := virtLock.Unlock(Returned(()));
    afterUnlock := virtLock.state;
  }
}
