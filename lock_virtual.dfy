/**
 * The virtual lock wraps one device for the whole of its life. Each request is
 * submitted to a one-worker executor whose `with` block joins before the
 * method returns, so a request has completed when the method returns and the
 * future it hands back holds the device's answer; the model returns that answer.
 */
module Virtual {
  import opened Locks

  class LockVirtual {
    const device: LockSimulation
    /** The answer of the lock request made at construction. */
    var future: LockState

    constructor (lockDevice: LockSimulation)
      modifies lockDevice
      ensures device == lockDevice
      ensures device.state == Locked && future == Locked
    {
      device := lockDevice;
      new;
      future := LockDevice();
    }

    method LockDevice() returns (r: LockState)
      modifies device
      ensures device.state == Locked && r == Locked
    {
      r := device.Lock();
    }

    method UnlockDevice() returns (r: LockState)
      modifies device
      ensures device.state == Unlocked && r == Unlocked
    {
      r := device.Unlock();
    }

    /** The device's live state, read through on every call. */
    method GetState() returns (s: LockState)
      ensures s == device.state
    {
      s := device.state;
    }
  }

  /** The unit-test sequence: a new lock reads LOCKED, then UNLOCKED after unlock, LOCKED after lock. */
  method LockTestScenario() returns (initial: LockState, afterUnlock: LockState, afterLock: LockState)
    ensures initial == Locked && afterUnlock == Unlocked && afterLock == Locked
  {
    var ls := new LockSimulation();
    var lv := new LockVirtual(ls);
    initial := lv.GetState();
    var answer := lv.UnlockDevice();
    afterUnlock := lv.GetState();
    answer := lv.LockDevice();
    afterLock := lv.GetState();
  }
}
