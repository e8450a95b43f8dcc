/** The in-flight cap of src/inflight.cc: a counting semaphore that remembers its peak. */
module InFlight {
  import opened Basics

  datatype Slots = Slots(max: nat, current: nat, peak: nat)

  function NewSlots(maxInflight: nat): Slots {
    Slots(if maxInflight == 0 then 1 else maxInflight, 0, 0)
  }

  /** A slot is taken if one is free at the time the wait ends. */
  function Enter(s: Slots): Slots {
    if s.current < s.max then s.(current := s.current + 1, peak := Max(s.peak, s.current + 1)) else s
  }

  function Leave(s: Slots): Slots {
    if s.current > 0 then s.(current := s.current - 1) else s
  }

  class InFlightSemaphore {
    const max: nat
    var current: nat
    var peak: nat

    ghost function View(): Slots
      reads this
    {
      Slots(max, current, peak)
    }

    constructor (maxInflight: nat)
      ensures View() == NewSlots(maxInflight)
    {
      max := if maxInflight == 0 then 1 else maxInflight;
      current, peak := 0, 0;
    }

    /** AcquireUntil at the moment its wait ends, by a free slot or by the deadline. */
    method Acquire() returns (ok: bool)
      modifies this
      ensures View() == Enter(old(View())) && ok == (old(current) < max)
    {
      if current >= max {
        return false;
      }
      current := current + 1;
      peak := Max(peak, current);
      return true;
    }

    method Release()
      modifies this
      ensures View() == Leave(old(View()))
    {
      if current > 0 {
        current := current - 1;
      }
    }
  }
}
