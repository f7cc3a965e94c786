/** Non-blocking, per-target mutual exclusion. */
module TargetLocks {
  /**
   One one-slot channel per target, created on first touch; `slots` records how many tokens each holds.
   */
  class TargetLockIndex {
    var slots: map<string, nat>

    ghost predicate Valid()
      reads this
    {
      forall t :: t in slots ==> slots[t] <= 1
    }

    /** The targets whose lock is taken. */
    ghost function Held(): set<string>
      reads this
    {
      set t | t in slots && slots[t] > 0
    }

    constructor ()
      ensures Valid() && Held() == {}
    {
      slots := map[];
    }

    /** Touching a target's channel creates it empty and takes no lock. */
    method ChannelFor(target: string) returns (used: nat)
      requires Valid()
      modifies this
      ensures Valid() && Held() == old(Held())
      ensures target in slots && used == slots[target]
      ensures used == 1 <==> target in Held()
    {
      if target !in slots {
        slots := slots[target := 0];
      }
      used := slots[target];
    }

    method TryAcquire(target: string) returns (ok: bool)
      requires Valid()
      modifies this
      ensures Valid()
      ensures ok <==> target !in old(Held())
      ensures Held() == old(Held()) + {target}
    {
      var used := ChannelFor(target);
      if used < 1 {
        slots := slots[target := used + 1];
        ok := true;
      } else {
        ok := false;
      }
    }

    /** Unconditional: whoever calls it frees the target's lock, and a release without an acquire does nothing. */
    method Release(target: string)
      requires Valid()
      modifies this
      ensures Valid()
      ensures Held() == old(Held()) - {target}
    {
      var used := ChannelFor(target);
      if used > 0 {
        slots := slots[target := used - 1];
      }
    }

    method IsHeld(target: string) returns (held: bool)
      requires Valid()
      modifies this
      ensures Valid() && Held() == old(Held())
      ensures held <==> target in Held()
    {
      var used := ChannelFor(target);
      held := used > 0;
    }
  }
}
