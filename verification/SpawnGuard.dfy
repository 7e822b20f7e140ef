/**
 The spawn guard of the agent bus: token reservations and concurrency slots.

 `Guard` is the value of one guard and `PreCheck`, `AcquireSlot` and `Release` say what
 each call does to it. The class `SpawnGuard` is the mutable object; each of its methods
 is proved to do exactly what the function of the same name says.
 */
module SpawnGuards {
  import opened Common

  type JobId = nat

  datatype Reservation = Reservation(estimate: int, acquired: bool)

  datatype Guard = Guard(
    maxDepth: int,
    maxTokens: int,
    slots: nat,
    free: nat,
    reserved: int,
    active: map<JobId, Reservation>)
  {
    function PreCheck(id: JobId, depth: int, estimate: int): Result<Guard, SpawnError> {
      if depth >= maxDepth then Err(SpawnDepthExceeded)
      else if estimate > 0 && estimate > maxTokens - reserved then Err(BudgetExhausted)
      else Ok(this.(reserved := reserved + estimate, active := active[id := Reservation(estimate, false)]))
    }

    /** The semaphore grants a slot, then the reservation, if it still exists, is flagged. */
    function AcquireSlot(id: JobId): Guard
      requires free > 0
    {
      this.(free := free - 1,
            active := if id in active then active[id := active[id].(acquired := true)] else active)
    }

    function Release(id: JobId): Guard {
      if id !in active then this
      else this.(reserved := reserved - active[id].estimate,
                 free := if active[id].acquired then free + 1 else free,
                 active := active - {id})
    }
  }

  datatype SpawnError = SpawnDepthExceeded | BudgetExhausted

  function InitialGuard(maxDepth: int, maxTokens: int, maxParallel: int): Guard {
    var slots := Max(maxParallel, 1);
    Guard(maxDepth, maxTokens, slots, slots, 0, map[])
  }

  // ---- What conservation means ----

  ghost function SumEstimates(active: map<JobId, Reservation>): int {
    if active == map[] then 0
    else
      var id :| id in active;
      active[id].estimate + SumEstimates(active - {id})
  }

  function Held(active: map<JobId, Reservation>): set<JobId> {
    set id | id in active && active[id].acquired
  }

  /** Tokens reserved are the sum of the active reservations, and no slot is lost or forged. */
  ghost predicate Balanced(g: Guard) {
    && g.reserved == SumEstimates(g.active)
    && g.free + |Held(g.active)| == g.slots
  }

  ghost predicate WithinBudget(g: Guard) {
    && g.reserved <= Max(g.maxTokens, 0)
    && forall id :: id in g.active ==> g.active[id].estimate >= 0
  }

  lemma {:induction false} SumRemove(active: map<JobId, Reservation>, id: JobId)
    requires id in active
    ensures SumEstimates(active) == active[id].estimate + SumEstimates(active - {id})
    decreases |active|
  {
    var first :| first in active && SumEstimates(active) == active[first].estimate + SumEstimates(active - {first});
    if first != id {
      SumRemove(active - {first}, id);
      SumRemove(active - {id}, first);
      assert active - {first} - {id} == active - {id} - {first};
    }
  }

  lemma SumUpdate(active: map<JobId, Reservation>, id: JobId, r: Reservation)
    ensures SumEstimates(active[id := r]) == r.estimate + SumEstimates(active - {id})
  {
    SumRemove(active[id := r], id);
    assert active[id := r] - {id} == active - {id};
  }

  lemma {:induction false} SumNonNegative(active: map<JobId, Reservation>)
    requires forall id :: id in active ==> active[id].estimate >= 0
    ensures SumEstimates(active) >= 0
    ensures forall id :: id in active ==> active[id].estimate <= SumEstimates(active)
    decreases |active|
  {
    forall id | id in active
      ensures 0 <= active[id].estimate <= SumEstimates(active)
    {
      SumRemove(active, id);
      SumNonNegative(active - {id});
    }
    if active != map[] {
      var id :| id in active;
    }
  }

  // ---- Exactly when each operation keeps the books ----

  lemma InitialBalanced(maxDepth: int, maxTokens: int, maxParallel: int)
    ensures Balanced(InitialGuard(maxDepth, maxTokens, maxParallel))
    ensures WithinBudget(InitialGuard(maxDepth, maxTokens, maxParallel))
    ensures InitialGuard(maxDepth, maxTokens, maxParallel).slots >= 1
  {
    assert Held(map[]) == {};
  }

  /**
   An accepted pre-check keeps the books exactly when it does not overwrite a live
   reservation that carries tokens or a slot.
   */
  lemma PreCheckBalanced(g: Guard, id: JobId, depth: int, estimate: int)
    requires Balanced(g)
    requires g.PreCheck(id, depth, estimate).Ok?
    ensures Balanced(g.PreCheck(id, depth, estimate).value) <==>
            (id in g.active ==> g.active[id].estimate == 0 && !g.active[id].acquired)
    ensures WithinBudget(g) && estimate >= 0 ==> WithinBudget(g.PreCheck(id, depth, estimate).value)
  {
    var h := g.PreCheck(id, depth, estimate).value;
    SumUpdate(g.active, id, Reservation(estimate, false));
    assert Held(h.active) == Held(g.active) - {id};
    if id in g.active {
      SumRemove(g.active, id);
    } else {
      assert g.active - {id} == g.active;
    }
  }

  /** On balanced books a spawn is refused for its depth, or else exactly when it asks for tokens and they,
      with all reservations that are active, exceed the budget. */
  lemma PreCheckRefusesIff(g: Guard, id: JobId, depth: int, estimate: int)
    requires Balanced(g)
    ensures var over := estimate > 0 && SumEstimates(g.active) + estimate > g.maxTokens;
            && (g.PreCheck(id, depth, estimate) == Err(SpawnDepthExceeded) <==> depth >= g.maxDepth)
            && (g.PreCheck(id, depth, estimate) == Err(BudgetExhausted) <==> depth < g.maxDepth && over)
            && (g.PreCheck(id, depth, estimate).Ok? <==> depth < g.maxDepth && !over)
  {}

  /** Taking a slot keeps the books exactly when an unslotted reservation is there to carry it. */
  lemma AcquireSlotBalanced(g: Guard, id: JobId)
    requires Balanced(g) && g.free > 0
    ensures Balanced(g.AcquireSlot(id)) <==> id in g.active && !g.active[id].acquired
    ensures WithinBudget(g) ==> WithinBudget(g.AcquireSlot(id))
  {
    if id in g.active {
      SumRemove(g.active, id);
      SumUpdate(g.active, id, g.active[id].(acquired := true));
      assert Held(g.AcquireSlot(id).active) == Held(g.active) + {id};
    }
  }

  /** Releasing keeps the books for every job id, known or not, and a second release does nothing. */
  lemma ReleaseBalanced(g: Guard, id: JobId)
    requires Balanced(g)
    ensures Balanced(g.Release(id))
    ensures g.Release(id).Release(id) == g.Release(id)
    ensures WithinBudget(g) ==> WithinBudget(g.Release(id))
  {
    if id in g.active {
      SumRemove(g.active, id);
      assert Held(g.Release(id).active) == Held(g.active) - {id};
      if WithinBudget(g) {
        SumNonNegative(g.active);
      }
    }
  }

  /** With no reservation left, nothing is reserved and every slot is free. */
  lemma EmptyGuardIsIdle(g: Guard)
    requires Balanced(g) && g.active == map[]
    ensures g.reserved == 0 && g.free == g.slots
  {
    assert Held(g.active) == {};
  }

  // ---- The mutable guard ----

  class SpawnGuard {
    const maxDepth: int
    const maxTokens: int
    const slots: nat
    var free: nat
    var reserved: int
    var active: map<JobId, Reservation>

    function View(): Guard
      reads this
    {
      Guard(maxDepth, maxTokens, slots, free, reserved, active)
    }

    constructor (maxDepth: int, maxTokens: int, maxParallel: int)
      ensures View() == InitialGuard(maxDepth, maxTokens, maxParallel)
    {
      this.maxDepth := maxDepth;
      this.maxTokens := maxTokens;
      this.slots := Max(maxParallel, 1);
      free := Max(maxParallel, 1);
      reserved := 0;
      active := map[];
    }

    method PreCheck(id: JobId, depth: int, estimate: int) returns (error: Option<SpawnError>)
      modifies this
      ensures error.None? <==> old(View()).PreCheck(id, depth, estimate).Ok?
      ensures error.None? ==> View() == old(View()).PreCheck(id, depth, estimate).value
      ensures error.Some? ==> View() == old(View())
                              && old(View()).PreCheck(id, depth, estimate) == Err(error.value)
      ensures error == Some(SpawnDepthExceeded) <==> depth >= maxDepth
      ensures error == Some(BudgetExhausted) <==>
              depth < maxDepth && estimate > 0 && old(reserved) + estimate > maxTokens
      ensures error.None? ==>
                reserved == old(reserved) + estimate && active == old(active)[id := Reservation(estimate, false)]
    {
      if depth >= maxDepth {
        return Some(SpawnDepthExceeded);
      }
      var remaining := maxTokens - reserved;
      if estimate > 0 && estimate > remaining {
        return Some(BudgetExhausted);
      }
      reserved := reserved + estimate;
      active := active[id := Reservation(estimate, false)];
      return None;
    }

    /** Runs once the semaphore has a slot to give; waiting for one changes nothing. */
    method AcquireSlot(id: JobId)
      requires free > 0
      modifies this
      ensures View() == old(View()).AcquireSlot(id)
    {
      free := free - 1;
      if id in active {
        active := active[id := active[id].(acquired := true)];
      }
    }

    method Release(id: JobId)
      modifies this
      ensures View() == old(View()).Release(id)
    {
      if id !in active {
        return;
      }
      var reservation := active[id];
      active := active - {id};
      reserved := reserved - reservation.estimate;
      if reservation.acquired {
        free := free + 1;
      }
    }
  }
}
