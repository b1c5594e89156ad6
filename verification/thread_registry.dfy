/**
 * The process-wide globals of the Mono EventPipe glue and the current
 * thread's TLS slot, updated in place by `mono_eventpipe_init`,
 * `mono_eventpipe_fini` and the three thread callbacks the engine is
 * handed. Each method is proved against the corresponding function of
 * `Lifecycle` and keeps that module's ownership invariant.
 */
module ThreadRegistry {
  import opened Wrappers
  import opened EpTypes
  import Lifecycle

  class EventPipeRuntime {
    var initialized: bool         // ep_rt_mono_initialized
    var hasAllocCallback: bool    // thread_holder_alloc_callback_func != NULL
    var hasFreeCallback: bool     // thread_holder_free_callback_func != NULL
    var hasRandProvider: bool     // ep_rt_mono_rand_provider != NULL
    var slot: Option<Lifecycle.Holder>  // value under ep_rt_mono_thread_holder_tls_id for this thread
    ghost var calls: seq<Lifecycle.Call>

    ghost function Abstract(): Lifecycle.State
      reads this
    {
      Lifecycle.State(initialized, hasAllocCallback, hasFreeCallback, hasRandProvider, slot, calls)
    }

    ghost predicate Valid()
      reads this
    {
      Lifecycle.Inv(Abstract())
    }

    /** The globals at process start. */
    constructor ()
      ensures Abstract() == Lifecycle.Initial && Valid()
    {
      initialized, hasAllocCallback, hasFreeCallback, hasRandProvider := false, false, false, false;
      slot := None;
      calls := [];
    }

    /** `mono_eventpipe_init`; the arguments say whether each callback pointer is non-NULL. */
    method Init(allocCallback: bool, freeCallback: bool)
      requires Valid()
      modifies this
      ensures Valid()
      ensures Abstract() == Lifecycle.Init(old(Abstract()), allocCallback, freeCallback)
    {
      Lifecycle.StepPreservesInv(Abstract(), Lifecycle.OpInit(allocCallback, freeCallback));
      hasAllocCallback := allocCallback;
      hasFreeCallback := freeCallback;
      slot := None;
      hasRandProvider := true;
      calls := calls + [Lifecycle.RandOpen];
      initialized := true;
    }

    /** `mono_eventpipe_fini`. */
    method Fini()
      requires Valid()
      modifies this
      ensures Valid()
      ensures Abstract() == Lifecycle.Fini(old(Abstract()))
    {
      Lifecycle.StepPreservesInv(Abstract(), Lifecycle.OpFini);
      if initialized {
        calls := calls + [Lifecycle.RandClose];
      }
      hasRandProvider := false;
      hasAllocCallback := false;
      hasFreeCallback := false;
      initialized := false;
    }

    /** `eventpipe_thread_get`: the non-creating read; as a function it cannot write the slot. */
    function ThreadGet(): (t: Option<EventPipeThread>)
      reads this
      ensures t.None? <==> slot.None?
      ensures t == Lifecycle.ThreadOf(Abstract())
    {
      if slot.Some? then Some(slot.value.thread) else None
    }

    /**
     * `eventpipe_thread_get_or_create`; `allocResult` is what the allocation
     * callback returns if it is called.
     */
    method ThreadGetOrCreate(allocResult: Option<Lifecycle.Holder>) returns (t: Option<EventPipeThread>)
      requires Valid()
      modifies this
      ensures Valid()
      ensures Abstract() == Lifecycle.GetOrCreate(old(Abstract()), allocResult)
      ensures t == Lifecycle.ThreadOf(Abstract())
    {
      Lifecycle.StepPreservesInv(Abstract(), Lifecycle.OpGetOrCreate(allocResult));
      var holder := slot;
      if holder.None? && hasAllocCallback {
        holder := allocResult;
        calls := calls + [Lifecycle.Alloc(allocResult)];
        slot := holder;
      }
      t := if holder.Some? then Some(holder.value.thread) else None;
    }

    /** `eventpipe_thread_exited`, reached from the profiler's thread-stopped callback. */
    method ThreadExited()
      requires Valid()
      modifies this
      ensures Valid()
      ensures Abstract() == Lifecycle.Exited(old(Abstract()))
    {
      Lifecycle.StepPreservesInv(Abstract(), Lifecycle.OpExited);
      if initialized {
        var holder := slot;
        if holder.Some? && hasFreeCallback {
          calls := calls + [Lifecycle.Free(holder.value)];
        }
        slot := None;
      }
    }
  }
}
