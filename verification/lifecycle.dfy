/**
 * The thread-holder lifecycle of the Mono EventPipe glue, as a state machine
 * on values. A state holds the process-wide `initialized` flag, which of the
 * two holder callbacks are registered, whether a random provider is held,
 * the current thread's TLS slot, and the log of the calls the glue has made
 * into the allocation/free callbacks and the random source.
 *
 * This module is the specification that `ThreadRegistry.EventPipeRuntime`
 * is proved against; the ownership properties (a holder is freed at most as
 * often as it was allocated, the holder in the slot is live, the random
 * source is closed at most once per open) are proved here for every
 * sequence of operations.
 */
module Lifecycle {
  import opened Wrappers
  import opened EpTypes

  /** A thread holder as handed out by the allocation callback: its address and the engine thread it owns. */
  datatype Holder = Holder(address: nat, thread: EventPipeThread)

  /** Calls into collaborators that matter for ownership. */
  datatype Call =
    | Alloc(result: Option<Holder>)  // thread_holder_alloc_callback_func (); it may return NULL
    | Free(holder: Holder)           // thread_holder_free_callback_func (holder)
    | RandOpen                       // mono_rand_open + mono_rand_init
    | RandClose                      // mono_rand_close

  datatype State = State(
    initialized: bool,
    hasAllocCallback: bool,
    hasFreeCallback: bool,
    hasRandProvider: bool,
    slot: Option<Holder>,
    calls: seq<Call>)

  /** Process start: every global is zero and no TLS value is set. */
  const Initial := State(false, false, false, false, None, [])

  function AllocCount(calls: seq<Call>, h: Holder): nat { multiset(calls)[Alloc(Some(h))] }
  function FreeCount(calls: seq<Call>, h: Holder): nat { multiset(calls)[Free(h)] }
  function OpenCount(calls: seq<Call>): nat { multiset(calls)[RandOpen] }
  function CloseCount(calls: seq<Call>): nat { multiset(calls)[RandClose] }

  /** The engine thread owned by the holder in the slot, if there is one. */
  function ThreadOf(s: State): Option<EventPipeThread>
  {
    if s.slot.Some? then Some(s.slot.value.thread) else None
  }

  /**
   * `mono_eventpipe_init`: register both callbacks (either may be NULL),
   * allocate a fresh TLS key, open the random source and set the flag.
   */
  function Init(s: State, allocCallback: bool, freeCallback: bool): (s': State)
    ensures s'.initialized && s'.hasRandProvider
    ensures s'.hasAllocCallback == allocCallback && s'.hasFreeCallback == freeCallback
    ensures s'.slot.None?
    ensures s'.calls == s.calls + [RandOpen]
  {
    State(true, allocCallback, freeCallback, true, None, s.calls + [RandOpen])
  }

  /**
   * `mono_eventpipe_fini`: close the random source if initialized, then
   * clear the provider, both callbacks and the flag. The slot is untouched.
   */
  function Fini(s: State): (s': State)
    ensures !s'.initialized && !s'.hasRandProvider
    ensures !s'.hasAllocCallback && !s'.hasFreeCallback
    ensures s'.slot == s.slot
    ensures s'.calls == s.calls + (if s.initialized then [RandClose] else [])
  {
    State(false, false, false, false, s.slot, s.calls + (if s.initialized then [RandClose] else []))
  }

  /**
   * `eventpipe_thread_get_or_create`: when the slot is empty and an
   * allocator is registered, call it and store what it returns.
   */
  function GetOrCreate(s: State, allocResult: Option<Holder>): (s': State)
    ensures s.slot.Some? || !s.hasAllocCallback ==> s' == s
    ensures s.slot.None? && s.hasAllocCallback ==>
              s'.slot == allocResult && s'.calls == s.calls + [Alloc(allocResult)]
    ensures s'.initialized == s.initialized && s'.hasRandProvider == s.hasRandProvider
    ensures s'.hasAllocCallback == s.hasAllocCallback && s'.hasFreeCallback == s.hasFreeCallback
  {
    if s.slot.None? && s.hasAllocCallback then
      s.(slot := allocResult, calls := s.calls + [Alloc(allocResult)])
    else
      s
  }

  /**
   * `eventpipe_thread_exited`: when initialized, free the holder if there
   * is one and a free callback is registered, and always clear the slot.
   */
  function Exited(s: State): (s': State)
    ensures !s.initialized ==> s' == s
    ensures s.initialized ==> s'.slot.None?
    ensures s'.calls == s.calls +
              (if s.initialized && s.slot.Some? && s.hasFreeCallback then [Free(s.slot.value)] else [])
    ensures s'.initialized == s.initialized && s'.hasRandProvider == s.hasRandProvider
    ensures s'.hasAllocCallback == s.hasAllocCallback && s'.hasFreeCallback == s.hasFreeCallback
  {
    if !s.initialized then
      s
    else
      var freed := if s.slot.Some? && s.hasFreeCallback then [Free(s.slot.value)] else [];
      s.(slot := None, calls := s.calls + freed)
  }

  /** The state-changing entry points of the lifecycle. */
  datatype Op =
    | OpInit(allocCallback: bool, freeCallback: bool)
    | OpFini
    | OpGetOrCreate(allocResult: Option<Holder>)
    | OpExited

  function Step(s: State, op: Op): State
  {
    match op
    case OpInit(a, f) => Init(s, a, f)
    case OpFini => Fini(s)
    case OpGetOrCreate(h) => GetOrCreate(s, h)
    case OpExited => Exited(s)
  }

  /** The state after running `ops` in order from `s`. */
  function Run(s: State, ops: seq<Op>): State
    decreases |ops|
  {
    if ops == [] then s else Run(Step(s, ops[0]), ops[1..])
  }

  /** No holder named in a `Free` entry has been freed more often than it was allocated. */
  ghost predicate FreesBounded(calls: seq<Call>)
  {
    forall i :: 0 <= i < |calls| && calls[i].Free? ==>
      FreeCount(calls, calls[i].holder) <= AllocCount(calls, calls[i].holder)
  }

  /** `h` has been allocated more often than freed: it is still owned by someone. */
  ghost predicate Live(calls: seq<Call>, h: Holder)
  {
    FreeCount(calls, h) < AllocCount(calls, h)
  }

  /**
   * Ownership invariant: no holder has been freed more often than it was
   * allocated, the holder in the slot is live, and the random source has
   * been closed at most once per open (once less while the glue is
   * initialized).
   */
  ghost predicate Inv(s: State)
  {
    && FreesBounded(s.calls)
    && (s.slot.Some? ==> Live(s.calls, s.slot.value))
    && CloseCount(s.calls) + (if s.initialized then 1 else 0) <= OpenCount(s.calls)
  }

  lemma InitialInv()
    ensures Inv(Initial)
  {
  }

  /** Appending one call changes the counts of `h` by at most that call. */
  lemma CountsAppend(calls: seq<Call>, c: Call, h: Holder)
    ensures AllocCount(calls + [c], h) == AllocCount(calls, h) + (if c == Alloc(Some(h)) then 1 else 0)
    ensures FreeCount(calls + [c], h) == FreeCount(calls, h) + (if c == Free(h) then 1 else 0)
  {
    assert multiset(calls + [c]) == multiset(calls) + multiset{c};
  }

  /** Appending one call changes the random-source counts by at most that call. */
  lemma RandCountsAppend(calls: seq<Call>, c: Call)
    ensures OpenCount(calls + [c]) == OpenCount(calls) + (if c == RandOpen then 1 else 0)
    ensures CloseCount(calls + [c]) == CloseCount(calls) + (if c == RandClose then 1 else 0)
  {
    assert multiset(calls + [c]) == multiset(calls) + multiset{c};
  }

  /** A holder that was freed at all appears in a `Free` entry of the log. */
  lemma FreedAppears(calls: seq<Call>, h: Holder)
    requires FreeCount(calls, h) > 0
    ensures exists i :: 0 <= i < |calls| && calls[i] == Free(h)
  {
    assert Free(h) in calls;
  }

  /** Logging anything but a `Free` keeps the bound and keeps every live holder live. */
  lemma AppendOtherKeepsBound(calls: seq<Call>, c: Call, h: Option<Holder>)
    requires FreesBounded(calls) && !c.Free?
    requires h.Some? ==> Live(calls, h.value)
    ensures FreesBounded(calls + [c])
    ensures h.Some? ==> Live(calls + [c], h.value)
  {
    var calls' := calls + [c];
    forall i | 0 <= i < |calls'| && calls'[i].Free?
      ensures FreeCount(calls', calls'[i].holder) <= AllocCount(calls', calls'[i].holder)
    {
      assert i < |calls| && calls'[i] == calls[i];
      CountsAppend(calls, c, calls[i].holder);
    }
    if h.Some? {
      CountsAppend(calls, c, h.value);
    }
  }

  /** Freeing a live holder keeps the bound. */
  lemma AppendFreeKeepsBound(calls: seq<Call>, h: Holder)
    requires FreesBounded(calls) && Live(calls, h)
    ensures FreesBounded(calls + [Free(h)])
  {
    var calls' := calls + [Free(h)];
    forall i | 0 <= i < |calls'| && calls'[i].Free?
      ensures FreeCount(calls', calls'[i].holder) <= AllocCount(calls', calls'[i].holder)
    {
      CountsAppend(calls, Free(h), calls'[i].holder);
    }
  }

  /** A holder the allocator has just returned is live. */
  lemma AllocatedIsLive(calls: seq<Call>, h: Holder)
    requires FreesBounded(calls)
    ensures Live(calls + [Alloc(Some(h))], h)
  {
    CountsAppend(calls, Alloc(Some(h)), h);
    if FreeCount(calls, h) > 0 {
      FreedAppears(calls, h);
    }
  }

  lemma StepPreservesInv(s: State, op: Op)
    requires Inv(s)
    ensures Inv(Step(s, op))
  {
    match op
    case OpInit(a, f) =>
      AppendOtherKeepsBound(s.calls, RandOpen, None);
      RandCountsAppend(s.calls, RandOpen);
    case OpFini =>
      if s.initialized {
        AppendOtherKeepsBound(s.calls, RandClose, s.slot);
        RandCountsAppend(s.calls, RandClose);
      }
    case OpGetOrCreate(allocResult) =>
      if s.slot.None? && s.hasAllocCallback {
        AppendOtherKeepsBound(s.calls, Alloc(allocResult), None);
        RandCountsAppend(s.calls, Alloc(allocResult));
        if allocResult.Some? {
          AllocatedIsLive(s.calls, allocResult.value);
        }
      }
    case OpExited =>
      if s.initialized && s.slot.Some? && s.hasFreeCallback {
        AppendFreeKeepsBound(s.calls, s.slot.value);
        RandCountsAppend(s.calls, Free(s.slot.value));
      }
  }

  lemma {:induction false} RunPreservesInv(s: State, ops: seq<Op>)
    requires Inv(s)
    ensures Inv(Run(s, ops))
    decreases |ops|
  {
    if ops != [] {
      StepPreservesInv(s, ops[0]);
      RunPreservesInv(Step(s, ops[0]), ops[1..]);
    }
  }

  /** Whatever the order of init, fini, creation and exit notifications, no holder is freed more often than it was allocated. */
  lemma HolderFreedAtMostOncePerAlloc(ops: seq<Op>, h: Holder)
    ensures FreeCount(Run(Initial, ops).calls, h) <= AllocCount(Run(Initial, ops).calls, h)
  {
    InitialInv();
    RunPreservesInv(Initial, ops);
    if FreeCount(Run(Initial, ops).calls, h) > 0 {
      FreedAppears(Run(Initial, ops).calls, h);
    }
  }

  /** The thread any run leaves in the slot belongs to a holder that has not been freed since it was allocated. */
  lemma SlotHolderIsLive(ops: seq<Op>)
    ensures var s := Run(Initial, ops);
            s.slot.Some? ==> FreeCount(s.calls, s.slot.value) < AllocCount(s.calls, s.slot.value)
  {
    InitialInv();
    RunPreservesInv(Initial, ops);
  }

  /** The random source is closed at most as often as it was opened. */
  lemma RandClosedAtMostOncePerOpen(ops: seq<Op>)
    ensures CloseCount(Run(Initial, ops).calls) <= OpenCount(Run(Initial, ops).calls)
  {
    InitialInv();
    RunPreservesInv(Initial, ops);
  }

  /** Once `get_or_create` has produced a thread, another call returns the same thread and allocates nothing. */
  lemma GetOrCreateStable(s: State, first: Option<Holder>, second: Option<Holder>)
    requires ThreadOf(GetOrCreate(s, first)).Some?
    ensures GetOrCreate(GetOrCreate(s, first), second) == GetOrCreate(s, first)
    ensures ThreadOf(GetOrCreate(GetOrCreate(s, first), second)) == ThreadOf(GetOrCreate(s, first))
  {
  }

  /** The result of `get_or_create` is exactly what the non-creating read sees afterwards; it differs from the read before only when the slot was empty. */
  lemma GetOrCreateAgreesWithGet(s: State, allocResult: Option<Holder>)
    ensures ThreadOf(s).Some? ==> ThreadOf(GetOrCreate(s, allocResult)) == ThreadOf(s)
    ensures ThreadOf(s).None? && s.hasAllocCallback ==>
              ThreadOf(GetOrCreate(s, allocResult)) == (if allocResult.Some? then Some(allocResult.value.thread) else None)
    ensures ThreadOf(s).None? && !s.hasAllocCallback ==> ThreadOf(GetOrCreate(s, allocResult)).None?
  {
  }

  /** A repeated exit notification changes nothing and frees nothing. */
  lemma ExitedIdempotent(s: State)
    ensures Exited(Exited(s)) == Exited(s)
  {
  }

  /** After `fini`, `get_or_create` never allocates and an exit notification is a no-op. */
  lemma AfterFiniInert(s: State, allocResult: Option<Holder>)
    ensures GetOrCreate(Fini(s), allocResult) == Fini(s)
    ensures Exited(Fini(s)) == Fini(s)
    ensures ThreadOf(GetOrCreate(Fini(s), allocResult)) == ThreadOf(s)
  {
  }

  /** A second `fini` closes nothing more. */
  lemma FiniIdempotent(s: State)
    ensures Fini(Fini(s)) == Fini(s)
  {
  }
}
