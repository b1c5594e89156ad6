# Mono EventPipe glue, modelled in Dafny

This project models the Mono side of the EventPipe tracing bridge,
`src/mono/mono/metadata/icall-eventpipe.c` (the build with
`ENABLE_PERFTRACING`). That file owns three things. The EventPipe engine it
calls (`ep_*`) is an abstract collaborator here.

1. **The per-thread holder lifecycle.** A process-wide `initialized` flag,
   the registered thread-holder alloc/free callbacks, a random provider, and
   the current thread's TLS slot holding an optional thread holder. They are
   changed by `mono_eventpipe_init`, `mono_eventpipe_fini` and the engine
   callbacks `eventpipe_thread_get`, `eventpipe_thread_get_or_create` and
   `eventpipe_thread_exited`.
   - `lifecycle.dfy` (module `Lifecycle`) is the state machine on values.
     Its state includes a log of the alloc/free/random-source calls made.
   - `thread_registry.dfy` (class `ThreadRegistry.EventPipeRuntime`) holds
     the globals as fields. Each method is proved against the `Lifecycle`
     function for its operation and keeps `Lifecycle.Inv`.
   - For every sequence of init, fini, get-or-create and exit
     notifications, the model proves three things. No holder is freed more
     often than it was allocated. The holder in the slot is live. The random
     source is closed at most once per open.
2. **The activity-id control** (`EventActivityIdControl`,
   `activity_control.dfy`). A closed switch over control codes. It reads
   and writes the thread's 16-byte activity id and the caller's 16-byte
   buffer (an `array<bv8>`). The thread is the one found by the registry's
   non-creating read; the engine routes `ep_thread_get` to
   `eventpipe_thread_get`. The freshly created id is a parameter.
3. **Argument gating in the icalls** (`icalls.dfy`). These are the
   pre-checks in `CreateProvider`, `DefineEvent`, `DeleteProvider`,
   `GetProvider`, `Enable`, `GetSessionInfo` and `GetNextEvent`, which
   decide whether the engine is consulted at all. The engine's answers are
   parameters. Every call the glue makes into the engine is returned as an
   `EngineCall`. `GetSessionInfo` and `GetNextEvent` write caller-owned
   out-records, modelled as classes whose fields are written conditionally.

Integer widths follow the C types: `uint32`, `int32`, `uint64` and `int64`
are subset types of `int`. The one exception is `intptr_t`. Provider and
event handles and the instance record's provider id are `intptr_t` in C,
which is signed and platform-width. Here they are modelled as `uint64`
addresses, 0 standing for NULL. No behaviour depends on their sign. The
`(uint64_t)` cast of the signed event keywords is written out as a
two's-complement reinterpretation.

Behaviour of the code worth noting, where the names of its control codes
and its enum might suggest otherwise:

- With no thread context, every control code fails, CREATE_ID included
  (`icall-eventpipe.c:257-258`). CREATE_ID does not work without a
  thread context, although it never reads the thread.
- `Enable` compares the signed `int32` format with
  `format > EP_SERIALIZATION_FORMAT_COUNT` (`:228`). So the count itself and
  every negative format pass the guard; they are not rejected as
  unrecognised.
- `Enable` returns whatever session id the engine gives. It calls
  `ep_start_streaming` even when that id is 0 (`:233-246`).
- The declared `EP_ACTIVITY_CONTROL_CREATE_SET_ID = 5` falls into the
  failure arm (`:277-279`).

## Model

| member | source | states |
|---|---|---|
| `Lifecycle.Init` | src/mono/mono/metadata/icall-eventpipe.c:136-144 | init registers both callbacks as given (either may be NULL). It takes a fresh TLS key, so the slot reads empty. It opens the random source, logging one open, and sets `initialized`. |
| `Lifecycle.Fini` | src/mono/mono/metadata/icall-eventpipe.c:153-159 | fini clears the flag, both callbacks and the random provider. It logs a close of the random source exactly when it was initialized. It leaves the slot as it was. |
| `Lifecycle.GetOrCreate` | src/mono/mono/metadata/icall-eventpipe.c:87-92 | The allocator is called, and its result stored in the slot, only when the slot is empty and an allocator is registered. Otherwise the state, log included, is unchanged. The flag and callbacks never change. |
| `Lifecycle.Exited` | src/mono/mono/metadata/icall-eventpipe.c:99-104 | When not initialized, nothing changes. When initialized, the slot is left empty. A `Free` of the slot's holder is logged exactly when a holder and a free callback are both present. |
| `Lifecycle.StepPreservesInv` | src/mono/mono/metadata/icall-eventpipe.c:87-104 | Each lifecycle operation preserves the ownership invariant: frees bounded by allocations, the slot's holder live, closes bounded by opens. |
| `Lifecycle.RunPreservesInv` | src/mono/mono/metadata/icall-eventpipe.c:87-104 | Any sequence of init/fini/get-or-create/exit operations preserves the ownership invariant (by induction on the sequence). |
| `Lifecycle.HolderFreedAtMostOncePerAlloc` | src/mono/mono/metadata/icall-eventpipe.c:99-104 | From process start, in any order of operations and with repeated exit notifications, no holder is freed more often than the allocator returned it. |
| `Lifecycle.SlotHolderIsLive` | src/mono/mono/metadata/icall-eventpipe.c:87-104 | After any run, the holder in the slot has been allocated more often than freed. A thread read through the slot never belongs to a freed holder. |
| `Lifecycle.RandClosedAtMostOncePerOpen` | src/mono/mono/metadata/icall-eventpipe.c:141-154 | After any run, the random source has been closed no more often than it was opened. |
| `Lifecycle.GetOrCreateStable` | src/mono/mono/metadata/icall-eventpipe.c:87-92 | Once get-or-create has produced a thread, a second call changes nothing, allocates nothing and returns the same thread. |
| `Lifecycle.GetOrCreateAgreesWithGet` | src/mono/mono/metadata/icall-eventpipe.c:79-92 | get-or-create returns what the non-creating read already sees when the slot is filled. With an empty slot it returns the allocator's holder's thread, or none when no allocator is registered. |
| `Lifecycle.ExitedIdempotent` | src/mono/mono/metadata/icall-eventpipe.c:99-104 | A second exit notification changes nothing and frees nothing. |
| `Lifecycle.AfterFiniInert` | src/mono/mono/metadata/icall-eventpipe.c:153-159 | After fini, get-or-create never allocates and an exit notification is a no-op. |
| `Lifecycle.FiniIdempotent` | src/mono/mono/metadata/icall-eventpipe.c:153-159 | A second fini changes nothing; in particular it does not close the random source again. |
| `ThreadRegistry.EventPipeRuntime.constructor` | src/mono/mono/metadata/icall-eventpipe.c:57-62 | At process start the flag, both callbacks, the provider and the slot are all empty, and the invariant holds. |
| `ThreadRegistry.EventPipeRuntime.Init` | src/mono/mono/metadata/icall-eventpipe.c:114-148 | Updates the globals in place exactly as `Lifecycle.Init` and keeps the invariant. |
| `ThreadRegistry.EventPipeRuntime.Fini` | src/mono/mono/metadata/icall-eventpipe.c:150-160 | Updates the globals in place exactly as `Lifecycle.Fini` and keeps the invariant. |
| `ThreadRegistry.EventPipeRuntime.ThreadGet` | src/mono/mono/metadata/icall-eventpipe.c:75-81 | The non-creating read returns no thread exactly when the slot is empty. It reads only the runtime and writes nothing. |
| `ThreadRegistry.EventPipeRuntime.ThreadGetOrCreate` | src/mono/mono/metadata/icall-eventpipe.c:83-93 | Updates the slot and log exactly as `Lifecycle.GetOrCreate` and keeps the invariant. It returns the thread that the slot then holds. |
| `ThreadRegistry.EventPipeRuntime.ThreadExited` | src/mono/mono/metadata/icall-eventpipe.c:95-105 | Updates the slot and log exactly as `Lifecycle.Exited` and keeps the invariant. |
| `ActivityControl.DecodeControlCode` | src/mono/mono/metadata/icall-eventpipe.c:19-25 | Only the values 1 to 5 name a declared control code, and each names the code whose value it is. |
| `ActivityControl.DecodeCodeValue` | src/mono/mono/metadata/icall-eventpipe.c:19-25 | Decoding a declared code's value gives that code back. |
| `ActivityControl.Control` | src/mono/mono/metadata/icall-eventpipe.c:254-282 | Status 0 exactly when the thread has a context and the code is 1 to 4. Otherwise status 1, with the caller's buffer and the thread's id untouched. The thread has an id afterwards exactly when it had one before. |
| `ActivityControl.NoContextFails` | src/mono/mono/metadata/icall-eventpipe.c:255-258 | With no thread context, every code returns 1 and changes nothing, CREATE_ID included. |
| `ActivityControl.CreateSetIdFails` | src/mono/mono/metadata/icall-eventpipe.c:261-280 | The declared CREATE_SET_ID (5) falls into the failure arm: it returns 1 and changes nothing. |
| `ActivityControl.GetIdCopiesOut` | src/mono/mono/metadata/icall-eventpipe.c:263-265 | GET_ID copies the thread's id to the caller and keeps it. |
| `ActivityControl.SetThenGet` | src/mono/mono/metadata/icall-eventpipe.c:263-268 | SET_ID with x followed by GET_ID on the same thread gives x to the caller. |
| `ActivityControl.GetSetIdSwaps` | src/mono/mono/metadata/icall-eventpipe.c:272-276 | GET_SET_ID writes the previous thread id to the caller and replaces the thread's id with the freshly created one. |
| `ActivityControl.CreateIdLeavesThread` | src/mono/mono/metadata/icall-eventpipe.c:269-271 | CREATE_ID writes a fresh id to the caller and leaves the thread's id unchanged. |
| `ActivityControl.EventActivityIdControl` | src/mono/mono/metadata/icall-eventpipe.c:249-283 | Requires the random provider to be held when CREATE_ID or GET_SET_ID is used on a thread with a context, since the random source asserts it. The status, the caller's 16-byte buffer and the thread's id after the call are those given by `Control` on their values before the call. Only the buffer and the current thread's record are written. |
| `Icalls.CreateProvider` | src/mono/mono/metadata/icall-eventpipe.c:162-182 | A NULL name raises ArgumentNull for "providerName" with no engine call. Otherwise it makes one create call with the name and callback and returns the engine's provider. |
| `Icalls.Int64AsUint64` | src/mono/mono/metadata/icall-eventpipe.c:197 | The `(uint64_t)` cast of the keywords is the value modulo 2^64, and the identity on non-negative values. |
| `Icalls.DefineEvent` | src/mono/mono/metadata/icall-eventpipe.c:184-201 | For a non-NULL provider, it makes one add-event call for that provider and id, with the given version and level, a call stack, the metadata, and the keywords equal modulo 2^64. It returns the engine's non-NULL event. |
| `Icalls.DeleteProvider` | src/mono/mono/metadata/icall-eventpipe.c:203-209 | The engine is called exactly when the handle is non-zero, and then with that handle. |
| `Icalls.GetProvider` | src/mono/mono/metadata/icall-eventpipe.c:311-325 | A NULL name gives 0 with no lookup. Otherwise it makes one lookup with the name and returns the engine's answer. |
| `Icalls.SessionTypeFor` | src/mono/mono/metadata/icall-eventpipe.c:238 | The session is a file session exactly when an output file is given, and a listener session exactly when none is. |
| `Icalls.Enable` | src/mono/mono/metadata/icall-eventpipe.c:217-247 | Rejected arguments give 0 with no engine call. Rejected means: zero buffer, format above the count, zero providers length, or NULL providers. Otherwise the engine is asked to enable, with the session type chosen by the output file and the arguments passed through, and then to start streaming. The engine's session id is returned. |
| `Icalls.EnableRejectsZeroBuffer` | src/mono/mono/metadata/icall-eventpipe.c:228-229 | A zero buffer budget always gives 0 without any engine call, whatever the other arguments. |
| `Icalls.EnableAcceptsFormatCountAndNegative` | src/mono/mono/metadata/icall-eventpipe.c:228 | With otherwise valid arguments, `format == EP_SERIALIZATION_FORMAT_COUNT` or a negative format passes the guard. The engine is consulted and its session id is returned. |
| `Icalls.GetSessionInfo` | src/mono/mono/metadata/icall-eventpipe.c:327-345 | It returns true exactly when the record pointer is non-NULL and the session exists. A NULL record means no lookup. An unknown session leaves the record unchanged. Otherwise the record gets the session's start time, start timestamp and the engine frequency. |
| `Icalls.GetNextEvent` | src/mono/mono/metadata/icall-eventpipe.c:285-309 | It returns true exactly when the engine yields an instance. The record is written only then. The provider and event id are written only when the instance has an event, and are otherwise left as they were. |

## Left out

- The function-table wiring in `mono_eventpipe_init` (`:121-134`) is not modelled. Neither are the profiler registration (`:146-147`) and `profiler_eventpipe_thread_exited` (`:107-112`), which only forwards to the exit callback. They are pointer plumbing with no behaviour of their own.
- The random source (`rand_try_get_bytes_func`, `:67-73`, and `mono_rand_*`) is a foreign call. A freshly created activity id is a parameter. So the model makes no claim that two created ids differ, nor that GET_ID after GET_SET_ID differs from the id just returned.
- `mono_rand_init` is taken to succeed: the provider is non-NULL after init.
- UTF-16 to UTF-8 conversion, its errors, and `g_free` (`:175`, `:180`, `:231`, `:245`, `:319`, `:323`) are not modelled. Names and output paths are already-converted strings, or `None` for NULL.
- Engine internals behind `ep_enable`, `ep_start_streaming`, `ep_create_provider`, `ep_provider_add_event`, `ep_delete_provider`, `ep_get_provider`, `ep_get_next_event` and `ep_get_session` are not modelled. The same goes for provider-name uniqueness, event-id uniqueness and the session state machine. The engine's answers are parameters, and its calls are recorded as values.
- `Icalls.Enable`: the three constant arguments passed to `ep_enable` (`:240-242`) are not recorded in the engine call.
- `ep_thread_holder_get_thread` belongs to the engine and is not part of this model. The code guards a NULL holder before calling it at `:80`, but not at `:92`. `:92` is reached with a NULL holder when no allocator is registered (before init or after fini) or when the allocator returns NULL. There the model assumes the engine's getter gives "no thread". The code itself does not rely on this, and a NULL dereference at `:92` is possible. The "no thread" results stated by `Lifecycle.GetOrCreateAgreesWithGet` and `Lifecycle.AfterFiniInert` rest on this assumption.
- `Disable` (`:211-215`) and `GetWaitHandle` (`:347-351`) are not modelled. They pass their argument to the engine and return its answer, with nothing to state.
- Time and frequency values in the session info (`ep_session_get_session_start_time`, `ep_perf_frequency_query`) are opaque engine values, copied through as parameters.
- `WriteEventData` (`:353-362`) does nothing and is not modelled. The engine-absent build (`:364-484`) is not modelled either: there every icall raises not-implemented and, for example, `EventActivityIdControl` returns 0 (`:430`).
- ActivityControl.EventActivityIdControl: CREATE_ID and GET_SET_ID draw bytes through `rand_try_get_bytes_func` (wired at `:128`), which asserts that the random provider is set (`:71`). `fini` clears the provider (`:156`) but keeps the slot, so after `fini` a thread that still has a context would fail that assertion on these two codes. The model takes the assertion as a precondition (the provider must be held when one of these codes is used on a thread with a context) and does not model the abort. The hop from `ep_thread_create_activity_id` to the table entry is engine code that is not part of this model.
- The `g_assert`s in `DefineEvent` (`:194`, `:199`) and `GetNextEvent` (`:290`) are preconditions: a non-zero provider handle, a non-NULL engine event, and a non-null record type.
- Cross-thread concurrency of TLS is not modelled. The model covers one thread's slot, sequentially.
- `EP_ACTIVITY_ID_SIZE` and `EP_SERIALIZATION_FORMAT_COUNT` come from engine headers that are not part of this model. They are taken as 16 and 2, the two formats being NetPerf v3 and NetTrace v4.
