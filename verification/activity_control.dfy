/**
 * `EventActivityIdControl`: a closed switch over control codes that reads
 * and writes the calling thread's 16-byte activity id and a 16-byte buffer
 * owned by the caller. The thread is the one the non-creating read of the
 * thread registry finds; the freshly created id (from the random source)
 * is a parameter.
 */
module ActivityControl {
  import opened Wrappers
  import opened EpTypes
  import ThreadRegistry

  /** The control codes as the C enum declares them, 1 to 5. */
  datatype ControlCode = GetId | SetId | CreateId | GetSetId | CreateSetId

  function CodeValue(c: ControlCode): uint32
  {
    match c
    case GetId => 1
    case SetId => 2
    case CreateId => 3
    case GetSetId => 4
    case CreateSetId => 5
  }

  /** The cast of the caller's `uint32` to the enum: only 1 to 5 name a declared code. */
  function DecodeControlCode(code: uint32): (c: Option<ControlCode>)
    ensures c.Some? <==> 1 <= code <= 5
    ensures c.Some? ==> CodeValue(c.value) == code
  {
    if code == 1 then Some(GetId)
    else if code == 2 then Some(SetId)
    else if code == 3 then Some(CreateId)
    else if code == 4 then Some(GetSetId)
    else if code == 5 then Some(CreateSetId)
    else None
  }

  lemma DecodeCodeValue(c: ControlCode)
    ensures DecodeControlCode(CodeValue(c)) == Some(c)
  {
  }

  /**
   * What one call does: the status it returns, the caller's buffer after
   * the call and the thread's activity id after the call (None when the
   * thread has no context).
   */
  datatype Outcome = Outcome(status: int32, caller: ActivityId, thread: Option<ActivityId>)

  /**
   * The effect of a call with `code` when the thread's id is `thread` (None
   * if the thread has no context), the caller's buffer holds `caller`, and
   * the random source would yield `created`.
   */
  function Control(code: uint32, thread: Option<ActivityId>, caller: ActivityId, created: ActivityId): (o: Outcome)
    ensures o.status == 0 <==> thread.Some? && 1 <= code <= 4
    ensures o.status == 0 || o.status == 1
    ensures o.status == 1 ==> o.caller == caller && o.thread == thread
    ensures o.thread.Some? <==> thread.Some?
  {
    if thread.None? then
      Outcome(1, caller, thread)
    else
      match DecodeControlCode(code)
      case Some(GetId) => Outcome(0, thread.value, thread)
      case Some(SetId) => Outcome(0, caller, Some(caller))
      case Some(CreateId) => Outcome(0, created, thread)
      case Some(GetSetId) => Outcome(0, thread.value, Some(created))
      case _ => Outcome(1, caller, thread)
  }

  /** Without a thread context every code fails and nothing changes, CREATE_ID included. */
  lemma NoContextFails(code: uint32, caller: ActivityId, created: ActivityId)
    ensures Control(code, None, caller, created) == Outcome(1, caller, None)
  {
  }

  /** The declared CREATE_SET_ID is not handled: it fails and changes nothing. */
  lemma CreateSetIdFails(thread: Option<ActivityId>, caller: ActivityId, created: ActivityId)
    ensures Control(CodeValue(CreateSetId), thread, caller, created) == Outcome(1, caller, thread)
  {
  }

  /** GET_ID copies the thread's id out and leaves it in place. */
  lemma GetIdCopiesOut(id: ActivityId, caller: ActivityId, created: ActivityId)
    ensures Control(CodeValue(GetId), Some(id), caller, created) == Outcome(0, id, Some(id))
  {
  }

  /** SET_ID followed by GET_ID on the same thread yields the value set. */
  lemma SetThenGet(id: ActivityId, x: ActivityId, buffer: ActivityId, created1: ActivityId, created2: ActivityId)
    ensures var afterSet := Control(CodeValue(SetId), Some(id), x, created1);
            var afterGet := Control(CodeValue(GetId), afterSet.thread, buffer, created2);
            afterSet.status == 0 && afterGet.status == 0 && afterGet.caller == x && afterGet.thread == Some(x)
  {
  }

  /** GET_SET_ID hands the previous id to the caller and installs the freshly created one. */
  lemma GetSetIdSwaps(id: ActivityId, caller: ActivityId, created: ActivityId)
    ensures Control(CodeValue(GetSetId), Some(id), caller, created) == Outcome(0, id, Some(created))
  {
  }

  /** CREATE_ID gives the caller a fresh id and leaves the thread's id unchanged. */
  lemma CreateIdLeavesThread(id: ActivityId, caller: ActivityId, created: ActivityId)
    ensures Control(CodeValue(CreateId), Some(id), caller, created) == Outcome(0, created, Some(id))
  {
  }

  /** The thread's current id, if the registry's slot holds a thread. */
  function ThreadActivityId(t: Option<EventPipeThread>): Option<ActivityId>
    reads if t.Some? then {t.value} else {}
  {
    if t.Some? then Some(t.value.activityId) else None
  }

  /** The objects a call may write besides the caller's buffer: the current thread's record. */
  function ThreadFrame(rt: ThreadRegistry.EventPipeRuntime): set<object>
    reads rt
  {
    var t := rt.ThreadGet();
    if t.Some? then {t.value} else {}
  }

  /** CREATE_ID and GET_SET_ID are the codes that draw bytes from the random source. */
  predicate CreatesId(code: uint32)
  {
    code == CodeValue(CreateId) || code == CodeValue(GetSetId)
  }

  /**
   * `EventActivityIdControl`: `activityId` is the caller's 16-byte buffer,
   * `created` the id the random source yields if one is created. The random
   * source asserts that its provider is set, so a call that creates an id
   * for a thread with a context needs the glue to hold a random provider
   * (after `fini` the provider is gone while the slot may still hold a
   * thread).
   */
  method EventActivityIdControl(rt: ThreadRegistry.EventPipeRuntime, controlCode: uint32,
                                activityId: array<bv8>, created: ActivityId)
    returns (result: int32)
    requires activityId.Length == ActivityIdSize
    requires CreatesId(controlCode) && rt.ThreadGet().Some? ==> rt.hasRandProvider
    modifies activityId, ThreadFrame(rt)
    ensures var o := Control(controlCode, old(ThreadActivityId(rt.ThreadGet())), old(activityId[..]), created);
            && result == o.status
            && activityId[..] == o.caller
            && ThreadActivityId(rt.ThreadGet()) == o.thread
  {
    var thread := rt.ThreadGet();
    if thread.None? {
      return 1;
    }
    var t := thread.value;
    result := 0;
    match DecodeControlCode(controlCode)
    case Some(GetId) =>
      CopyActivityId(t.activityId, activityId);
    case Some(SetId) =>
      t.activityId := activityId[..];
    case Some(CreateId) =>
      CopyActivityId(created, activityId);
    case Some(GetSetId) =>
      CopyActivityId(t.activityId, activityId);
      var current := created;
      t.activityId := current;
    case _ =>
      result := 1;
  }

  /** Copies a 16-byte id into a caller's buffer. */
  method CopyActivityId(id: ActivityId, buffer: array<bv8>)
    requires buffer.Length == ActivityIdSize
    modifies buffer
    ensures buffer[..] == id
  {
    forall i | 0 <= i < ActivityIdSize {
      buffer[i] := id[i];
    }
  }
}
