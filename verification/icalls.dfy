/**
 * The internal calls of `System.Diagnostics.Tracing.EventPipeInternal` that
 * forward to the EventPipe engine. The engine is an abstract collaborator:
 * whatever it answers (a session id, the next event instance, a session
 * lookup, a provider handle) is a parameter, and every call the glue makes
 * into it is returned as an `EngineCall`, so that "the engine is not
 * consulted" can be stated. Pointers that may be NULL are `Option`s;
 * provider, event and session handles are their integer values, 0 for NULL.
 */
module Icalls {
  import opened Wrappers
  import opened EpTypes

  /** EP_SERIALIZATION_FORMAT_COUNT: the number of serialization formats (NetPerf v3 and NetTrace v4). */
  const SerializationFormatCount: int32 := 2

  datatype SessionType = FileSession | ListenerSession

  /** One entry of the caller's provider array (EventPipeProviderConfigurationNative). */
  datatype ProviderConfiguration = ProviderConfiguration(
    providerName: Option<string>,
    keywords: uint64,
    loggingLevel: uint32,
    filterData: Option<string>)

  /** A call from the glue into the engine. */
  datatype EngineCall =
    | CreateProviderCall(name: string, callback: uint64)
    | AddEventCall(provider: uint64, eventId: uint32, keywords: uint64, version: uint32,
                   level: uint32, needStack: bool, metadata: seq<bv8>)
    | DeleteProviderCall(provider: uint64)
    | EnableCall(outputPath: Option<string>, bufferSizeMb: uint32, providers: seq<ProviderConfiguration>,
                 providersLen: uint32, sessionType: SessionType, format: int32)
    | StartStreamingCall(session: uint64)
    | GetNextEventCall(session: uint64)
    | GetProviderCall(name: string)
    | GetSessionCall(session: uint64)
    | PerfFrequencyQueryCall

  /** What an icall returns, with the engine calls it made in order. */
  datatype Icall<T> = Icall(result: T, engineCalls: seq<EngineCall>)

  /** The error an icall raises in the managed caller. */
  datatype ManagedError = ArgumentNull(paramName: string)

  // ---------------------------------------------------------------- providers

  /**
   * `CreateProvider`: a NULL name raises ArgumentNull for "providerName"
   * without consulting the engine; otherwise the engine's provider (which
   * may itself be NULL) is returned.
   */
  function CreateProvider(providerName: Option<string>, callback: uint64, engineProvider: uint64)
    : (r: Icall<Result<uint64, ManagedError>>)
    ensures r.result.Failure? <==> providerName.None?
    ensures providerName.None? ==> r.result == Failure(ArgumentNull("providerName")) && r.engineCalls == []
    ensures providerName.Some? ==>
              r.result == Success(engineProvider) && r.engineCalls == [CreateProviderCall(providerName.value, callback)]
  {
    if providerName.None? then
      Icall(Failure(ArgumentNull("providerName")), [])
    else
      Icall(Success(engineProvider), [CreateProviderCall(providerName.value, callback)])
  }

  /** The two's-complement reinterpretation of an `int64` as a `uint64`. */
  function Int64AsUint64(k: int64): (u: uint64)
    ensures u == k % 0x1_0000_0000_0000_0000
    ensures k >= 0 ==> u == k
  {
    if k < 0 then k + 0x1_0000_0000_0000_0000 else k
  }

  /**
   * `DefineEvent`: the caller guarantees a non-NULL provider, the engine
   * guarantees a non-NULL event; the event is always defined with a call
   * stack and the keywords reinterpreted as unsigned.
   */
  function DefineEvent(providerHandle: uint64, eventId: uint32, keywords: int64, eventVersion: uint32,
                       level: uint32, metadata: seq<bv8>, engineEvent: uint64): (r: Icall<uint64>)
    requires providerHandle != 0
    requires engineEvent != 0
    ensures r.result == engineEvent && r.result != 0
    ensures |r.engineCalls| == 1 && r.engineCalls[0].AddEventCall?
    ensures r.engineCalls[0].provider == providerHandle && r.engineCalls[0].eventId == eventId
    ensures r.engineCalls[0].needStack && r.engineCalls[0].metadata == metadata
    ensures r.engineCalls[0].version == eventVersion && r.engineCalls[0].level == level
    ensures r.engineCalls[0].keywords % 0x1_0000_0000_0000_0000 == keywords % 0x1_0000_0000_0000_0000
  {
    Icall(engineEvent,
          [AddEventCall(providerHandle, eventId, Int64AsUint64(keywords), eventVersion, level, true, metadata)])
  }

  /** `DeleteProvider`: a NULL handle is a no-op that does not reach the engine. */
  function DeleteProvider(providerHandle: uint64): (r: Icall<()>)
    ensures r.engineCalls == [] <==> providerHandle == 0
    ensures providerHandle != 0 ==> r.engineCalls == [DeleteProviderCall(providerHandle)]
  {
    if providerHandle != 0 then Icall((), [DeleteProviderCall(providerHandle)]) else Icall((), [])
  }

  /** `GetProvider`: a NULL name yields NULL without a lookup; otherwise the engine's answer. */
  function GetProvider(providerName: Option<string>, engineProvider: uint64): (r: Icall<uint64>)
    ensures providerName.None? ==> r.result == 0 && r.engineCalls == []
    ensures providerName.Some? ==>
              r.result == engineProvider && r.engineCalls == [GetProviderCall(providerName.value)]
  {
    if providerName.Some? then
      Icall(engineProvider, [GetProviderCall(providerName.value)])
    else
      Icall(0, [])
  }

  // ---------------------------------------------------------------- sessions

  /**
   * The argument guard of `Enable`. `format` is a signed 32-bit value and is
   * compared with `>`: the count itself and every negative value pass.
   */
  predicate EnableArgumentsRejected(format: int32, bufferSizeMb: uint32,
                                    providers: Option<seq<ProviderConfiguration>>, providersLen: uint32)
  {
    bufferSizeMb == 0 || format > SerializationFormatCount || providersLen == 0 || providers.None?
  }

  /** The session type: a file session exactly when an output path is given. */
  function SessionTypeFor(outputFile: Option<string>): (t: SessionType)
    ensures t == FileSession <==> outputFile.Some?
    ensures t == ListenerSession <==> outputFile.None?
  {
    if outputFile.Some? then FileSession else ListenerSession
  }

  /**
   * `Enable`: rejected arguments return 0 without consulting the engine;
   * otherwise the engine is asked to enable a session and to start
   * streaming it (even when it answered 0), and its session id is returned.
   */
  function Enable(outputFile: Option<string>, format: int32, bufferSizeMb: uint32,
                  providers: Option<seq<ProviderConfiguration>>, providersLen: uint32,
                  engineSessionId: uint64): (r: Icall<uint64>)
    ensures EnableArgumentsRejected(format, bufferSizeMb, providers, providersLen) ==>
              r.result == 0 && r.engineCalls == []
    ensures !EnableArgumentsRejected(format, bufferSizeMb, providers, providersLen) ==>
              && r.result == engineSessionId
              && |r.engineCalls| == 2
              && r.engineCalls[0].EnableCall?
              && r.engineCalls[0].sessionType == SessionTypeFor(outputFile)
              && r.engineCalls[0].outputPath == outputFile
              && r.engineCalls[0].bufferSizeMb == bufferSizeMb > 0
              && r.engineCalls[0].format == format
              && r.engineCalls[0].providers == providers.value
              && r.engineCalls[0].providersLen == providersLen > 0
              && r.engineCalls[1] == StartStreamingCall(engineSessionId)
  {
    if EnableArgumentsRejected(format, bufferSizeMb, providers, providersLen) then
      Icall(0, [])
    else
      var sessionType := SessionTypeFor(outputFile);
      Icall(engineSessionId,
            [EnableCall(outputFile, bufferSizeMb, providers.value, providersLen, sessionType, format),
             StartStreamingCall(engineSessionId)])
  }

  /** A zero buffer budget is always rejected before the engine is reached. */
  lemma EnableRejectsZeroBuffer(outputFile: Option<string>, format: int32,
                                providers: Option<seq<ProviderConfiguration>>, providersLen: uint32,
                                engineSessionId: uint64)
    ensures Enable(outputFile, format, 0, providers, providersLen, engineSessionId) == Icall(0, [])
  {
  }

  /** The guard lets `format == EP_SERIALIZATION_FORMAT_COUNT` (and any negative format) through to the engine. */
  lemma EnableAcceptsFormatCountAndNegative(outputFile: Option<string>, format: int32, bufferSizeMb: uint32,
                                            providers: seq<ProviderConfiguration>, providersLen: uint32,
                                            engineSessionId: uint64)
    requires format == SerializationFormatCount || format < 0
    requires bufferSizeMb > 0 && providersLen > 0
    ensures Enable(outputFile, format, bufferSizeMb, Some(providers), providersLen, engineSessionId).result
              == engineSessionId
    ensures |Enable(outputFile, format, bufferSizeMb, Some(providers), providersLen, engineSessionId).engineCalls| == 2
  {
  }

  /** The session info record the caller passes by pointer (EventPipeSessionInfo). */
  class SessionInfo {
    var startTimeAsUtcFiletime: int64
    var startTimestamp: int64
    var timestampFrequency: int64

    constructor ()
      ensures startTimeAsUtcFiletime == 0 && startTimestamp == 0 && timestampFrequency == 0
    {
      startTimeAsUtcFiletime, startTimestamp, timestampFrequency := 0, 0, 0;
    }
  }

  /** What the engine knows about a live session. */
  datatype SessionData = SessionData(startTime: int64, startTimestamp: int64)

  /**
   * `GetSessionInfo`: with a NULL record nothing is looked up; otherwise
   * the engine is asked for the session (`lookup` is its answer) and, if it
   * exists, the record is filled in with its start time, start timestamp
   * and the engine's timestamp frequency.
   */
  method GetSessionInfo(sessionId: uint64, sessionInfo: SessionInfo?,
                        lookup: Option<SessionData>, frequency: int64)
    returns (found: bool, engineCalls: seq<EngineCall>)
    modifies sessionInfo
    ensures found <==> sessionInfo != null && lookup.Some?
    ensures sessionInfo == null ==> engineCalls == []
    ensures sessionInfo != null && lookup.None? ==>
              engineCalls == [GetSessionCall(sessionId)] && unchanged(sessionInfo)
    ensures found ==>
              && engineCalls == [GetSessionCall(sessionId), PerfFrequencyQueryCall]
              && sessionInfo.startTimeAsUtcFiletime == lookup.value.startTime
              && sessionInfo.startTimestamp == lookup.value.startTimestamp
              && sessionInfo.timestampFrequency == frequency
  {
    found := false;
    engineCalls := [];
    if sessionInfo != null {
      engineCalls := [GetSessionCall(sessionId)];
      if lookup.Some? {
        sessionInfo.startTimeAsUtcFiletime := lookup.value.startTime;
        sessionInfo.startTimestamp := lookup.value.startTimestamp;
        engineCalls := engineCalls + [PerfFrequencyQueryCall];
        sessionInfo.timestampFrequency := frequency;
        found := true;
      }
    }
  }

  // ---------------------------------------------------------------- events

  /** The event definition an instance refers to: its provider handle and event id. */
  datatype EventDefinition = EventDefinition(provider: uint64, eventId: uint32)

  /** An event instance as the engine hands it out; `event` may be missing. */
  datatype EventInstance = EventInstance(
    event: Option<EventDefinition>,
    threadId: uint32,
    timestamp: int64,
    activityId: ActivityId,
    relatedActivityId: ActivityId,
    payload: uint64,
    payloadLen: uint32)

  /** The instance record the caller passes by pointer (EventPipeEventInstanceData). */
  class EventInstanceData {
    var providerId: uint64
    var eventId: uint32
    var threadId: uint32
    var timestamp: int64
    var activityId: ActivityId
    var relatedActivityId: ActivityId
    var payload: uint64
    var payloadLen: uint32

    constructor ()
      ensures providerId == 0 && eventId == 0 && threadId == 0 && timestamp == 0
      ensures payload == 0 && payloadLen == 0
    {
      providerId, eventId, threadId, timestamp := 0, 0, 0, 0;
      activityId, relatedActivityId := seq(ActivityIdSize, _ => 0 as bv8), seq(ActivityIdSize, _ => 0 as bv8);
      payload, payloadLen := 0, 0;
    }
  }

  /**
   * `GetNextEvent`: the engine is always asked for the session's next
   * instance (`next` is its answer). Only if there is one is the record
   * written, and its provider and event id only if the instance has an
   * event. The record pointer is never NULL (the source asserts it).
   */
  method GetNextEvent(sessionId: uint64, instance: EventInstanceData, next: Option<EventInstance>)
    returns (found: bool, engineCalls: seq<EngineCall>)
    modifies instance
    ensures found <==> next.Some?
    ensures engineCalls == [GetNextEventCall(sessionId)]
    ensures next.None? ==> unchanged(instance)
    ensures next.Some? ==>
              && instance.threadId == next.value.threadId
              && instance.timestamp == next.value.timestamp
              && instance.activityId == next.value.activityId
              && instance.relatedActivityId == next.value.relatedActivityId
              && instance.payload == next.value.payload
              && instance.payloadLen == next.value.payloadLen
    ensures next.Some? && next.value.event.Some? ==>
              instance.providerId == next.value.event.value.provider
              && instance.eventId == next.value.event.value.eventId
    ensures next.Some? && next.value.event.None? ==>
              instance.providerId == old(instance.providerId) && instance.eventId == old(instance.eventId)
  {
    engineCalls := [GetNextEventCall(sessionId)];
    if next.Some? {
      var ev := next.value;
      if ev.event.Some? {
        instance.providerId := ev.event.value.provider;
        instance.eventId := ev.event.value.eventId;
      }
      instance.threadId := ev.threadId;
      instance.timestamp := ev.timestamp;
      instance.activityId := ev.activityId;
      instance.relatedActivityId := ev.relatedActivityId;
      instance.payload := ev.payload;
      instance.payloadLen := ev.payloadLen;
    }
    found := next.Some?;
  }
}
