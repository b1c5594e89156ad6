/**
 * Fixed-width integers, the 16-byte activity identifier and the engine's
 * per-thread record, shared by the thread registry, the activity-id
 * control and the icalls.
 */
module EpTypes {

  /** Size in bytes of an activity identifier (a GUID). */
  const ActivityIdSize := 16

  type uint32 = x: int | 0 <= x < 0x1_0000_0000
  type int32 = x: int | -0x8000_0000 <= x < 0x8000_0000
  type uint64 = x: int | 0 <= x < 0x1_0000_0000_0000_0000
  type int64 = x: int | -0x8000_0000_0000_0000 <= x < 0x8000_0000_0000_0000

  /** An activity identifier: always exactly 16 bytes, whatever they hold. */
  type ActivityId = s: seq<bv8> | |s| == ActivityIdSize witness seq(ActivityIdSize, _ => 0 as bv8)

  /**
   * The engine's per-thread record. The glue only reads and replaces its
   * current activity id; everything else about it belongs to the engine.
   */
  class EventPipeThread {
    var activityId: ActivityId

    constructor (id: ActivityId)
      ensures activityId == id
    {
      activityId := id;
    }
  }
}
