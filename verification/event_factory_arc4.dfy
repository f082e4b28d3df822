/**
 * The Algorand Python event registry: a global `event_count` and a box map
 * `events` from index to (application id, name). Registration appends at
 * index `event_count`.
 */
module EventFactoryArc4 {
  import opened Wrappers
  import opened Bytes
  import opened Avm

  /** An ABI `string` value: at most 65535 bytes, since its length is stored in two bytes. */
  type Arc4String = s: seq<byte> | |s| < 0x1_0000

  datatype EventEntry = EventEntry(appId: u64, name: Arc4String)

  /** The ASCII bytes of "events", the box map's key prefix (the attribute's name). */
  function EventsPrefix(): (p: seq<byte>)
    ensures |p| == 6
  {
    [0x65, 0x76, 0x65, 0x6E, 0x74, 0x73]
  }

  /** The box holding entry `index`. */
  function BoxKey(index: u64): (k: seq<byte>)
    ensures |k| == 14 && k[..6] == EventsPrefix() && k[6..] == Itob(index)
  {
    EventsPrefix() + Itob(index)
  }

  lemma BoxKeyInjective(a: u64, b: u64)
    requires BoxKey(a) == BoxKey(b)
    ensures a == b
  {
    assert BoxKey(a)[6..] == BoxKey(b)[6..];
    ItobInjective(a, b);
  }

  /**
   * The ARC-4 encoding of an entry as the box stores it: the static head
   * (app id, then the 2-byte offset 10 of the dynamic tail), then the name
   * with its 2-byte length.
   */
  function EncodeEntry(e: EventEntry): (bs: seq<byte>)
    ensures |bs| == 12 + |e.name|
    ensures bs[..8] == Itob(e.appId) && bs[8..10] == Be16(10)
    ensures bs[10..12] == Be16(|e.name|) && bs[12..] == e.name
    ensures FromBE(bs[8..10]) == 10 && FromBE(bs[10..12]) == |e.name|
  {
    var id, offset, len := Itob(e.appId), Be16(10), Be16(|e.name|);
    var bs := id + offset + len + e.name;
    assert bs[..8] == id && bs[8..10] == offset && bs[10..12] == len && bs[12..] == e.name;
    bs
  }

  class EventFactory {
    var eventCount: u64
    var events: map<u64, EventEntry>

    /** The entries present are exactly those at indices 0..event_count-1. */
    ghost predicate Valid()
      reads this
    {
      forall i: u64 :: i in events <==> i < eventCount
    }

    constructor ()
      ensures Valid()
      ensures eventCount == 0 && events == map[]
    {
      eventCount := 0;
      events := map[];
    }

    /**
     * `register_event`: stores the entry at the current count and returns
     * that index; no check on the caller or on duplicates.
     */
    method RegisterEvent(appId: u64, name: Arc4String) returns (r: Result<u64, Abort>)
      requires Valid()
      modifies this
      ensures Valid()
      ensures r.Ok? <==> old(eventCount) + 1 < U64_LIMIT
      ensures r.Err? ==> r.error == Overflow && unchanged(this)
      ensures r.Ok? ==>
        && r.value == old(eventCount)
        && eventCount == old(eventCount) + 1
        && events == old(events)[r.value := EventEntry(appId, name)]
        && r.value !in old(events)
    {
      var index := eventCount;
      if index + 1 >= U64_LIMIT { return Err(Overflow); }
      events := events[index := EventEntry(appId, name)];
      eventCount := index + 1;
      return Ok(index);
    }

    /** `get_event_count` (read-only). */
    method GetEventCount() returns (n: u64)
      ensures n == eventCount
    {
      n := eventCount;
    }

    /** `get_event` (read-only): reading an index with no box is rejected. */
    method GetEvent(index: u64) returns (r: Result<EventEntry, Abort>)
      requires Valid()
      ensures r.Ok? <==> index < eventCount
      ensures r.Ok? ==> r.value == events[index]
    {
      if index !in events { return Err(NoSuchBox); }
      return Ok(events[index]);
    }
  }
}
