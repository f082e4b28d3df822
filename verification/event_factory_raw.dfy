/**
 * The PyTeal event registry: a global "EventCount" and one box per
 * registration, keyed by the bare 8-byte index and holding the application
 * id (8 bytes) followed by the name's bytes, with no length prefix.
 */
module EventFactoryRaw {
  import opened Wrappers
  import opened Bytes
  import opened Avm

  /** The box value of a registration. */
  function EntryValue(appId: u64, name: seq<byte>): (v: seq<byte>)
    ensures |v| == 8 + |name| && v[..8] == Itob(appId) && v[8..] == name
  {
    Itob(appId) + name
  }

  /** Splitting a box value back into id and name: the first 8 bytes and the rest. */
  function DecodeEntry(v: seq<byte>): (r: (u64, seq<byte>))
    requires |v| >= 8
    ensures Itob(r.0) == v[..8] && r.1 == v[8..]
  {
    ItobOnto(v[..8]);
    (FromBE(v[..8]), v[8..])
  }

  /** Decoding a stored value gives back exactly what was registered. */
  lemma DecodeEntryValue(appId: u64, name: seq<byte>)
    ensures DecodeEntry(EntryValue(appId, name)) == (appId, name)
  {
    var r := DecodeEntry(EntryValue(appId, name));
    ItobInjective(r.0, appId);
  }

  class EventFactory {
    /** "EventCount", 0 while never written. */
    var eventCount: u64
    var boxes: map<seq<byte>, seq<byte>>

    /** The boxes are exactly the keys Itob(0)..Itob(EventCount-1), each holding at least the 8-byte id. */
    ghost predicate Valid()
      reads this
    {
      && (forall i: u64 :: Itob(i) in boxes <==> i < eventCount)
      && (forall k :: k in boxes ==> |k| == 8 && |boxes[k]| >= 8)
    }

    constructor ()
      ensures Valid()
      ensures eventCount == 0 && boxes == map[]
    {
      eventCount := 0;
      boxes := map[];
    }

    /** `register_event`: stores id and name under the current count, then increments the count. */
    method RegisterEvent(appId: u64, name: seq<byte>) returns (r: Result<(), Abort>)
      requires Valid()
      modifies this
      ensures Valid()
      ensures r.Ok? <==> old(eventCount) + 1 < U64_LIMIT
      ensures r.Err? ==> unchanged(this)
      ensures r.Ok? ==>
        && eventCount == old(eventCount) + 1
        && Itob(old(eventCount)) !in old(boxes)
        && boxes == old(boxes)[Itob(old(eventCount)) := EntryValue(appId, name)]
    {
      var count := eventCount;
      var key := Itob(count);
      var put := BoxPut(boxes, key, EntryValue(appId, name));
      if put.None? {
        assert false;
        return Err(BoxSizeMismatch);
      }
      if count + 1 >= U64_LIMIT { return Err(Overflow); }
      forall k | k in put.value
        ensures |k| == 8 && |put.value[k]| >= 8
      {
      }
      forall i: u64
        ensures Itob(i) in put.value <==> i < count + 1
      {
        if Itob(i) == key { ItobInjective(i, count); }
      }
      boxes := put.value;
      eventCount := count + 1;
      return Ok(());
    }
  }

  /** Every box of a valid registry decodes: its key to an index below the count, its value to an id and a name. */
  lemma BoxesDecode(f: EventFactory, k: seq<byte>)
    requires f.Valid() && k in f.boxes
    ensures FromBE(k) < f.eventCount && Itob(FromBE(k)) == k
    ensures var e := DecodeEntry(f.boxes[k]); f.boxes[k] == EntryValue(e.0, e.1)
  {
    ItobOnto(k);
  }
}
