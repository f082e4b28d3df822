/**
 * The front end's event discovery helpers: building box keys, decoding an
 * entry box of the Algorand Python event registry, and walking the registry
 * to list every event with the sale figures of its ticket manager.
 *
 * Node queries are inputs: the registry's global state (None when the query
 * fails), the registry's boxes (a box fetch fails exactly when the key is
 * absent), and the global state of each ticket manager application (a query
 * fails exactly when the id is absent).
 */
module EventsUtil {
  import opened Wrappers
  import opened Bytes
  import opened GlobalState
  import EventFactoryArc4

  /** `new TextEncoder().encode("events")`. */
  function EventsBoxPrefix(): (p: seq<byte>)
    ensures p == EventFactoryArc4.EventsPrefix()
  {
    var p := Utf8("events");
    Utf8Ascii("events");
    p
  }

  /** `new TextEncoder().encode("tickets")`. */
  function TicketsBoxPrefix(): (p: seq<byte>)
    ensures p == [0x74, 0x69, 0x63, 0x6B, 0x65, 0x74, 0x73]
  {
    var p := Utf8("tickets");
    Utf8Ascii("tickets");
    p
  }

  /** `buildBoxKey`: a fresh buffer holding the prefix, then the key. */
  function BuildBoxKey(prefix: seq<byte>, key: seq<byte>): (r: seq<byte>)
    ensures |r| == |prefix| + |key|
    ensures r[..|prefix|] == prefix && r[|prefix|..] == key
  {
    prefix + key
  }

  /** Under one prefix, keys built from different integers differ. */
  lemma BuildBoxKeyInjective(prefix: seq<byte>, a: u64, b: u64)
    requires BuildBoxKey(prefix, Itob(a)) == BuildBoxKey(prefix, Itob(b))
    ensures a == b
  {
    assert BuildBoxKey(prefix, Itob(a))[|prefix|..] == BuildBoxKey(prefix, Itob(b))[|prefix|..];
    ItobInjective(a, b);
  }

  /** The key the front end builds for entry i is the key the registry stores it under. */
  lemma EventBoxKeyAgrees(i: u64)
    ensures BuildBoxKey(EventsBoxPrefix(), Itob(i)) == EventFactoryArc4.BoxKey(i)
  {
  }

  /** A decoded event box: the application id and the name's bytes. */
  datatype EventRef = EventRef(appId: nat, name: seq<byte>)

  /**
   * The entry-box decode of `fetchAllEvents` as written: the id from bytes
   * 0..8 (safe mode), a length from bytes 8 and 9 (a missing byte reads as 0
   * under `<<` and `|`), and the name from byte 10 on. It throws (None) when
   * the id cannot be decoded.
   */
  function ParseEventBox(v: seq<byte>): (r: Option<EventRef>)
    ensures |v| >= 8 ==> (r.Some? <==> FromBE(v[..8]) <= MAX_SAFE_INTEGER)
    ensures |v| >= 10 && r.Some? ==>
      var len := FromBE(v[8..10]);
      && r.value.appId == FromBE(v[..8])
      && r.value.name == v[10..if 10 + len <= |v| then 10 + len else |v|]
  {
    match DecodeUint64Safe(JsSlice(v, 0, 8))
    case None => None
    case Some(id) =>
      var nameLen := At(v, 8).GetOr(0) * 256 + At(v, 9).GetOr(0);
      assert |v| >= 10 ==> nameLen == FromBE(v[8..10]) by {
        if |v| >= 10 {
          assert v[8..10][..1] == [v[8]];
        }
      }
      Some(EventRef(id, JsSlice(v, 10, 10 + nameLen)))
  }

  /**
   * The decode the registry's ARC-4 layout calls for: skip the 2-byte offset
   * at 8..10, read the name's length at 10..12, the name from byte 12.
   */
  function ParseEventBoxArc4(v: seq<byte>): (r: Option<EventRef>)
    ensures r.Some? ==>
      && |v| >= 12 && 12 + FromBE(v[10..12]) <= |v|
      && r.value.appId == FromBE(v[..8])
      && r.value.name == v[12..12 + FromBE(v[10..12])]
  {
    if |v| < 12 then None
    else
      match DecodeUint64Safe(v[..8])
      case None => None
      case Some(id) =>
        var len := FromBE(v[10..12]);
        if 12 + len <= |v| then Some(EventRef(id, v[12..12 + len])) else None
  }

  /** The corrected decode inverts the registry's encoding. */
  lemma ParseEventBoxArc4Inverts(e: EventFactoryArc4.EventEntry)
    requires e.appId <= MAX_SAFE_INTEGER
    ensures ParseEventBoxArc4(EventFactoryArc4.EncodeEntry(e)) == Some(EventRef(e.appId, e.name))
  {
    var v := EventFactoryArc4.EncodeEntry(e);
    assert DecodeUint64Safe(v[..8]) == Some(e.appId);
    assert v[12..12 + |e.name|] == v[12..] == e.name;
  }

  /**
   * The decode as written reads the ARC-4 offset (always 10) as the name's
   * length, so the "name" it returns starts with the real length bytes; it
   * differs from the registered name whenever that name is not 10 bytes long.
   */
  lemma ParseEventBoxMisreadsName(e: EventFactoryArc4.EventEntry)
    requires e.appId <= MAX_SAFE_INTEGER
    ensures var r := ParseEventBox(EventFactoryArc4.EncodeEntry(e));
      && r.Some? && r.value.appId == e.appId
      && r.value.name[..2] == Be16(|e.name|)
      && |r.value.name| == (if |e.name| < 8 then |e.name| + 2 else 10)
      && (|e.name| != 10 ==> r.value.name != e.name)
  {
    var v := EventFactoryArc4.EncodeEntry(e);
    assert v[..8] == Itob(e.appId);
    assert v[8..10] == Be16(10);
    assert v[10..12] == Be16(|e.name|);
  }

  /** A concrete registration the as-written decode gets wrong: app 7 named "ab" lists as [0, 2, 'a', 'b']. */
  lemma ParseEventBoxExample()
    ensures ParseEventBox(EventFactoryArc4.EncodeEntry(EventFactoryArc4.EventEntry(7, [0x61, 0x62])))
      == Some(EventRef(7, [0, 2, 0x61, 0x62]))
  {
    var e := EventFactoryArc4.EventEntry(7, [0x61, 0x62]);
    ParseEventBoxMisreadsName(e);
    var v := EventFactoryArc4.EncodeEntry(e);
    assert |v| == 14 && FromBE(v[8..10]) == 10;
    assert v[10..12] == Be16(2) == [0, 2];
    assert v[10..] == v[10..12] + v[12..] == [0, 2, 0x61, 0x62];
    var r := ParseEventBox(v);
    assert r.Some? && r.value.appId == 7;
    assert r.value.name == v[10..14] == v[10..];
  }

  /** One listed event: the fields `fetchAllEvents` collects. `organizer` is the raw address bytes, empty when unset. */
  datatype EventInfo = EventInfo(appId: nat, name: seq<byte>, price: nat, supply: nat, sold: nat, organizer: seq<byte>)

  /** The event at registry index i, or None when any step for it throws (it is then skipped). */
  function FetchEvent(i: u64, boxes: map<seq<byte>, seq<byte>>, apps: map<nat, seq<StateEntry>>): (r: Option<EventInfo>)
    ensures r.Some? ==> BuildBoxKey(EventsBoxPrefix(), Itob(i)) in boxes
    ensures r.Some? ==> r.value.appId in apps
  {
    var key := BuildBoxKey(EventsBoxPrefix(), Itob(i));
    if key !in boxes then None
    else match ParseEventBox(boxes[key])
      case None => None
      case Some(entry) =>
        if entry.appId !in apps then None
        else
          var gs := apps[entry.appId];
          Some(EventInfo(entry.appId, entry.name,
            GetInt(gs, "Price"), GetInt(gs, "Supply"), GetInt(gs, "Sold"), GetBytes(gs, "Organizer")))
  }

  /** The events collected from indices 0..n-1, in index order, skipping those that fail. */
  function FetchUpTo(n: nat, boxes: map<seq<byte>, seq<byte>>, apps: map<nat, seq<StateEntry>>): (r: seq<EventInfo>)
    requires n <= U64_LIMIT
    ensures |r| <= n
  {
    if n == 0 then []
    else
      var prev := FetchUpTo(n - 1, boxes, apps);
      match FetchEvent(n - 1, boxes, apps)
      case Some(e) => prev + [e]
      case None => prev
  }

  /** Every collected event comes from some index below n whose fetch succeeded. */
  lemma {:induction false} FetchUpToSound(n: nat, boxes: map<seq<byte>, seq<byte>>, apps: map<nat, seq<StateEntry>>, j: nat)
    requires n <= U64_LIMIT && j < |FetchUpTo(n, boxes, apps)|
    ensures exists i: u64 :: i < n && FetchEvent(i, boxes, apps) == Some(FetchUpTo(n, boxes, apps)[j])
  {
    var prev := FetchUpTo(n - 1, boxes, apps);
    if j < |prev| {
      FetchUpToSound(n - 1, boxes, apps, j);
      var i: u64 :| i < n - 1 && FetchEvent(i, boxes, apps) == Some(prev[j]);
      assert FetchUpTo(n, boxes, apps)[j] == prev[j];
    } else {
      assert FetchEvent(n - 1, boxes, apps) == Some(FetchUpTo(n, boxes, apps)[j]);
    }
  }

  /** When no fetch fails, every index 0..n-1 is listed, in order. */
  lemma {:induction false} FetchUpToComplete(n: nat, boxes: map<seq<byte>, seq<byte>>, apps: map<nat, seq<StateEntry>>)
    requires n <= U64_LIMIT
    requires forall i: u64 :: i < n ==> FetchEvent(i, boxes, apps).Some?
    ensures |FetchUpTo(n, boxes, apps)| == n
    ensures forall i: u64 :: i < n ==> FetchUpTo(n, boxes, apps)[i] == FetchEvent(i, boxes, apps).value
  {
    if n > 0 {
      FetchUpToComplete(n - 1, boxes, apps);
      var prev := FetchUpTo(n - 1, boxes, apps);
      var last := FetchEvent(n - 1, boxes, apps);
      assert FetchUpTo(n, boxes, apps) == prev + [last.value];
      forall i: u64 | i < n
        ensures FetchUpTo(n, boxes, apps)[i] == FetchEvent(i, boxes, apps).value
      {
        if i < n - 1 {
          assert FetchUpTo(n, boxes, apps)[i] == prev[i];
        }
      }
    }
  }

  /** One more index appends its event when the fetch succeeds and nothing otherwise. */
  lemma FetchUpToStep(n: nat, boxes: map<seq<byte>, seq<byte>>, apps: map<nat, seq<StateEntry>>)
    requires n < U64_LIMIT
    ensures FetchEvent(n, boxes, apps).None? ==> FetchUpTo(n + 1, boxes, apps) == FetchUpTo(n, boxes, apps)
    ensures FetchEvent(n, boxes, apps).Some? ==>
      FetchUpTo(n + 1, boxes, apps) == FetchUpTo(n, boxes, apps) + [FetchEvent(n, boxes, apps).value]
  {
  }

  /**
   * `fetchAllEvents`: nothing when no registry is configured or its state
   * cannot be read; otherwise the count from "event_count" (0 when absent)
   * and one attempt per index.
   */
  method FetchAllEvents(
    factoryAppId: nat,
    factoryState: Option<seq<StateEntry>>,
    boxes: map<seq<byte>, seq<byte>>,
    apps: map<nat, seq<StateEntry>>)
    returns (events: seq<EventInfo>)
    ensures factoryAppId == 0 || factoryState.None? ==> events == []
    ensures factoryAppId != 0 && factoryState.Some? ==>
      events == FetchUpTo(GetInt(factoryState.value, "event_count"), boxes, apps)
    ensures factoryState.Some? ==> |events| <= GetInt(factoryState.value, "event_count")
  {
    if factoryAppId == 0 { return []; }
    if factoryState.None? { return []; }
    var eventCount := GetInt(factoryState.value, "event_count");
    events := CollectEvents(eventCount, boxes, apps);
  }

  /** The loop of `fetchAllEvents`: one attempt per index below the count, keeping those that succeed. */
  method CollectEvents(eventCount: u64, boxes: map<seq<byte>, seq<byte>>, apps: map<nat, seq<StateEntry>>)
    returns (events: seq<EventInfo>)
    ensures events == FetchUpTo(eventCount, boxes, apps)
  {
    events := [];
    var i: nat := 0;
    while i < eventCount
      invariant i <= eventCount
      invariant events == FetchUpTo(i, boxes, apps)
    {
      events := FetchNext(i, boxes, apps, events);
      i := i + 1;
    }
  }

  /** One iteration of that loop: fetch index i and keep its event when the fetch succeeds. */
  method FetchNext(i: u64, boxes: map<seq<byte>, seq<byte>>, apps: map<nat, seq<StateEntry>>, events: seq<EventInfo>)
    returns (next: seq<EventInfo>)
    requires events == FetchUpTo(i, boxes, apps)
    ensures next == FetchUpTo(i + 1, boxes, apps)
  {
    FetchUpToStep(i, boxes, apps);
    var fetched := FetchEvent(i, boxes, apps);
    next := if fetched.Some? then events + [fetched.value] else events;
  }
}
