/**
 * The organiser dashboard: which of the locally remembered events belong to
 * the connected organiser, the aggregate figures over them, the ticket list
 * of one event decoded from its boxes, and the attendee export.
 *
 * Node queries are inputs: the global state of each application (a query
 * fails exactly when the id is absent) and an event's boxes (a box fetch
 * fails exactly when the key is absent).
 */
module Dashboard {
  import opened Wrappers
  import opened Bytes
  import opened Avm
  import opened GlobalState
  import opened TicketStatus
  import EventsUtil
  import EventsPage
  import IndexedTicketManager

  /*
   * The organiser's events.
   */

  /** An entry of the locally stored list of deployed events. */
  datatype DeployedEvent = DeployedEvent(eventId: nat, eventName: string)

  /** One event on the dashboard; `organizer` is the raw address bytes, empty when unset. */
  datatype OrganizerEvent = OrganizerEvent(
    appId: nat, name: string, price: nat, supply: nat, sold: nat, organizer: seq<byte>,
    revenue: nat, cancellationDeadline: nat, penaltyPercentage: nat, royaltyPercentage: nat)

  /** The dashboard entry for a deployed event, or None when its application cannot be read. */
  function ReadEvent(d: DeployedEvent, apps: map<nat, seq<StateEntry>>): (r: Option<OrganizerEvent>)
    ensures r.Some? <==> d.eventId in apps
    ensures r.Some? ==> r.value.appId == d.eventId && r.value.revenue == r.value.price * r.value.sold
  {
    if d.eventId !in apps then None
    else
      var gs := apps[d.eventId];
      var price, sold := GetInt(gs, "Price"), GetInt(gs, "Sold");
      Some(OrganizerEvent(d.eventId, d.eventName, price, GetInt(gs, "Supply"), sold, GetBytes(gs, "Organizer"),
        price * sold, GetInt(gs, "cancellation_deadline"), GetInt(gs, "penalty_percentage"), GetInt(gs, "royalty_percentage")))
  }

  /** The events of `deployed` that can be read and whose organiser is `active`, in stored order. */
  function OrganizerEvents(deployed: seq<DeployedEvent>, apps: map<nat, seq<StateEntry>>, active: Address): (r: seq<OrganizerEvent>)
    ensures |r| <= |deployed|
    ensures forall i :: 0 <= i < |r| ==> r[i].organizer == active && r[i].revenue == r[i].price * r[i].sold
  {
    if deployed == [] then []
    else
      var prev := OrganizerEvents(deployed[..|deployed| - 1], apps, active);
      match ReadEvent(deployed[|deployed| - 1], apps)
      case Some(e) => if e.organizer == active then prev + [e] else prev
      case None => prev
  }

  /** An event with no organiser recorded is never shown: the empty string matches no address. */
  lemma {:induction false} OrganizerEventsNeedOrganizer(deployed: seq<DeployedEvent>, apps: map<nat, seq<StateEntry>>, active: Address)
    requires forall i :: 0 <= i < |deployed| && deployed[i].eventId in apps ==> !HasKey(apps[deployed[i].eventId], "Organizer")
    ensures OrganizerEvents(deployed, apps, active) == []
  {
    if deployed != [] {
      var init := deployed[..|deployed| - 1];
      assert forall i :: 0 <= i < |init| ==> init[i] == deployed[i];
      OrganizerEventsNeedOrganizer(init, apps, active);
    }
  }

  /** When every stored event can be read and is organised by `active`, all of them are shown, in order. */
  lemma {:induction false} OrganizerEventsAll(deployed: seq<DeployedEvent>, apps: map<nat, seq<StateEntry>>, active: Address)
    requires forall i :: 0 <= i < |deployed| ==> deployed[i].eventId in apps && GetBytes(apps[deployed[i].eventId], "Organizer") == active
    ensures |OrganizerEvents(deployed, apps, active)| == |deployed|
    ensures forall i :: 0 <= i < |deployed| ==> OrganizerEvents(deployed, apps, active)[i].appId == deployed[i].eventId
  {
    if deployed != [] {
      var init := deployed[..|deployed| - 1];
      assert forall i :: 0 <= i < |init| ==> init[i] == deployed[i];
      OrganizerEventsAll(init, apps, active);
      var prev := OrganizerEvents(init, apps, active);
      var all := OrganizerEvents(deployed, apps, active);
      var e := ReadEventKept(deployed[|deployed| - 1], apps, active);
      OrganizerEventsKeepLast(deployed, apps, active, e);
      forall i | 0 <= i < |deployed|
        ensures all[i].appId == deployed[i].eventId
      {
        if i < |init| {
          assert all[i] == prev[i] && prev[i].appId == init[i].eventId && init[i] == deployed[i];
        } else {
          assert i == |init| && all[i] == e;
        }
      }
    }
  }

  /** An event organised by `active` is read and kept: it is the last entry of the list it ends. */
  lemma ReadEventKept(d: DeployedEvent, apps: map<nat, seq<StateEntry>>, active: Address) returns (e: OrganizerEvent)
    requires d.eventId in apps && GetBytes(apps[d.eventId], "Organizer") == active
    ensures ReadEvent(d, apps) == Some(e) && e.organizer == active && e.appId == d.eventId
  {
    e := ReadEvent(d, apps).value;
  }

  /** A kept last event is appended after the events of the earlier entries. */
  lemma OrganizerEventsKeepLast(deployed: seq<DeployedEvent>, apps: map<nat, seq<StateEntry>>, active: Address, e: OrganizerEvent)
    requires deployed != [] && ReadEvent(deployed[|deployed| - 1], apps) == Some(e) && e.organizer == active
    ensures OrganizerEvents(deployed, apps, active) == OrganizerEvents(deployed[..|deployed| - 1], apps, active) + [e]
  {
  }

  /** `loadOrganizerEvents`: walks the stored list, skipping unreadable events and other organisers' events. */
  method LoadOrganizerEvents(active: Address, deployed: seq<DeployedEvent>, apps: map<nat, seq<StateEntry>>)
    returns (events: seq<OrganizerEvent>)
    ensures events == OrganizerEvents(deployed, apps, active)
  {
    events := [];
    var i := 0;
    while i < |deployed|
      invariant 0 <= i <= |deployed|
      invariant events == OrganizerEvents(deployed[..i], apps, active)
    {
      assert deployed[..i + 1][..i] == deployed[..i];
      var read := ReadEvent(deployed[i], apps);
      if read.Some? && read.value.organizer == active {
        events := events + [read.value];
      }
      i := i + 1;
    }
    assert deployed[..i] == deployed;
  }

  /*
   * Aggregates.
   */

  function SumSupply(es: seq<OrganizerEvent>): nat {
    if es == [] then 0 else SumSupply(es[..|es| - 1]) + es[|es| - 1].supply
  }

  function SumSold(es: seq<OrganizerEvent>): nat {
    if es == [] then 0 else SumSold(es[..|es| - 1]) + es[|es| - 1].sold
  }

  function SumRevenue(es: seq<OrganizerEvent>): nat {
    if es == [] then 0 else SumRevenue(es[..|es| - 1]) + es[|es| - 1].revenue
  }

  /** The events still on sale. */
  function CountActive(es: seq<OrganizerEvent>): (n: nat)
    ensures n <= |es|
  {
    if es == [] then 0 else CountActive(es[..|es| - 1]) + (if es[|es| - 1].sold < es[|es| - 1].supply then 1 else 0)
  }

  /** The integer figures of `calculateStats` (average price and sell-through rate are floating point). */
  datatype Stats = Stats(
    totalEvents: nat, totalTickets: nat, totalSold: nat, totalRevenue: nat, totalRoyalties: nat,
    activeEvents: nat, totalAttendees: nat, checkInRate: nat, resaleRevenue: nat)

  /** Some ticket was sold exactly when the total sold is positive. */
  lemma {:induction false} SumSoldPositive(es: seq<OrganizerEvent>)
    ensures SumSold(es) > 0 <==> exists i :: 0 <= i < |es| && es[i].sold > 0
  {
    if es != [] {
      var init := es[..|es| - 1];
      SumSoldPositive(init);
      if exists i :: 0 <= i < |init| && init[i].sold > 0 {
        var i :| 0 <= i < |init| && init[i].sold > 0;
        assert es[i].sold > 0;
      }
      if exists i :: 0 <= i < |es| && es[i].sold > 0 {
        var i :| 0 <= i < |es| && es[i].sold > 0;
        if i < |init| { assert init[i].sold > 0; }
      }
    }
  }

  /**
   * Each total and the active count split over a concatenation of event
   * lists, as `reduce` and `filter(...).length` do.
   */
  lemma {:induction false} AggregatesAppend(a: seq<OrganizerEvent>, b: seq<OrganizerEvent>)
    ensures SumSupply(a + b) == SumSupply(a) + SumSupply(b)
    ensures SumSold(a + b) == SumSold(a) + SumSold(b)
    ensures SumRevenue(a + b) == SumRevenue(a) + SumRevenue(b)
    ensures CountActive(a + b) == CountActive(a) + CountActive(b)
  {
    if b == [] {
      assert a + b == a;
    } else {
      var init := b[..|b| - 1];
      assert (a + b)[..|a + b| - 1] == a + init;
      assert (a + b)[|a + b| - 1] == b[|b| - 1];
      AggregatesAppend(a, init);
    }
  }

  /** The totals of one event are its own supply, sold count and revenue; it is active while not sold out. */
  lemma AggregatesOfOne(e: OrganizerEvent)
    ensures SumSupply([e]) == e.supply && SumSold([e]) == e.sold && SumRevenue([e]) == e.revenue
    ensures CountActive([e]) == if e.sold < e.supply then 1 else 0
  {
    assert [e][..0] == [];
  }

  /** `calculateStats`. The check-in rate is a fixed 85 whenever anything was sold. */
  function CalculateStats(es: seq<OrganizerEvent>): (s: Stats)
    ensures s.totalTickets == SumSupply(es) && s.totalSold == SumSold(es) && s.totalRevenue == SumRevenue(es)
    ensures s.activeEvents == CountActive(es)
    ensures s.totalAttendees == s.totalSold
    ensures s.activeEvents <= s.totalEvents == |es|
    ensures s.checkInRate == (if exists i :: 0 <= i < |es| && es[i].sold > 0 then 85 else 0)
    ensures s.totalRoyalties == 0 && s.resaleRevenue == 0
  {
    SumSoldPositive(es);
    var totalSold := SumSold(es);
    Stats(|es|, SumSupply(es), totalSold, SumRevenue(es), 0, CountActive(es), totalSold,
      if totalSold > 0 then 85 else 0, 0)
  }

  /** Never more sold than offered overall, when no single event is oversold. */
  lemma {:induction false} SoldAtMostTickets(es: seq<OrganizerEvent>)
    requires forall i :: 0 <= i < |es| ==> es[i].sold <= es[i].supply
    ensures CalculateStats(es).totalSold <= CalculateStats(es).totalTickets
  {
    if es != [] {
      var init := es[..|es| - 1];
      assert forall i :: 0 <= i < |init| ==> init[i] == es[i];
      SoldAtMostTickets(init);
    }
  }

  /** No event is active exactly when every event has sold out. */
  lemma {:induction false} NoActiveEvents(es: seq<OrganizerEvent>)
    ensures CountActive(es) == 0 <==> forall i :: 0 <= i < |es| ==> es[i].sold >= es[i].supply
  {
    if es != [] {
      var init := es[..|es| - 1];
      assert forall i :: 0 <= i < |init| ==> init[i] == es[i];
      NoActiveEvents(init);
    }
  }

  /** With one price for every event, the summed revenue is that price times the summed sales. */
  lemma {:induction false} SumRevenueOfOnePrice(es: seq<OrganizerEvent>, price: nat)
    requires forall i :: 0 <= i < |es| ==> es[i].price == price && es[i].revenue == es[i].price * es[i].sold
    ensures SumRevenue(es) == price * SumSold(es)
  {
    if es != [] {
      var init := es[..|es| - 1];
      assert forall i :: 0 <= i < |init| ==> init[i] == es[i];
      SumRevenueOfOnePrice(init, price);
      var last := es[|es| - 1];
      assert SumRevenue(es) == SumRevenue(init) + price * last.sold;
      assert SumSold(es) == SumSold(init) + last.sold;
      assert price * (SumSold(init) + last.sold) == price * SumSold(init) + price * last.sold;
    }
  }

  /** The revenue of the events of `OrganizerEvents` sums each event's price times its sold count. */
  lemma RevenueOfOnePrice(es: seq<OrganizerEvent>, price: nat)
    requires forall i :: 0 <= i < |es| ==> es[i].price == price && es[i].revenue == es[i].price * es[i].sold
    ensures CalculateStats(es).totalRevenue == price * CalculateStats(es).totalSold
  {
    SumRevenueOfOnePrice(es, price);
  }

  /*
   * Ticket list of one event.
   */

  /** One ticket as the dashboard lists it; `owner` is the raw address bytes. */
  datatype DashTicket = DashTicket(index: nat, assetId: nat, owner: seq<byte>, status: Status, resalePrice: nat)

  /** The status label of a stored byte: 0..3 by name, anything else (a missing byte too) cancelled. */
  function StatusOfByte(b: Option<byte>): (s: Status)
    ensures b.Some? && b.value <= 4 ==> s == FromCode(b.value)
    ensures b.None? || b.value > 3 ==> s == Cancelled
  {
    match b
    case None => Cancelled
    case Some(x) => if x == 0 then Pending else if x == 1 then Claimed else if x == 2 then Used else if x == 3 then Listed else Cancelled
  }

  /** How the resale price field is read. */
  datatype ResaleRead =
    /** As written: bytes 41..49 decoded in safe mode, which throws when they are missing. */
    | AlwaysDecode
    /** A box with no bytes after the status byte has no resale price: 0. */
    | ZeroWhenAbsent

  /** The decode of one ticket box: None when it throws, which abandons the whole list. */
  function DecodeTicketBox(index: nat, v: seq<byte>, read: ResaleRead): (r: Option<DashTicket>)
    ensures r.Some? ==> |v| >= 1 && r.value.index == index && r.value.owner == JsSlice(v, 8, 40)
    ensures r.Some? ==> r.value.status == StatusOfByte(At(v, 40))
  {
    match DecodeUint64Safe(JsSlice(v, 0, 8))
    case None => None
    case Some(assetId) =>
      var resaleBytes := JsSlice(v, 41, 49);
      var resale := if read == ZeroWhenAbsent && resaleBytes == [] then Some(0) else DecodeUint64Safe(resaleBytes);
      match resale
      case None => None
      case Some(price) => Some(DashTicket(index, assetId, JsSlice(v, 8, 40), StatusOfByte(At(v, 40)), price))
  }

  /** The box key of ticket i. */
  function TicketBoxKey(i: u64): (k: seq<byte>)
    ensures k == IndexedTicketManager.TicketKey(i)
  {
    EventsUtil.TicketsBoxPrefix() + Itob(i)
  }

  /**
   * The tickets 1..n in index order, skipping boxes that cannot be fetched;
   * None as soon as a fetched box fails to decode.
   */
  function LoadUpTo(n: nat, boxes: map<seq<byte>, seq<byte>>, read: ResaleRead): (r: Option<seq<DashTicket>>)
    requires n < U64_LIMIT
    ensures r.Some? ==> |r.value| <= n
    ensures r.Some? ==> forall j :: 0 <= j < |r.value| ==> 1 <= r.value[j].index <= n
  {
    if n == 0 then Some([])
    else
      match LoadUpTo(n - 1, boxes, read)
      case None => None
      case Some(prev) =>
        var key := TicketBoxKey(n);
        if key !in boxes then Some(prev)
        else
          match DecodeTicketBox(n, boxes[key], read)
          case None => None
          case Some(t) => Some(prev + [t])
  }

  /**
   * `loadEventTickets`: requests the boxes of tickets 1..sold, then decodes
   * the ones that came back in index order; any decode error abandons the
   * list (None).
   */
  method LoadEventTickets(sold: u64, boxes: map<seq<byte>, seq<byte>>)
    returns (requests: seq<seq<byte>>, tickets: Option<seq<DashTicket>>)
    ensures |requests| == sold && forall j :: 0 <= j < sold ==> requests[j] == TicketBoxKey(j + 1)
    ensures tickets == LoadUpTo(sold, boxes, AlwaysDecode)
  {
    requests := RequestTicketBoxes(sold);
    tickets := DecodeFetched(sold, requests, boxes);
  }

  /** The first loop of `loadEventTickets`: one box request per ticket 1..sold. */
  method RequestTicketBoxes(sold: u64) returns (requests: seq<seq<byte>>)
    ensures |requests| == sold && forall j :: 0 <= j < sold ==> requests[j] == TicketBoxKey(j + 1)
  {
    requests := [];
    var i: nat := 1;
    while i <= sold
      invariant 1 <= i <= sold as nat + 1
      invariant |requests| == i - 1 && forall j :: 0 <= j < i - 1 ==> requests[j] == TicketBoxKey(j + 1)
    {
      var boxKey := EventsPage.TicketsBoxKey(i);
      requests := requests + [boxKey[..]];
      i := i + 1;
    }
  }

  /** The second loop of `loadEventTickets`: decode each box that came back, in order; a decode error abandons the list. */
  method DecodeFetched(sold: u64, requests: seq<seq<byte>>, boxes: map<seq<byte>, seq<byte>>)
    returns (tickets: Option<seq<DashTicket>>)
    requires |requests| == sold && forall j :: 0 <= j < sold ==> requests[j] == TicketBoxKey(j + 1)
    ensures tickets == LoadUpTo(sold, boxes, AlwaysDecode)
  {
    var loaded: seq<DashTicket> := [];
    var k: nat := 0;
    while k < sold
      invariant k <= sold
      invariant LoadUpTo(k, boxes, AlwaysDecode) == Some(loaded)
    {
      var next := DecodeOne(k + 1, requests[k], boxes, loaded);
      if next.None? {
        LoadUpToStaysNone(k + 1, sold, boxes, AlwaysDecode);
        return None;
      }
      loaded := next.value;
      k := k + 1;
    }
    return Some(loaded);
  }

  /** One iteration of the decode loop: the fetched box of ticket n, if any, decoded and appended. */
  method DecodeOne(n: u64, key: seq<byte>, boxes: map<seq<byte>, seq<byte>>, loaded: seq<DashTicket>)
    returns (next: Option<seq<DashTicket>>)
    requires n >= 1 && key == TicketBoxKey(n) && LoadUpTo(n - 1, boxes, AlwaysDecode) == Some(loaded)
    ensures next == LoadUpTo(n, boxes, AlwaysDecode)
  {
    LoadUpToStep(n, boxes, AlwaysDecode, loaded);
    if key !in boxes { return Some(loaded); }
    var t := DecodeTicketBox(n, boxes[key], AlwaysDecode);
    if t.None? { return None; }
    return Some(loaded + [t.value]);
  }

  /** One more index: an absent box adds nothing, a box that decodes adds its ticket, one that does not abandons the list. */
  lemma LoadUpToStep(n: nat, boxes: map<seq<byte>, seq<byte>>, read: ResaleRead, prev: seq<DashTicket>)
    requires 1 <= n < U64_LIMIT && LoadUpTo(n - 1, boxes, read) == Some(prev)
    ensures TicketBoxKey(n) !in boxes ==> LoadUpTo(n, boxes, read) == Some(prev)
    ensures TicketBoxKey(n) in boxes ==>
      LoadUpTo(n, boxes, read) == match DecodeTicketBox(n, boxes[TicketBoxKey(n)], read)
        case None => None
        case Some(t) => Some(prev + [t])
  {
  }

  /** Once the list is abandoned, loading more indices does not bring it back. */
  lemma {:induction false} LoadUpToStaysNone(n: nat, m: nat, boxes: map<seq<byte>, seq<byte>>, read: ResaleRead)
    requires n <= m < U64_LIMIT && LoadUpTo(n, boxes, read).None?
    ensures LoadUpTo(m, boxes, read).None?
  {
    if m > n {
      LoadUpToStaysNone(n, m - 1, boxes, read);
    }
  }

  /**
   * As written, the list of any event of the front end's ticket manager
   * with a sale fails: its 41-byte boxes have no bytes 41..49 to decode.
   */
  lemma AsWrittenLoadFails(m: IndexedTicketManager.IndexedTicketManager)
    requires m.Valid() && m.sold >= 1
    ensures LoadUpTo(m.sold, m.boxes, AlwaysDecode).None?
  {
    var key := TicketBoxKey(1);
    assert key in m.boxes;
    assert |m.boxes[key]| == 41;
    assert JsSlice(m.boxes[key], 41, 49) == [];
    assert DecodeTicketBox(1, m.boxes[key], AlwaysDecode).None?;
    assert LoadUpTo(1, m.boxes, AlwaysDecode).None?;
    LoadUpToStaysNone(1, m.sold, m.boxes, AlwaysDecode);
  }

  /** With the resale price read as 0 when absent, a ticket box of the front end's manager decodes to its fields. */
  lemma DecodeIndexedBox(index: nat, v: seq<byte>)
    requires |v| == 41 && FromBE(v[..8]) <= MAX_SAFE_INTEGER
    ensures DecodeTicketBox(index, v, ZeroWhenAbsent)
      == Some(DashTicket(index, FromBE(v[..8]), v[8..40], StatusOfByte(Some(v[40])), 0))
  {
    assert JsSlice(v, 41, 49) == [];
  }

  /**
   * With the resale price read as 0 when absent, every sold ticket of a
   * front end manager is listed, in index order, with its asset, owner and
   * status.
   */
  lemma ZeroWhenAbsentListsAll(m: IndexedTicketManager.IndexedTicketManager)
    requires m.Valid()
    requires forall k :: k in m.boxes ==> FromBE(m.boxes[k][..8]) <= MAX_SAFE_INTEGER
    ensures var r := LoadUpTo(m.sold, m.boxes, ZeroWhenAbsent);
      && r.Some? && |r.value| == m.sold
      && forall j :: 0 <= j < m.sold ==>
           var v := m.boxes[TicketBoxKey(j + 1)];
           r.value[j] == DashTicket(j + 1, FromBE(v[..8]), v[8..40], StatusOfByte(Some(v[40])), 0)
  {
    forall i: u64 | 1 <= i <= m.sold
      ensures TicketBoxKey(i) in m.boxes && |m.boxes[TicketBoxKey(i)]| == 41
      ensures FromBE(m.boxes[TicketBoxKey(i)][..8]) <= MAX_SAFE_INTEGER
    {
      assert IndexedTicketManager.TicketKey(i) in m.boxes;
    }
    LoadsAllTickets(m.sold, m.boxes);
  }

  lemma {:induction false} LoadsAllTickets(n: u64, boxes: map<seq<byte>, seq<byte>>)
    requires forall i: u64 :: 1 <= i <= n ==>
      TicketBoxKey(i) in boxes && |boxes[TicketBoxKey(i)]| == 41 && FromBE(boxes[TicketBoxKey(i)][..8]) <= MAX_SAFE_INTEGER
    ensures var r := LoadUpTo(n, boxes, ZeroWhenAbsent);
      && r.Some? && |r.value| == n
      && forall j :: 0 <= j < n ==>
           var v := boxes[TicketBoxKey(j + 1)];
           r.value[j] == DashTicket(j + 1, FromBE(v[..8]), v[8..40], StatusOfByte(Some(v[40])), 0)
  {
    if n > 0 {
      LoadsAllTickets(n - 1, boxes);
      var prev := LoadUpTo(n - 1, boxes, ZeroWhenAbsent).value;
      var key := TicketBoxKey(n);
      var v := boxes[key];
      DecodeIndexedBox(n, v);
      var t := DashTicket(n, FromBE(v[..8]), v[8..40], StatusOfByte(Some(v[40])), 0);
      assert LoadUpTo(n, boxes, ZeroWhenAbsent) == Some(prev + [t]);
      forall j | 0 <= j < n
        ensures var w := boxes[TicketBoxKey(j + 1)];
          (prev + [t])[j] == DashTicket(j + 1, FromBE(w[..8]), w[8..40], StatusOfByte(Some(w[40])), 0)
      {
        if j < n - 1 { assert (prev + [t])[j] == prev[j]; }
      }
    }
  }

  /*
   * Attendee export.
   */

  predicate IsAsciiAlnum(c: char) {
    ('a' <= c <= 'z') || ('A' <= c <= 'Z') || ('0' <= c <= '9')
  }

  /** `replace(/[^a-z0-9]/gi, '_')` on one character: every UTF-16 unit outside [A-Za-z0-9] becomes `_`. */
  function SanitizeChar(c: char): (r: string)
    ensures |r| == |Utf16Units(c)|
    ensures forall i :: 0 <= i < |r| ==> IsAsciiAlnum(r[i]) || r[i] == '_'
    ensures IsAsciiAlnum(c) ==> r == [c]
    ensures !IsAsciiAlnum(c) ==> forall i :: 0 <= i < |r| ==> r[i] == '_'
  {
    if IsAsciiAlnum(c) then [c]
    else if (c as int) < 0x10000 then "_"
    else "__"
  }

  function Sanitize(s: string): (r: string)
    ensures forall i :: 0 <= i < |r| ==> IsAsciiAlnum(r[i]) || r[i] == '_'
  {
    if s == [] then [] else SanitizeChar(s[0]) + Sanitize(s[1..])
  }

  /** The number of UTF-16 units of a string (its JavaScript `length`). */
  function Utf16Length(s: string): nat {
    if s == [] then 0 else |Utf16Units(s[0])| + Utf16Length(s[1..])
  }

  /** Sanitising keeps the name's JavaScript length and its letters and digits. */
  lemma {:induction false} SanitizeKeepsLength(s: string)
    ensures |Sanitize(s)| == Utf16Length(s)
    ensures (forall i :: 0 <= i < |s| ==> IsAsciiAlnum(s[i])) ==> Sanitize(s) == s
  {
    if s != [] {
      SanitizeKeepsLength(s[1..]);
      if forall i :: 0 <= i < |s| ==> IsAsciiAlnum(s[i]) {
        assert forall i :: 0 <= i < |s[1..]| ==> IsAsciiAlnum(s[1..][i]) by {
          forall i | 0 <= i < |s[1..]| ensures IsAsciiAlnum(s[1..][i]) { assert s[1..][i] == s[i + 1]; }
        }
      }
    }
  }

  /**
   * On a name without characters above U+FFFF, sanitising works position by
   * position: a letter or digit stays where it is, anything else becomes `_`.
   */
  lemma {:induction false} SanitizeBmp(s: string)
    requires forall i :: 0 <= i < |s| ==> (s[i] as int) < 0x10000
    ensures |Sanitize(s)| == |s|
    ensures forall i :: 0 <= i < |s| ==> Sanitize(s)[i] == if IsAsciiAlnum(s[i]) then s[i] else '_'
  {
    if s != [] {
      assert forall i :: 0 <= i < |s[1..]| ==> s[1..][i] == s[i + 1];
      SanitizeBmp(s[1..]);
      var head := SanitizeChar(s[0]);
      assert |head| == 1;
      forall i | 0 <= i < |s| ensures Sanitize(s)[i] == if IsAsciiAlnum(s[i]) then s[i] else '_' {
        if i == 0 {
          assert Sanitize(s)[0] == head[0];
        } else {
          assert Sanitize(s)[i] == Sanitize(s[1..])[i - 1];
        }
      }
    }
  }

  /** Sanitising twice changes nothing more. */
  lemma SanitizeIdempotent(s: string)
    ensures Sanitize(Sanitize(s)) == Sanitize(s)
  {
    var r := Sanitize(s);
    forall i | 0 <= i < |r| ensures IsAsciiAlnum(r[i]) || r[i] == '_' { }
    SanitizeUnderscores(r);
  }

  /** A string of letters, digits and underscores is left as it is. */
  lemma {:induction false} SanitizeUnderscores(s: string)
    requires forall i :: 0 <= i < |s| ==> IsAsciiAlnum(s[i]) || s[i] == '_'
    ensures Sanitize(s) == s
  {
    if s != [] {
      assert forall i :: 0 <= i < |s[1..]| ==> s[1..][i] == s[i + 1];
      SanitizeUnderscores(s[1..]);
      assert s == [s[0]] + s[1..];
    }
  }

  /** The download name of the export. */
  function ExportFileName(eventName: string): (f: string)
    ensures f == Sanitize(eventName) + "_attendees.csv"
    ensures |f| == Utf16Length(eventName) + 14
  {
    SanitizeKeepsLength(eventName);
    Sanitize(eventName) + "_attendees.csv"
  }

  /** A CSV cell before rendering; `Algo` is a resale price shown in Algos with three decimals. */
  datatype Cell = Num(n: nat) | Text(s: string) | Owner(address: seq<byte>) | Algo(microAlgos: nat)

  function StatusLabel(s: Status): string {
    match s
    case Pending => "pending"
    case Claimed => "claimed"
    case Used => "used"
    case Listed => "listed"
    case Cancelled => "cancelled"
  }

  function Header(): seq<Cell> {
    [Text("Ticket #"), Text("Asset ID"), Text("Owner Address"), Text("Status"), Text("Resale Price")]
  }

  function Row(t: DashTicket): (row: seq<Cell>)
    ensures |row| == 5
  {
    [Num(t.index), Num(t.assetId), Owner(t.owner), Text(StatusLabel(t.status)),
     if t.resalePrice > 0 then Algo(t.resalePrice) else Text("N/A")]
  }

  datatype Export = Export(fileName: string, rows: seq<seq<Cell>>)

  /** `exportAttendeeList`: nothing without a selected event or tickets; else a header and one row per ticket. */
  function ExportAttendeeList(selected: Option<string>, tickets: seq<DashTicket>): (r: Option<Export>)
    ensures r.None? <==> selected.None? || tickets == []
    ensures r.Some? ==>
      && r.value.fileName == ExportFileName(selected.value)
      && |r.value.rows| == |tickets| + 1
      && r.value.rows[0] == Header()
      && forall i :: 0 <= i < |tickets| ==> |r.value.rows[i + 1]| == 5 && r.value.rows[i + 1][0] == Num(tickets[i].index)
  {
    if selected.None? || tickets == [] then None
    else Some(Export(ExportFileName(selected.value), [Header()] + seq(|tickets|, i requires 0 <= i < |tickets| => Row(tickets[i]))))
  }
}
