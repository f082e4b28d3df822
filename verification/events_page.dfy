/**
 * The marketplace page: the banner chosen for an event, the sold-out
 * display, discovery of events through the PyTeal registry's raw boxes, and
 * the purchase transaction the page builds for an event.
 *
 * Node queries are inputs: the registry's global state and boxes, and the
 * global state of each ticket manager application (a query fails exactly
 * when the id is absent).
 */
module EventsPage {
  import opened Wrappers
  import opened Bytes
  import opened Avm
  import opened GlobalState
  import EventsUtil
  import EventFactoryRaw
  import IndexedTicketManager

  /** The six banner gradients, in order. */
  const GRADIENTS: seq<string> := [
    "linear-gradient(135deg, #685AFF, #a855f7)",
    "linear-gradient(135deg, #FF5B5B, #FF8C42)",
    "linear-gradient(135deg, #4A9EFF, #685AFF)",
    "linear-gradient(135deg, #10b981, #4A9EFF)",
    "linear-gradient(135deg, #F59E0B, #FF5B5B)",
    "linear-gradient(135deg, #8b5cf6, #ec4899)"
  ]

  /** The sum of the UTF-16 code units of a string: what the reduce over `split('')` adds up. */
  function CodeUnitSum(s: string): nat {
    if s == [] then 0 else UnitsSum(Utf16Units(s[0])) + CodeUnitSum(s[1..])
  }

  function UnitsSum(units: seq<nat>): nat {
    if units == [] then 0 else units[0] + UnitsSum(units[1..])
  }

  /** The sum over a concatenation is the sum of the sums. */
  lemma {:induction false} CodeUnitSumAppend(a: string, b: string)
    ensures CodeUnitSum(a + b) == CodeUnitSum(a) + CodeUnitSum(b)
  {
    if a != [] {
      assert (a + b)[1..] == a[1..] + b;
      CodeUnitSumAppend(a[1..], b);
    } else {
      assert a + b == b;
    }
  }

  /** `getEventGradient`: the position of the name's banner among the six. */
  function GradientIndex(name: string): (i: nat)
    ensures i < |GRADIENTS|
  {
    CodeUnitSum(name) % |GRADIENTS|
  }

  /** `getEventGradient`: always one of the six banners. */
  function EventGradient(name: string): (g: string)
    ensures g in GRADIENTS
  {
    GRADIENTS[GradientIndex(name)]
  }

  /** The banner depends only on which characters the name has, not on their order: swapping two parts keeps it. */
  lemma GradientIgnoresOrder(a: string, b: string)
    ensures EventGradient(a + b) == EventGradient(b + a)
  {
    CodeUnitSumAppend(a, b);
    CodeUnitSumAppend(b, a);
  }

  /** For a name of code points below U+10000, the banner is the sum of the code points mod 6. */
  lemma GradientOfBmpChar(c: char)
    requires (c as int) < 0x10000
    ensures GradientIndex([c]) == (c as int) % 6
  {
    assert [c][1..] == [];
    assert Utf16Units(c) == [c as int];
    assert UnitsSum([c as int]) == c as int by {
      assert [c as int][1..] == [];
    }
    assert CodeUnitSum([c]) == UnitsSum(Utf16Units(c)) + CodeUnitSum([]);
  }

  /** A listed event is sold out once `sold` reaches `supply`. */
  predicate SoldOut(e: EventsUtil.EventInfo) {
    e.sold >= e.supply
  }

  /** The "N left" badge. */
  function TicketsLeft(e: EventsUtil.EventInfo): (n: int)
    ensures n > 0 <==> !SoldOut(e)
    ensures !SoldOut(e) ==> e.sold + n == e.supply
  {
    e.supply - e.sold
  }

  /** The recently created events shown: the first six stored entries at most. */
  function RecentEntries<T>(deployed: seq<T>): (r: seq<T>)
    ensures |r| == if |deployed| < 6 then |deployed| else 6
    ensures r == deployed[..|r|]
  {
    JsSlice(deployed, 0, 6)
  }

  /*
   * Discovery through the raw registry.
   */

  /** The event at registry index i, or None when any step for it throws (it is then skipped). */
  function FetchRawEvent(i: u64, boxes: map<seq<byte>, seq<byte>>, apps: map<nat, seq<StateEntry>>): (r: Option<EventsUtil.EventInfo>)
    ensures r.Some? ==> Itob(i) in boxes && |boxes[Itob(i)]| >= 1
    ensures r.Some? ==> r.value.appId in apps
  {
    var key := Itob(i);
    if key !in boxes then None
    else
      var v := boxes[key];
      match DecodeUint64Safe(JsSlice(v, 0, 8))
      case None => None
      case Some(id) =>
        if id !in apps then None
        else
          var gs := apps[id];
          Some(EventsUtil.EventInfo(id, JsSliceFrom(v, 8),
            GetInt(gs, "Price"), GetInt(gs, "Supply"), GetInt(gs, "Sold"), GetBytes(gs, "Organizer")))
  }

  /** The events collected from indices 0..n-1, in order, skipping those that fail. */
  function FetchRawUpTo(n: nat, boxes: map<seq<byte>, seq<byte>>, apps: map<nat, seq<StateEntry>>): (r: seq<EventsUtil.EventInfo>)
    requires n <= U64_LIMIT
    ensures |r| <= n
  {
    if n == 0 then []
    else
      var prev := FetchRawUpTo(n - 1, boxes, apps);
      match FetchRawEvent(n - 1, boxes, apps)
      case Some(e) => prev + [e]
      case None => prev
  }

  /** A registration the PyTeal registry stored is listed with the id and name it was registered with. */
  lemma FetchRawEventDecodes(i: u64, boxes: map<seq<byte>, seq<byte>>, apps: map<nat, seq<StateEntry>>, appId: u64, name: seq<byte>)
    requires Itob(i) in boxes && boxes[Itob(i)] == EventFactoryRaw.EntryValue(appId, name)
    requires appId <= MAX_SAFE_INTEGER && appId in apps
    ensures var r := FetchRawEvent(i, boxes, apps);
      r.Some? && r.value.appId == appId && r.value.name == name
      && r.value.price == GetInt(apps[appId], "Price") && r.value.sold == GetInt(apps[appId], "Sold")
  {
    var v := boxes[Itob(i)];
    assert JsSlice(v, 0, 8) == Itob(appId);
    assert JsSliceFrom(v, 8) == name;
  }

  /** Every collected event comes from some index below n whose fetch succeeded. */
  lemma {:induction false} FetchRawUpToSound(n: nat, boxes: map<seq<byte>, seq<byte>>, apps: map<nat, seq<StateEntry>>, j: nat)
    requires n <= U64_LIMIT && j < |FetchRawUpTo(n, boxes, apps)|
    ensures exists i: u64 :: i < n && FetchRawEvent(i, boxes, apps) == Some(FetchRawUpTo(n, boxes, apps)[j])
  {
    var prev := FetchRawUpTo(n - 1, boxes, apps);
    if j < |prev| {
      FetchRawUpToSound(n - 1, boxes, apps, j);
      var i: u64 :| i < n - 1 && FetchRawEvent(i, boxes, apps) == Some(prev[j]);
      assert FetchRawUpTo(n, boxes, apps)[j] == prev[j];
    } else {
      assert FetchRawEvent(n - 1, boxes, apps) == Some(FetchRawUpTo(n, boxes, apps)[j]);
    }
  }

  /** When no fetch fails, every index 0..n-1 is listed, in order. */
  lemma {:induction false} FetchRawUpToComplete(n: nat, boxes: map<seq<byte>, seq<byte>>, apps: map<nat, seq<StateEntry>>)
    requires n <= U64_LIMIT
    requires forall i: u64 :: i < n ==> FetchRawEvent(i, boxes, apps).Some?
    ensures |FetchRawUpTo(n, boxes, apps)| == n
    ensures forall i: u64 :: i < n ==> FetchRawUpTo(n, boxes, apps)[i] == FetchRawEvent(i, boxes, apps).value
  {
    if n > 0 {
      FetchRawUpToComplete(n - 1, boxes, apps);
      var prev := FetchRawUpTo(n - 1, boxes, apps);
      var last := FetchRawEvent(n - 1, boxes, apps);
      assert FetchRawUpTo(n, boxes, apps) == prev + [last.value];
      forall i: u64 | i < n
        ensures FetchRawUpTo(n, boxes, apps)[i] == FetchRawEvent(i, boxes, apps).value
      {
        if i < n - 1 {
          assert FetchRawUpTo(n, boxes, apps)[i] == prev[i];
        }
      }
    }
  }

  /**
   * Every registration in a valid PyTeal registry is fetched, with the id
   * and name it was registered with, once its application id is safe and
   * its application answers.
   */
  lemma RegisteredEventListed(f: EventFactoryRaw.EventFactory, i: u64, apps: map<nat, seq<StateEntry>>)
    requires f.Valid() && i < f.eventCount
    requires var e := EventFactoryRaw.DecodeEntry(f.boxes[Itob(i)]); e.0 <= MAX_SAFE_INTEGER && e.0 in apps
    ensures var e := EventFactoryRaw.DecodeEntry(f.boxes[Itob(i)]);
      var r := FetchRawEvent(i, f.boxes, apps);
      r.Some? && r.value.appId == e.0 && r.value.name == e.1
  {
    var e := EventFactoryRaw.DecodeEntry(f.boxes[Itob(i)]);
    EventFactoryRaw.BoxesDecode(f, Itob(i));
    FetchRawEventDecodes(i, f.boxes, apps, e.0, e.1);
  }

  /** The message the page shows after discovery. */
  datatype FetchStatus =
    | EnterFactoryId
    | NotAFactory
    | QueryFailed
    | NoneFound
    | Found

  /**
   * `fetchEvents`. `factoryState` is the registry's global state (None when
   * the application query fails). The count is "event_count", or
   * "EventCount" when that is absent; with neither, the id is refused.
   */
  method FetchEvents(
    factoryAppId: nat,
    factoryState: Option<seq<StateEntry>>,
    boxes: map<seq<byte>, seq<byte>>,
    apps: map<nat, seq<StateEntry>>)
    returns (events: seq<EventsUtil.EventInfo>, status: FetchStatus)
    ensures factoryAppId == 0 ==> status == EnterFactoryId && events == []
    ensures factoryAppId != 0 && factoryState.None? ==> status == QueryFailed && events == []
    ensures factoryAppId != 0 && factoryState.Some? ==>
      (status == NotAFactory <==> !HasKey(factoryState.value, "event_count") && !HasKey(factoryState.value, "EventCount"))
    ensures status == NotAFactory ==> events == []
    ensures status == NoneFound <==> status != NotAFactory && factoryAppId != 0 && factoryState.Some? && events == []
    ensures status == Found ==>
      events == FetchRawUpTo(CountOf(factoryState.value), boxes, apps) && events != []
    ensures status.NoneFound? ==> FetchRawUpTo(CountOf(factoryState.value), boxes, apps) == []
  {
    if factoryAppId == 0 { return [], EnterFactoryId; }
    if factoryState.None? { return [], QueryFailed; }
    var gs := factoryState.value;
    var countState := Find(gs, "event_count");
    if countState.None? { countState := Find(gs, "EventCount"); }
    if countState.None? { return [], NotAFactory; }
    var eventCount := countState.value.Uint();
    assert eventCount == CountOf(gs);
    events := CollectRawEvents(eventCount, boxes, apps);
    status := if |events| == 0 then NoneFound else Found;
  }

  /** The loop of `fetchEvents`: one attempt per index below the count, keeping those that succeed. */
  method CollectRawEvents(eventCount: u64, boxes: map<seq<byte>, seq<byte>>, apps: map<nat, seq<StateEntry>>)
    returns (events: seq<EventsUtil.EventInfo>)
    ensures events == FetchRawUpTo(eventCount, boxes, apps)
  {
    events := [];
    var i: nat := 0;
    while i < eventCount
      invariant i <= eventCount
      invariant events == FetchRawUpTo(i, boxes, apps)
    {
      var fetched := FetchRawEvent(i, boxes, apps);
      if fetched.Some? {
        events := events + [fetched.value];
      }
      i := i + 1;
    }
  }

  /** The registry count `fetchEvents` uses: "event_count", else "EventCount", else 0. */
  function CountOf(gs: seq<StateEntry>): (n: u64)
    ensures HasKey(gs, "event_count") ==> n == Find(gs, "event_count").value.Uint()
    ensures !HasKey(gs, "event_count") && HasKey(gs, "EventCount") ==> n == Find(gs, "EventCount").value.Uint()
  {
    match Find(gs, "event_count")
    case Some(v) => v.Uint()
    case None => match Find(gs, "EventCount") case Some(v) => v.Uint() case None => 0
  }

  /*
   * Purchase.
   */

  /** The `forEach` over the ticket manager's state: the last "Sold" (0 if none) and "Price" (the listed price if none). */
  method RefreshSoldAndPrice(gs: seq<StateEntry>, listedPrice: u64) returns (sold: u64, price: u64)
    ensures sold == LastUint(gs, "Sold", 0)
    ensures price == LastUint(gs, "Price", listedPrice)
  {
    sold, price := 0, listedPrice;
    var i := 0;
    while i < |gs|
      invariant 0 <= i <= |gs|
      invariant sold == LastUint(gs[..i], "Sold", 0)
      invariant price == LastUint(gs[..i], "Price", listedPrice)
    {
      assert gs[..i + 1][..i] == gs[..i];
      if gs[i].key == "Sold" { sold := gs[i].value.Uint(); }
      if gs[i].key == "Price" { price := gs[i].value.Uint(); }
      i := i + 1;
    }
    assert gs[..i] == gs;
  }

  /** The purchase group the page builds: a payment to the application and the box it references. */
  datatype BuyPlan = BuyPlan(sold: u64, payment: Payment, boxKey: seq<byte>)

  datatype BuyRefusal = ConnectWalletFirst | StateUnavailable | EventSoldOut

  /**
   * `buyTicket` up to building the group. `appState` is the manager's
   * global state (None when the node's answer has none, where `forEach`
   * throws); `supply` is the listed figure, not refreshed. As written, the
   * referenced box is "tickets" followed by the sold count read before the
   * purchase.
   */
  method BuyTicket(
    sender: Option<Address>,
    appAddress: Address,
    listedPrice: u64,
    supply: nat,
    appState: Option<seq<StateEntry>>)
    returns (r: Result<BuyPlan, BuyRefusal>)
    ensures sender.None? ==> r == Err(ConnectWalletFirst)
    ensures sender.Some? && appState.None? ==> r == Err(StateUnavailable)
    ensures r == Err(EventSoldOut) <==>
      sender.Some? && appState.Some? && LastUint(appState.value, "Sold", 0) >= supply
    ensures r.Ok? <==> sender.Some? && appState.Some? && LastUint(appState.value, "Sold", 0) < supply
    ensures r.Ok? ==>
      && r.value.sold == LastUint(appState.value, "Sold", 0)
      && r.value.payment == Payment(sender.value, appAddress, r.value.payment.amount)
      && r.value.payment.amount == LastUint(appState.value, "Price", listedPrice)
      && r.value.boxKey == EventsUtil.TicketsBoxPrefix() + Itob(r.value.sold)
  {
    if sender.None? { return Err(ConnectWalletFirst); }
    if appState.None? { return Err(StateUnavailable); }
    var currentSold, currentPrice := RefreshSoldAndPrice(appState.value, listedPrice);
    if currentSold >= supply { return Err(EventSoldOut); }
    var payment := Payment(sender.value, appAddress, currentPrice);
    var boxKey := TicketsBoxKey(currentSold);
    return Ok(BuyPlan(currentSold, payment, boxKey[..]));
  }

  /** Fills `boxKey`: "tickets", then the 8-byte index. */
  method TicketsBoxKey(index: u64) returns (buf: array<byte>)
    ensures buf[..] == EventsUtil.TicketsBoxPrefix() + Itob(index)
  {
    var prefix := EventsUtil.TicketsBoxPrefix();
    var raw := Itob(index);
    buf := new byte[|prefix| + |raw|];
    var i := 0;
    while i < |prefix| + |raw|
      invariant 0 <= i <= |prefix| + |raw|
      invariant forall k :: 0 <= k < i ==> buf[k] == (prefix + raw)[k]
    {
      buf[i] := (prefix + raw)[i];
      i := i + 1;
    }
  }

  /**
   * As written, the referenced box is never the one the purchase creates:
   * the manager writes at the incremented count, one past the key the page
   * names (which, after the first sale, is an existing ticket's box).
   */
  lemma BuyBoxKeyMissesWrite(sold: u64)
    requires sold + 1 < U64_LIMIT
    ensures EventsUtil.TicketsBoxPrefix() + Itob(sold) == IndexedTicketManager.TicketKey(sold)
    ensures EventsUtil.TicketsBoxPrefix() + Itob(sold) != IndexedTicketManager.TicketKey(sold + 1)
  {
    var k := EventsUtil.TicketsBoxPrefix() + Itob(sold);
    assert k == IndexedTicketManager.TicketKey(sold);
    if k == IndexedTicketManager.TicketKey(sold + 1) {
      IndexedTicketManager.TicketKeyInjective(sold, sold + 1);
    }
  }

  /** No box of a manager holding exactly tickets 1..n sits at index 0 or past n. */
  lemma KeyOutsideRange(j: u64, n: u64)
    requires j == 0 || j > n
    ensures IndexedTicketManager.TicketKey(j) !in IndexedTicketManager.KeysUpTo(n)
  {
  }

  /** The first purchase of an event references "tickets" + be64(0), a box the manager never creates. */
  lemma FirstPurchaseReferencesNoTicket(m: IndexedTicketManager.IndexedTicketManager)
    requires m.Valid() && m.Exact()
    ensures EventsUtil.TicketsBoxPrefix() + Itob(0) !in m.boxes
  {
    assert EventsUtil.TicketsBoxPrefix() + Itob(0) == IndexedTicketManager.TicketKey(0);
    KeyOutsideRange(0, m.sold);
  }

  /** The box the purchase should reference: the one at the count after the sale. */
  function IntendedBuyBoxKey(sold: u64): (k: seq<byte>)
    requires sold + 1 < U64_LIMIT
    ensures |k| == 15 && k[..7] == EventsUtil.TicketsBoxPrefix() && FromBE(k[7..]) == sold + 1
  {
    EventsUtil.TicketsBoxPrefix() + Itob(sold + 1)
  }

  /**
   * The purchase with the intended key, submitted to the manager: when the
   * page's view of "Sold" is current and the purchase succeeds, the box it
   * references is the one the manager creates, and holds the buyer's ticket.
   */
  method SubmitPurchase(m: IndexedTicketManager.IndexedTicketManager, sender: Address, currentSold: u64, currentPrice: u64, minted: u64)
    returns (boxKey: seq<byte>, r: Result<(), Abort>)
    requires m.Valid() && currentSold == m.sold && currentSold + 1 < U64_LIMIT
    modifies m
    ensures m.Valid()
    ensures boxKey == IntendedBuyBoxKey(currentSold)
    ensures r.Ok? <==> currentPrice == old(m.price) && old(m.sold) < old(m.supply)
    ensures r.Ok? ==> boxKey in m.boxes && m.boxes[boxKey] == IndexedTicketManager.TicketValue(minted, sender)
    ensures old(m.Exact()) ==> boxKey !in old(m.boxes)
  {
    boxKey := IntendedBuyBoxKey(currentSold);
    assert boxKey == IndexedTicketManager.TicketKey(currentSold + 1);
    KeyOutsideRange(currentSold + 1, currentSold);
    r := m.BuyTicket(sender, Payment(sender, m.appAddress, currentPrice), minted);
  }
}
