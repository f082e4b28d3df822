/**
 * The richest ticket manager contract (Algorand Python, ARC-4): an event's
 * price, supply, sold count, organizer, cancellation deadline and penalty and
 * royalty percentages in global state, and a box map from ticket (asset) id to
 * the ticket's owner, status and resale price.
 *
 * Each ABI method is a method of the class. The caller passes what the AVM
 * would supply: the transaction sender, the grouped payment, the latest block
 * timestamp, and the id the ledger assigns to a newly minted asset. Inner
 * transactions are appended to `submitted`. A rejected call changes nothing.
 */
module TicketManagerBackup {
  import opened Wrappers
  import opened Bytes
  import opened Avm
  import opened TicketStatus
  import opened GlobalState

  datatype TicketInfo = TicketInfo(owner: Address, status: Status, resalePrice: u64)

  /** What `get_event_info` returns. */
  datatype EventInfo = EventInfo(
    price: u64, supply: u64, sold: u64,
    cancellationDeadline: u64, penaltyPercentage: u64, royaltyPercentage: u64)

  /** A percentage cut of an amount: `cut` goes to the organizer, `rest` to the other party. */
  datatype Split = Split(cut: u64, rest: u64)

  /**
   * The penalty and royalty arithmetic of `cancel_ticket` and
   * `buy_resale_ticket`: the cut is amount*pct div 100 (0 when pct is 0) and
   * the rest is amount minus the cut. uint64 arithmetic rejects an overflowing
   * product or a negative difference.
   */
  function PercentSplit(amount: u64, pct: u64): (r: Result<Split, Abort>)
    ensures r.Ok? ==> r.value.cut + r.value.rest == amount
    ensures r.Ok? ==> r.value.cut * 100 <= amount * pct < r.value.cut * 100 + 100
    ensures pct == 0 ==> r == Ok(Split(0, amount))
    ensures pct <= 100 ==> (r.Ok? <==> amount * pct < U64_LIMIT)
    ensures pct > 0 && amount * pct >= U64_LIMIT ==> r == Err(Overflow)
  {
    if pct == 0 then Ok(Split(0, amount))
    else if amount * pct >= U64_LIMIT then Err(Overflow)
    else
      var product := amount * pct;
      var cut := product / 100;
      assert cut * 100 <= product < cut * 100 + 100;
      assert pct <= 100 ==> cut <= amount by {
        if pct <= 100 { ScaledCutBound(amount, pct, product); }
      }
      if cut > amount then Err(Underflow) else Ok(Split(cut, amount - cut))
  }

  /** With pct at most 100, the product is at most 100*amount, so its hundredth is at most amount. */
  lemma ScaledCutBound(amount: nat, pct: nat, product: nat)
    requires pct <= 100 && product == amount * pct
    ensures product / 100 <= amount
  {
    assert product <= amount * 100 by {
      assert amount * (100 - pct) >= 0;
    }
  }

  /** The payments a split produces: the cut to the organizer only when it is positive, then the rest. */
  function SplitPayments(s: Split, organizer: Address, other: Address): (r: seq<InnerTxn>)
    ensures |r| == if s.cut > 0 then 2 else 1
    ensures r[|r| - 1] == Pay(other, s.rest)
    ensures s.cut > 0 ==> r[0] == Pay(organizer, s.cut)
  {
    (if s.cut > 0 then [Pay(organizer, s.cut)] else []) + [Pay(other, s.rest)]
  }

  /** The total the payments of a split move: exactly the amount split. */
  function PaidOut(txns: seq<InnerTxn>): nat {
    if txns == [] then 0
    else (if txns[0].Pay? then txns[0].amount else 0) + PaidOut(txns[1..])
  }

  /** The payments of a split move exactly the amount that was split. */
  lemma SplitPaysAmount(s: Split, organizer: Address, other: Address)
    ensures PaidOut(SplitPayments(s, organizer, other)) == s.cut + s.rest
  {
    var ps := SplitPayments(s, organizer, other);
    if s.cut > 0 {
      assert ps == [Pay(organizer, s.cut), Pay(other, s.rest)];
      assert ps[1..] == [Pay(other, s.rest)];
      assert PaidOut(ps[1..]) == s.rest by {
        assert ps[1..][1..] == [];
      }
    } else {
      assert ps[1..] == [];
    }
  }

  class TicketManager {
    /** `Global.creator_address`. */
    const creator: Address
    /** `Global.current_application_address`. */
    const appAddress: Address

    var price: u64
    var supply: u64
    var sold: u64
    var organizer: Address
    var cancellationDeadline: u64
    var penaltyPercentage: u64
    var royaltyPercentage: u64
    var tickets: map<u64, TicketInfo>
    /** Inner transactions submitted so far, oldest first. */
    var submitted: seq<InnerTxn>

    /** The invariant every method keeps: never oversold, percentages at most 100. */
    ghost predicate Valid()
      reads this
    {
      sold <= supply && penaltyPercentage <= 100 && royaltyPercentage <= 100
    }

    /** The event configuration (everything global except `sold`) is the same as before. */
    twostate predicate EventUnchanged()
      reads this
    {
      && price == old(price) && supply == old(supply) && organizer == old(organizer)
      && cancellationDeadline == old(cancellationDeadline)
      && penaltyPercentage == old(penaltyPercentage) && royaltyPercentage == old(royaltyPercentage)
    }

    /** Ticket `id` existed and moved along one lifecycle step; no other ticket changed. */
    twostate predicate OneTicketStepped(id: u64)
      reads this
    {
      && id in old(tickets) && id in tickets
      && Step(old(tickets)[id].status, tickets[id].status)
      && tickets.Keys == old(tickets).Keys
      && (forall k :: k in tickets && k != id ==> tickets[k] == old(tickets)[k])
    }

    /** The state created with the application: zero price, supply and sales; 10% penalty, 5% royalty. */
    constructor (creator: Address, appAddress: Address)
      ensures Valid()
      ensures this.creator == creator && this.appAddress == appAddress
      ensures price == 0 && supply == 0 && sold == 0 && organizer == ZeroAddress()
      ensures cancellationDeadline == 0 && penaltyPercentage == 10 && royaltyPercentage == 5
      ensures tickets == map[] && submitted == []
    {
      this.creator := creator;
      this.appAddress := appAddress;
      price, supply, sold := 0, 0, 0;
      organizer := ZeroAddress();
      cancellationDeadline := 0;
      penaltyPercentage, royaltyPercentage := 10, 5;
      tickets := map[];
      submitted := [];
    }

    /** `create_event`: creator only, percentages at most 100; resets `sold` and makes the sender the organizer. */
    method CreateEvent(sender: Address, newPrice: u64, newSupply: u64, deadline: u64, penalty: u64, royalty: u64)
      returns (r: Result<(), Abort>)
      requires Valid()
      modifies this
      ensures Valid()
      ensures sender != creator ==> r == Err(OnlyCreator)
      ensures r.Ok? <==> sender == creator && penalty <= 100 && royalty <= 100
      ensures r.Err? ==> unchanged(this)
      ensures r.Ok? ==>
        && price == newPrice && supply == newSupply && sold == 0 && organizer == sender
        && cancellationDeadline == deadline && penaltyPercentage == penalty && royaltyPercentage == royalty
        && tickets == old(tickets) && submitted == old(submitted)
    {
      if sender != creator { return Err(OnlyCreator); }
      if penalty > 100 { return Err(PenaltyAbove100); }
      if royalty > 100 { return Err(RoyaltyAbove100); }
      price, supply, sold := newPrice, newSupply, 0;
      organizer := sender;
      cancellationDeadline := deadline;
      penaltyPercentage, royaltyPercentage := penalty, royalty;
      return Ok(());
    }

    /**
     * `buy_ticket`: the grouped payment must pay exactly `price` to the
     * application and a ticket must be left; mints the ticket asset `minted`
     * and records the sender as its Pending owner. Returns the asset id.
     */
    method BuyTicket(sender: Address, payment: Payment, minted: u64) returns (r: Result<u64, Abort>)
      requires Valid()
      modifies this
      ensures Valid() && EventUnchanged()
      ensures payment.receiver != appAddress ==> r == Err(PayTheContract)
      ensures r.Ok? <==> payment.receiver == appAddress && payment.amount == old(price) && old(sold) < old(supply)
      ensures r.Err? ==> unchanged(this)
      ensures r.Ok? ==>
        && r.value == minted
        && sold == old(sold) + 1
        && tickets == old(tickets)[minted := TicketInfo(sender, Pending, 0)]
        && submitted == old(submitted) + [MintTicket(minted, appAddress)]
    {
      if payment.receiver != appAddress { return Err(PayTheContract); }
      if payment.amount != price { return Err(IncorrectPaymentAmount); }
      if !(sold < supply) { return Err(SoldOut); }
      sold := sold + 1;
      submitted := submitted + [MintTicket(minted, appAddress)];
      tickets := tickets[minted := TicketInfo(sender, Pending, 0)];
      return Ok(minted);
    }

    /** `claim_ticket`: the owner of a Pending ticket receives the asset and the ticket becomes Claimed. */
    method ClaimTicket(sender: Address, ticketId: u64) returns (r: Result<(), Abort>)
      requires Valid()
      modifies this
      ensures Valid() && EventUnchanged() && sold == old(sold)
      ensures ticketId !in old(tickets) ==> r == Err(NoSuchBox)
      ensures r.Ok? <==>
        ticketId in old(tickets) && old(tickets)[ticketId].owner == sender && old(tickets)[ticketId].status == Pending
      ensures r.Err? ==> unchanged(this)
      ensures r.Ok? ==>
        && OneTicketStepped(ticketId)
        && tickets == old(tickets)[ticketId := old(tickets)[ticketId].(status := Claimed)]
        && submitted == old(submitted) + [AssetTransfer(ticketId, sender, 1)]
    {
      if ticketId !in tickets { return Err(NoSuchBox); }
      var ticket := tickets[ticketId];
      if sender != ticket.owner { return Err(NotTicketOwner); }
      if ticket.status != Pending { return Err(AlreadyClaimed); }
      submitted := submitted + [AssetTransfer(ticketId, sender, 1)];
      tickets := tickets[ticketId := ticket.(status := Claimed)];
      return Ok(());
    }

    /** `check_in`: the organizer marks a Claimed ticket Used. */
    method CheckIn(sender: Address, ticketId: u64) returns (r: Result<(), Abort>)
      requires Valid()
      modifies this
      ensures Valid() && EventUnchanged() && sold == old(sold) && submitted == old(submitted)
      ensures ticketId in old(tickets) && sender != organizer ==> r == Err(OnlyOrganizer)
      ensures r.Ok? <==> ticketId in old(tickets) && sender == organizer && old(tickets)[ticketId].status == Claimed
      ensures r.Err? ==> unchanged(this)
      ensures r.Ok? ==>
        && OneTicketStepped(ticketId)
        && tickets == old(tickets)[ticketId := old(tickets)[ticketId].(status := Used)]
    {
      if ticketId !in tickets { return Err(NoSuchBox); }
      var ticket := tickets[ticketId];
      if sender != organizer { return Err(OnlyOrganizer); }
      if ticket.status != Claimed { return Err(NotClaimed); }
      tickets := tickets[ticketId := ticket.(status := Used)];
      return Ok(());
    }

    /** `withdraw_funds`: the organizer is paid `amount`. */
    method WithdrawFunds(sender: Address, amount: u64) returns (r: Result<(), Abort>)
      requires Valid()
      modifies this
      ensures Valid() && EventUnchanged() && sold == old(sold) && tickets == old(tickets)
      ensures r.Ok? <==> sender == organizer
      ensures r.Err? ==> r.error == OnlyOrganizer && unchanged(this)
      ensures r.Ok? ==> submitted == old(submitted) + [Pay(sender, amount)]
    {
      if sender != organizer { return Err(OnlyOrganizer); }
      submitted := submitted + [Pay(sender, amount)];
      return Ok(());
    }

    /**
     * `cancel_ticket`: before the deadline, the owner of a Pending ticket gets
     * the price back minus the penalty, which goes to the organizer; the ticket
     * becomes Cancelled and `sold` is not decremented.
     */
    method CancelTicket(sender: Address, ticketId: u64, latestTimestamp: u64) returns (r: Result<(), Abort>)
      requires Valid()
      modifies this
      ensures Valid() && EventUnchanged() && sold == old(sold)
      ensures r.Ok? <==>
        && ticketId in old(tickets) && old(tickets)[ticketId].owner == sender
        && old(tickets)[ticketId].status == Pending
        && latestTimestamp < cancellationDeadline
        && PercentSplit(price, penaltyPercentage).Ok?
      ensures r.Err? ==> unchanged(this)
      ensures r.Ok? ==>
        var split := PercentSplit(price, penaltyPercentage).value;
        && OneTicketStepped(ticketId)
        && tickets == old(tickets)[ticketId := old(tickets)[ticketId].(status := Cancelled)]
        && submitted == old(submitted) + SplitPayments(split, organizer, sender)
        && split.cut + split.rest == price
    {
      if ticketId !in tickets { return Err(NoSuchBox); }
      var ticket := tickets[ticketId];
      if sender != ticket.owner { return Err(NotTicketOwner); }
      if ticket.status != Pending { return Err(AlreadyClaimed); }
      if !(latestTimestamp < cancellationDeadline) { return Err(DeadlinePassed); }
      var split := PercentSplit(price, penaltyPercentage);
      if split.Err? { return Err(split.error); }
      submitted := submitted + SplitPayments(split.value, organizer, ticket.owner);
      tickets := tickets[ticketId := ticket.(status := Cancelled)];
      return Ok(());
    }

    /** `list_for_resale`: the owner of a Claimed ticket offers it at a positive price. */
    method ListForResale(sender: Address, ticketId: u64, resalePrice: u64) returns (r: Result<(), Abort>)
      requires Valid()
      modifies this
      ensures Valid() && EventUnchanged() && sold == old(sold) && submitted == old(submitted)
      ensures ticketId !in old(tickets) ==> r == Err(TicketDoesNotExist)
      ensures r.Ok? <==>
        && ticketId in old(tickets) && old(tickets)[ticketId].owner == sender
        && old(tickets)[ticketId].status == Claimed && resalePrice > 0
      ensures r.Err? ==> unchanged(this)
      ensures r.Ok? ==>
        && OneTicketStepped(ticketId)
        && tickets == old(tickets)[ticketId := TicketInfo(sender, Listed, resalePrice)]
    {
      if ticketId !in tickets { return Err(TicketDoesNotExist); }
      var ticket := tickets[ticketId];
      if sender != ticket.owner { return Err(NotTicketOwner); }
      if ticket.status != Claimed { return Err(NotClaimed); }
      if resalePrice == 0 { return Err(ZeroResalePrice); }
      tickets := tickets[ticketId := TicketInfo(ticket.owner, Listed, resalePrice)];
      return Ok(());
    }

    /**
     * `buy_resale_ticket`: the buyer pays exactly the resale price to the
     * application; the organizer gets the royalty, the seller the rest, the
     * buyer the asset, and the ticket is Claimed by the buyer with no resale price.
     */
    method BuyResaleTicket(sender: Address, ticketId: u64, payment: Payment) returns (r: Result<(), Abort>)
      requires Valid()
      modifies this
      ensures Valid() && EventUnchanged() && sold == old(sold)
      ensures r.Ok? <==>
        && ticketId in old(tickets) && old(tickets)[ticketId].status == Listed
        && payment.receiver == appAddress && payment.amount == old(tickets)[ticketId].resalePrice
        && payment.amount > 0
        && PercentSplit(payment.amount, royaltyPercentage).Ok?
      ensures r.Err? ==> unchanged(this)
      ensures r.Ok? ==>
        var split := PercentSplit(payment.amount, royaltyPercentage).value;
        var seller := old(tickets)[ticketId].owner;
        && OneTicketStepped(ticketId)
        && tickets == old(tickets)[ticketId := TicketInfo(sender, Claimed, 0)]
        && submitted == old(submitted) + SplitPayments(split, organizer, seller) + [AssetTransfer(ticketId, sender, 1)]
        && split.cut + split.rest == payment.amount
    {
      if ticketId !in tickets { return Err(NoSuchBox); }
      var ticket := tickets[ticketId];
      if ticket.status != Listed { return Err(NotListed); }
      if payment.receiver != appAddress { return Err(PayTheContract); }
      if payment.amount != ticket.resalePrice { return Err(IncorrectPaymentAmount); }
      if ticket.resalePrice == 0 { return Err(InvalidResalePrice); }
      var split := PercentSplit(ticket.resalePrice, royaltyPercentage);
      if split.Err? { return Err(split.error); }
      submitted := submitted + SplitPayments(split.value, organizer, ticket.owner) + [AssetTransfer(ticketId, sender, 1)];
      tickets := tickets[ticketId := TicketInfo(sender, Claimed, 0)];
      return Ok(());
    }

    /** `delist_resale_ticket`: the owner withdraws a Listed ticket; it is Claimed again with no resale price. */
    method DelistResaleTicket(sender: Address, ticketId: u64) returns (r: Result<(), Abort>)
      requires Valid()
      modifies this
      ensures Valid() && EventUnchanged() && sold == old(sold) && submitted == old(submitted)
      ensures r.Ok? <==>
        ticketId in old(tickets) && old(tickets)[ticketId].owner == sender && old(tickets)[ticketId].status == Listed
      ensures r.Err? ==> unchanged(this)
      ensures r.Ok? ==>
        && OneTicketStepped(ticketId)
        && tickets == old(tickets)[ticketId := TicketInfo(sender, Claimed, 0)]
    {
      if ticketId !in tickets { return Err(NoSuchBox); }
      var ticket := tickets[ticketId];
      if sender != ticket.owner { return Err(NotTicketOwner); }
      if ticket.status != Listed { return Err(NotListed); }
      tickets := tickets[ticketId := TicketInfo(ticket.owner, Claimed, 0)];
      return Ok(());
    }

    /** `get_event_info` (read-only). */
    method GetEventInfo() returns (info: EventInfo)
      ensures info.price == price && info.supply == supply && info.sold == sold
      ensures info.cancellationDeadline == cancellationDeadline
      ensures info.penaltyPercentage == penaltyPercentage && info.royaltyPercentage == royaltyPercentage
    {
      info := EventInfo(price, supply, sold, cancellationDeadline, penaltyPercentage, royaltyPercentage);
    }

    /** `get_ticket_info` (read-only); reading a missing box is rejected. */
    method GetTicketInfo(ticketId: u64) returns (r: Result<TicketInfo, Abort>)
      ensures r.Ok? <==> ticketId in tickets
      ensures r.Ok? ==> r.value == tickets[ticketId]
    {
      if ticketId !in tickets { return Err(NoSuchBox); }
      return Ok(tickets[ticketId]);
    }

    /**
     * The global state as the node reports it: Algorand Python stores each
     * field under its attribute name.
     */
    function GlobalView(): (gs: seq<StateEntry>)
      reads this
      ensures UniqueKeys(gs)
    {
      [ StateEntry("price", UintValue(price)),
        StateEntry("supply", UintValue(supply)),
        StateEntry("sold", UintValue(sold)),
        StateEntry("organizer", BytesValue(organizer)),
        StateEntry("cancellation_deadline", UintValue(cancellationDeadline)),
        StateEntry("penalty_percentage", UintValue(penaltyPercentage)),
        StateEntry("royalty_percentage", UintValue(royaltyPercentage)) ]
    }
  }

  /** With the percentage bound every state keeps, a split never takes more than the amount. */
  lemma CutAtMostAmount(amount: u64, pct: u64)
    requires pct <= 100 && PercentSplit(amount, pct).Ok?
    ensures PercentSplit(amount, pct).value.cut <= amount
    ensures pct < 100 && amount > 0 ==> PercentSplit(amount, pct).value.rest > 0
  {
    var s := PercentSplit(amount, pct).value;
    if pct < 100 && amount > 0 {
      assert s.cut * 100 <= amount * pct;
      assert amount * pct < amount * 100;
    }
  }
}
