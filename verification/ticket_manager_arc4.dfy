/**
 * The basic Algorand Python ticket manager: price, supply, sold count and
 * organizer in global state, and a box map from ticket (asset) id to the
 * ticket's owner and status (Pending, Claimed or Used).
 */
module TicketManagerArc4 {
  import opened Wrappers
  import opened Bytes
  import opened Avm
  import opened TicketStatus

  datatype TicketInfo = TicketInfo(owner: Address, status: Status)

  /** What `get_event_info` returns. */
  datatype EventInfo = EventInfo(price: u64, supply: u64, sold: u64)

  class TicketManager {
    const creator: Address
    const appAddress: Address

    var price: u64
    var supply: u64
    var sold: u64
    var organizer: Address
    var tickets: map<u64, TicketInfo>
    /** Inner transactions submitted so far, oldest first. */
    var submitted: seq<InnerTxn>

    /** Never oversold, and no ticket ever leaves the three-state lifecycle this contract knows. */
    ghost predicate Valid()
      reads this
    {
      && sold <= supply
      && forall id :: id in tickets ==> tickets[id].status in {Pending, Claimed, Used}
    }

    constructor (creator: Address, appAddress: Address)
      ensures Valid()
      ensures this.creator == creator && this.appAddress == appAddress
      ensures price == 0 && supply == 0 && sold == 0 && organizer == ZeroAddress()
      ensures tickets == map[] && submitted == []
    {
      this.creator := creator;
      this.appAddress := appAddress;
      price, supply, sold := 0, 0, 0;
      organizer := ZeroAddress();
      tickets := map[];
      submitted := [];
    }

    /** `create_event`: creator only; sets price and supply, resets `sold`, makes the sender the organizer. */
    method CreateEvent(sender: Address, newPrice: u64, newSupply: u64) returns (r: Result<(), Abort>)
      requires Valid()
      modifies this
      ensures Valid()
      ensures r.Ok? <==> sender == creator
      ensures r.Err? ==> r.error == OnlyCreator && unchanged(this)
      ensures r.Ok? ==>
        && price == newPrice && supply == newSupply && sold == 0 && organizer == sender
        && tickets == old(tickets) && submitted == old(submitted)
    {
      if sender != creator { return Err(OnlyCreator); }
      price, supply, sold := newPrice, newSupply, 0;
      organizer := sender;
      return Ok(());
    }

    /** `buy_ticket`: exact payment to the application while tickets are left; mints `minted` for the sender. */
    method BuyTicket(sender: Address, payment: Payment, minted: u64) returns (r: Result<u64, Abort>)
      requires Valid()
      modifies this
      ensures Valid()
      ensures price == old(price) && supply == old(supply) && organizer == old(organizer)
      ensures r.Ok? <==> payment.receiver == appAddress && payment.amount == old(price) && old(sold) < old(supply)
      ensures r.Err? ==> unchanged(this)
      ensures r.Ok? ==>
        && r.value == minted
        && sold == old(sold) + 1
        && tickets == old(tickets)[minted := TicketInfo(sender, Pending)]
        && submitted == old(submitted) + [MintTicket(minted, appAddress)]
    {
      if payment.receiver != appAddress { return Err(PayTheContract); }
      if payment.amount != price { return Err(IncorrectPaymentAmount); }
      if !(sold < supply) { return Err(SoldOut); }
      sold := sold + 1;
      submitted := submitted + [MintTicket(minted, appAddress)];
      tickets := tickets[minted := TicketInfo(sender, Pending)];
      return Ok(minted);
    }

    /** `claim_ticket`: the owner of a Pending ticket receives the asset; the ticket becomes Claimed. */
    method ClaimTicket(sender: Address, ticketId: u64) returns (r: Result<(), Abort>)
      requires Valid()
      modifies this
      ensures Valid()
      ensures price == old(price) && supply == old(supply) && sold == old(sold) && organizer == old(organizer)
      ensures r.Ok? <==>
        ticketId in old(tickets) && old(tickets)[ticketId].owner == sender && old(tickets)[ticketId].status == Pending
      ensures r.Err? ==> unchanged(this)
      ensures r.Ok? ==>
        && tickets == old(tickets)[ticketId := TicketInfo(sender, Claimed)]
        && submitted == old(submitted) + [AssetTransfer(ticketId, sender, 1)]
    {
      if ticketId !in tickets { return Err(NoSuchBox); }
      var ticket := tickets[ticketId];
      if sender != ticket.owner { return Err(NotTicketOwner); }
      if ticket.status != Pending { return Err(AlreadyClaimed); }
      submitted := submitted + [AssetTransfer(ticketId, sender, 1)];
      tickets := tickets[ticketId := TicketInfo(ticket.owner, Claimed)];
      return Ok(());
    }

    /** `check_in`: the organizer marks a Claimed ticket Used; the owner is kept. */
    method CheckIn(sender: Address, ticketId: u64) returns (r: Result<(), Abort>)
      requires Valid()
      modifies this
      ensures Valid()
      ensures price == old(price) && supply == old(supply) && sold == old(sold) && organizer == old(organizer)
      ensures submitted == old(submitted)
      ensures r.Ok? <==> ticketId in old(tickets) && sender == organizer && old(tickets)[ticketId].status == Claimed
      ensures r.Err? ==> unchanged(this)
      ensures r.Ok? ==> tickets == old(tickets)[ticketId := old(tickets)[ticketId].(status := Used)]
    {
      if ticketId !in tickets { return Err(NoSuchBox); }
      var ticket := tickets[ticketId];
      if sender != organizer { return Err(OnlyOrganizer); }
      if ticket.status != Claimed { return Err(NotClaimed); }
      tickets := tickets[ticketId := TicketInfo(ticket.owner, Used)];
      return Ok(());
    }

    /** `withdraw_funds`: the organizer is paid `amount`. */
    method WithdrawFunds(sender: Address, amount: u64) returns (r: Result<(), Abort>)
      requires Valid()
      modifies this
      ensures Valid()
      ensures price == old(price) && supply == old(supply) && sold == old(sold) && organizer == old(organizer)
      ensures tickets == old(tickets)
      ensures r.Ok? <==> sender == organizer
      ensures r.Err? ==> r.error == OnlyOrganizer && unchanged(this)
      ensures r.Ok? ==> submitted == old(submitted) + [Pay(sender, amount)]
    {
      if sender != organizer { return Err(OnlyOrganizer); }
      submitted := submitted + [Pay(sender, amount)];
      return Ok(());
    }

    /** `get_event_info` (read-only). */
    method GetEventInfo() returns (info: EventInfo)
      ensures info.price == price && info.supply == supply && info.sold == sold
    {
      info := EventInfo(price, supply, sold);
    }
  }
}
