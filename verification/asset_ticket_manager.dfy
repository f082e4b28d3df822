/**
 * The first PyTeal ticket manager. Global state "Price", "Supply", "Sold" and
 * "Organizer"; one box per ticket, keyed by the 8-byte ticket asset id, whose
 * value is the owner's address (32 bytes) followed by one status byte
 * (0 Pending, 1 Claimed, 2 Used). Everything here works on raw bytes.
 */
module AssetTicketManager {
  import opened Wrappers
  import opened Bytes
  import opened Avm

  const PENDING: byte := 0
  const CLAIMED: byte := 1
  const USED: byte := 2

  /** The value `buy_ticket` stores: the buyer followed by the Pending byte. */
  function TicketValue(owner: Address): (v: seq<byte>)
    ensures |v| == 33 && v[..32] == owner && v[32] == PENDING
  {
    owner + [PENDING]
  }

  /** The box key of a ticket: its asset id as 8 big-endian bytes. */
  function TicketKey(asset: u64): (k: seq<byte>)
    ensures |k| == 8 && FromBE(k) == asset
  {
    Itob(asset)
  }

  /** A ticket value with its status byte (offset 32) rewritten; the owner and the length are kept. */
  function WithStatus(v: seq<byte>, b: byte): (r: seq<byte>)
    requires |v| >= 33
    ensures |r| == |v| && r[32] == b && r[..32] == v[..32] && r[33..] == v[33..]
  {
    v[32 := b]
  }

  /** Different assets never share a box. */
  lemma TicketKeyInjective(a: u64, b: u64)
    requires TicketKey(a) == TicketKey(b)
    ensures a == b
  {
    ItobInjective(a, b);
  }

  class AssetTicketManager {
    const appAddress: Address

    var price: u64
    var supply: u64
    var sold: u64
    /** None until `create_event` first runs: reading it then yields an integer, not an address. */
    var organizer: Option<Address>
    var boxes: map<seq<byte>, seq<byte>>
    var submitted: seq<InnerTxn>

    /** Never oversold; every box is an 8-byte key holding 33 bytes with a status byte of at most 2. */
    ghost predicate Valid()
      reads this
    {
      && sold <= supply
      && forall k :: k in boxes ==> |k| == 8 && |boxes[k]| == 33 && boxes[k][32] <= USED
    }

    /** The application as created: no global state written yet (every integer reads as 0) and no boxes. */
    constructor (appAddress: Address)
      ensures Valid()
      ensures this.appAddress == appAddress
      ensures price == 0 && supply == 0 && sold == 0 && organizer == None
      ensures boxes == map[] && submitted == []
    {
      this.appAddress := appAddress;
      price, supply, sold := 0, 0, 0;
      organizer := None;
      boxes := map[];
      submitted := [];
    }

    /** `create_event`: any caller sets price and supply, resets "Sold" and becomes the organizer. */
    method CreateEvent(sender: Address, newPrice: u64, newSupply: u64)
      requires Valid()
      modifies this
      ensures Valid()
      ensures price == newPrice && supply == newSupply && sold == 0 && organizer == Some(sender)
      ensures boxes == old(boxes) && submitted == old(submitted)
    {
      price, supply, sold := newPrice, newSupply, 0;
      organizer := Some(sender);
    }

    /**
     * `buy_ticket`: exact payment to the application while tickets are left;
     * mints `minted` and stores the buyer as its Pending owner under `Itob(minted)`.
     */
    method BuyTicket(sender: Address, payment: Payment, minted: u64) returns (r: Result<(), Abort>)
      requires Valid()
      modifies this
      ensures Valid()
      ensures price == old(price) && supply == old(supply) && organizer == old(organizer)
      ensures r.Ok? <==> payment.receiver == appAddress && payment.amount == old(price) && old(sold) < old(supply)
      ensures r.Err? ==> unchanged(this)
      ensures r.Ok? ==>
        && sold == old(sold) + 1
        && boxes == old(boxes)[TicketKey(minted) := TicketValue(sender)]
        && submitted == old(submitted) + [MintTicket(minted, appAddress)]
    {
      if payment.receiver != appAddress { return Err(PayTheContract); }
      if payment.amount != price { return Err(IncorrectPaymentAmount); }
      if !(sold < supply) { return Err(SoldOut); }
      var put := BoxPut(boxes, TicketKey(minted), TicketValue(sender));
      if put.None? {
        assert false;
        return Err(BoxSizeMismatch);
      }
      sold := sold + 1;
      submitted := submitted + [MintTicket(minted, appAddress)];
      boxes := put.value;
      return Ok(());
    }

    /**
     * `claim_ticket`: the box must exist, its first 32 bytes must be the
     * sender and its status byte Pending; the asset goes to the sender and
     * only the status byte is rewritten, to Claimed.
     */
    method ClaimTicket(sender: Address, ticketId: u64) returns (r: Result<(), Abort>)
      requires Valid()
      modifies this
      ensures Valid()
      ensures price == old(price) && supply == old(supply) && sold == old(sold) && organizer == old(organizer)
      ensures TicketKey(ticketId) !in old(boxes) ==> r == Err(NoSuchBox)
      ensures r.Ok? <==>
        var key := TicketKey(ticketId);
        key in old(boxes) && old(boxes)[key][..32] == sender && old(boxes)[key][32] == PENDING
      ensures r.Err? ==> unchanged(this)
      ensures r.Ok? ==>
        var key := TicketKey(ticketId);
        && boxes == old(boxes)[key := WithStatus(old(boxes)[key], CLAIMED)]
        && boxes[key][..32] == old(boxes)[key][..32]
        && submitted == old(submitted) + [AssetTransfer(ticketId, sender, 1)]
    {
      var key := TicketKey(ticketId);
      if key !in boxes { return Err(NoSuchBox); }
      var value := boxes[key];
      var owner := Extract(value, 0, 32);
      var status := Extract(value, 32, 1);
      if owner.None? || status.None? { return Err(ExtractOutOfRange); }
      if sender != owner.value { return Err(NotTicketOwner); }
      if status.value != [PENDING] { return Err(AlreadyClaimed); }
      submitted := submitted + [AssetTransfer(ticketId, sender, 1)];
      var replaced := Replace(value, 32, [CLAIMED]);
      if replaced.None? {
        assert false;
        return Err(ExtractOutOfRange);
      }
      assert replaced.value == WithStatus(value, CLAIMED);
      boxes := boxes[key := replaced.value];
      return Ok(());
    }

    /**
     * `check_in`: the box must exist, the sender must be the organizer and the
     * status byte Claimed; only the status byte is rewritten, to Used.
     */
    method CheckIn(sender: Address, ticketId: u64) returns (r: Result<(), Abort>)
      requires Valid()
      modifies this
      ensures Valid()
      ensures price == old(price) && supply == old(supply) && sold == old(sold) && organizer == old(organizer)
      ensures submitted == old(submitted)
      ensures r.Ok? <==>
        var key := TicketKey(ticketId);
        key in old(boxes) && organizer == Some(sender) && old(boxes)[key][32] == CLAIMED
      ensures TicketKey(ticketId) in old(boxes) && organizer.None? ==> r == Err(OrganizerUnset)
      ensures r.Err? ==> unchanged(this)
      ensures r.Ok? ==>
        var key := TicketKey(ticketId);
        && boxes == old(boxes)[key := WithStatus(old(boxes)[key], USED)]
        && boxes[key][..32] == old(boxes)[key][..32]
    {
      var key := TicketKey(ticketId);
      if key !in boxes { return Err(NoSuchBox); }
      if organizer.None? { return Err(OrganizerUnset); }
      if sender != organizer.value { return Err(OnlyOrganizer); }
      var value := boxes[key];
      var status := Extract(value, 32, 1);
      if status.None? { return Err(ExtractOutOfRange); }
      if status.value != [CLAIMED] { return Err(NotClaimed); }
      var replaced := Replace(value, 32, [USED]);
      if replaced.None? {
        assert false;
        return Err(ExtractOutOfRange);
      }
      assert replaced.value == WithStatus(value, USED);
      boxes := boxes[key := replaced.value];
      return Ok(());
    }
  }
}
