/**
 * The PyTeal ticket manager the web front end deploys. Global state "Price",
 * "Supply", "Sold" and "Organizer"; the n-th ticket sold lives in the box
 * "tickets" ++ Itob(n), n counting from 1, whose 41-byte value is the asset
 * id (8 bytes), the owner (32 bytes) and one status byte (0 Pending,
 * 1 Claimed, 2 Used). Everything here works on raw bytes.
 */
module IndexedTicketManager {
  import opened Wrappers
  import opened Bytes
  import opened Avm

  const PENDING: byte := 0
  const CLAIMED: byte := 1
  const USED: byte := 2

  /** The ASCII bytes of "tickets". */
  function TicketsPrefix(): (p: seq<byte>)
    ensures |p| == 7
  {
    [0x74, 0x69, 0x63, 0x6B, 0x65, 0x74, 0x73]
  }

  /** The ASCII bytes of "AssetID:", which prefixes the id `buy_ticket` logs. */
  function AssetIdLogPrefix(): (p: seq<byte>)
    ensures |p| == 8
  {
    [0x41, 0x73, 0x73, 0x65, 0x74, 0x49, 0x44, 0x3A]
  }

  /** The box key of the ticket with the given index. */
  function TicketKey(index: u64): (k: seq<byte>)
    ensures |k| == 15 && k[..7] == TicketsPrefix() && k[7..] == Itob(index)
  {
    TicketsPrefix() + Itob(index)
  }

  /** Different indices never share a box. */
  lemma TicketKeyInjective(a: u64, b: u64)
    requires TicketKey(a) == TicketKey(b)
    ensures a == b
  {
    assert TicketKey(a)[7..] == TicketKey(b)[7..];
    ItobInjective(a, b);
  }

  /** The value `buy_ticket` stores: asset id, buyer, Pending. */
  function TicketValue(asset: u64, owner: Address): (v: seq<byte>)
    ensures |v| == 41
    ensures v[..8] == Itob(asset) && v[8..40] == owner && v[40] == PENDING
  {
    Itob(asset) + owner + [PENDING]
  }

  /** A ticket value with its status byte (offset 40) rewritten; asset id, owner and length are kept. */
  function WithStatus(v: seq<byte>, b: byte): (r: seq<byte>)
    requires |v| >= 41
    ensures |r| == |v| && r[40] == b && r[..40] == v[..40] && r[41..] == v[41..]
  {
    v[40 := b]
  }

  /** The keys of tickets 1..n. */
  ghost function KeysUpTo(n: u64): (ks: set<seq<byte>>)
    ensures forall i: u64 :: 1 <= i <= n ==> TicketKey(i) in ks
  {
    set i: u64 | 1 <= i <= n :: TicketKey(i)
  }

  class IndexedTicketManager {
    const creator: Address
    const appAddress: Address

    var price: u64
    var supply: u64
    var sold: u64
    var organizer: Option<Address>
    var boxes: map<seq<byte>, seq<byte>>
    var submitted: seq<InnerTxn>
    /** The application's log: `buy_ticket` logs "AssetID:" ++ Itob(asset). */
    var logs: seq<seq<byte>>

    /**
     * Never oversold; tickets 1..Sold all have a box; every box is a ticket
     * key holding 41 bytes with a status byte of at most 2.
     */
    ghost predicate Valid()
      reads this
    {
      && sold <= supply
      && (forall i: u64 :: 1 <= i <= sold ==> TicketKey(i) in boxes)
      && (forall k :: k in boxes ==> |k| == 15 && k[..7] == TicketsPrefix() && |boxes[k]| == 41 && boxes[k][40] <= USED)
    }

    /** Since the event was created once, the boxes are exactly tickets 1..Sold. */
    ghost predicate Exact()
      reads this
    {
      boxes.Keys == KeysUpTo(sold)
    }

    constructor (creator: Address, appAddress: Address)
      ensures Valid() && Exact()
      ensures this.creator == creator && this.appAddress == appAddress
      ensures price == 0 && supply == 0 && sold == 0 && organizer == None
      ensures boxes == map[] && submitted == [] && logs == []
    {
      this.creator := creator;
      this.appAddress := appAddress;
      price, supply, sold := 0, 0, 0;
      organizer := None;
      boxes := map[];
      submitted := [];
      logs := [];
    }

    /** `create_event`: creator only; sets price and supply, resets "Sold", makes the sender the organizer. */
    method CreateEvent(sender: Address, newPrice: u64, newSupply: u64) returns (r: Result<(), Abort>)
      requires Valid()
      modifies this
      ensures Valid()
      ensures r.Ok? <==> sender == creator
      ensures r.Err? ==> r.error == OnlyCreator && unchanged(this)
      ensures r.Ok? ==>
        && price == newPrice && supply == newSupply && sold == 0 && organizer == Some(sender)
        && boxes == old(boxes) && submitted == old(submitted) && logs == old(logs)
      ensures r.Ok? && old(boxes) == map[] ==> Exact()
    {
      if sender != creator { return Err(OnlyCreator); }
      price, supply, sold := newPrice, newSupply, 0;
      organizer := Some(sender);
      return Ok(());
    }

    /**
     * `buy_ticket`: exact payment to the application while tickets are left.
     * "Sold" is incremented first, and the box key reads it again, so the new
     * ticket is stored under the new count.
     */
    method BuyTicket(sender: Address, payment: Payment, minted: u64) returns (r: Result<(), Abort>)
      requires Valid()
      modifies this
      ensures Valid()
      ensures price == old(price) && supply == old(supply) && organizer == old(organizer)
      ensures r.Ok? <==> payment.receiver == appAddress && payment.amount == old(price) && old(sold) < old(supply)
      ensures r.Err? ==> unchanged(this)
      ensures r.Ok? ==>
        && sold == old(sold) + 1
        && boxes == old(boxes)[TicketKey(sold) := TicketValue(minted, sender)]
        && submitted == old(submitted) + [MintTicket(minted, ZeroAddress())]
        && logs == old(logs) + [AssetIdLogPrefix() + Itob(minted)]
      ensures r.Ok? && old(Exact()) ==> Exact()
    {
      if payment.receiver != appAddress { return Err(PayTheContract); }
      if payment.amount != price { return Err(IncorrectPaymentAmount); }
      if !(sold < supply) { return Err(SoldOut); }
      var newSold := sold + 1;
      var key := TicketKey(newSold);
      var put := BoxPut(boxes, key, TicketValue(minted, sender));
      if put.None? {
        assert false;
        return Err(BoxSizeMismatch);
      }
      BuyKeepsLayout(boxes, sold, key, TicketValue(minted, sender), put.value);
      if boxes.Keys == KeysUpTo(sold) {
        KeysUpToStep(newSold);
      }
      sold := newSold;
      submitted := submitted + [MintTicket(minted, ZeroAddress())];
      boxes := put.value;
      logs := logs + [AssetIdLogPrefix() + Itob(minted)];
      return Ok(());
    }

    /**
     * `claim_ticket`: the box must exist, bytes 8..40 must be the sender and
     * byte 40 Pending; the asset named in bytes 0..8 goes to the sender and
     * only byte 40 is rewritten, to Claimed.
     */
    method ClaimTicket(sender: Address, index: u64) returns (r: Result<(), Abort>)
      requires Valid()
      modifies this
      ensures Valid()
      ensures price == old(price) && supply == old(supply) && sold == old(sold) && organizer == old(organizer)
      ensures logs == old(logs)
      ensures TicketKey(index) !in old(boxes) ==> r == Err(NoSuchBox)
      ensures r.Ok? <==>
        var key := TicketKey(index);
        key in old(boxes) && old(boxes)[key][8..40] == sender && old(boxes)[key][40] == PENDING
      ensures r.Err? ==> unchanged(this)
      ensures r.Ok? ==>
        var key := TicketKey(index);
        && boxes == old(boxes)[key := WithStatus(old(boxes)[key], CLAIMED)]
        && submitted == old(submitted) + [AssetTransfer(FromBE(old(boxes)[key][..8]), sender, 1)]
    {
      var key := TicketKey(index);
      if key !in boxes { return Err(NoSuchBox); }
      var value := boxes[key];
      var assetBytes := Extract(value, 0, 8);
      if assetBytes.None? { return Err(ExtractOutOfRange); }
      var asset := Btoi(assetBytes.value);
      var owner := Extract(value, 8, 32);
      var status := Extract(value, 40, 1);
      if asset.None? || owner.None? || status.None? { return Err(ExtractOutOfRange); }
      if sender != owner.value { return Err(NotTicketOwner); }
      if status.value != [PENDING] { return Err(AlreadyClaimed); }
      assert assetBytes.value == value[..8];
      submitted := submitted + [AssetTransfer(asset.value, sender, 1)];
      var replaced := Replace(value, 40, [CLAIMED]);
      if replaced.None? {
        assert false;
        return Err(ExtractOutOfRange);
      }
      assert replaced.value == WithStatus(value, CLAIMED);
      boxes := boxes[key := replaced.value];
      return Ok(());
    }

    /** `check_in`: the box must exist, the sender must be the organizer and byte 40 Claimed; it becomes Used. */
    method CheckIn(sender: Address, index: u64) returns (r: Result<(), Abort>)
      requires Valid()
      modifies this
      ensures Valid()
      ensures price == old(price) && supply == old(supply) && sold == old(sold) && organizer == old(organizer)
      ensures submitted == old(submitted) && logs == old(logs)
      ensures r.Ok? <==>
        var key := TicketKey(index);
        key in old(boxes) && organizer == Some(sender) && old(boxes)[key][40] == CLAIMED
      ensures r.Err? ==> unchanged(this)
      ensures r.Ok? ==>
        var key := TicketKey(index);
        boxes == old(boxes)[key := WithStatus(old(boxes)[key], USED)]
    {
      var key := TicketKey(index);
      if key !in boxes { return Err(NoSuchBox); }
      if organizer.None? { return Err(OrganizerUnset); }
      if sender != organizer.value { return Err(OnlyOrganizer); }
      var status := Extract(boxes[key], 40, 1);
      if status.None? { return Err(ExtractOutOfRange); }
      if status.value != [CLAIMED] { return Err(NotClaimed); }
      var replaced := Replace(boxes[key], 40, [USED]);
      if replaced.None? {
        assert false;
        return Err(ExtractOutOfRange);
      }
      assert replaced.value == WithStatus(old(boxes)[key], USED);
      boxes := boxes[key := replaced.value];
      return Ok(());
    }

    /** `withdraw_funds`: the organizer is paid `amount`. */
    method WithdrawFunds(sender: Address, amount: u64) returns (r: Result<(), Abort>)
      requires Valid()
      modifies this
      ensures Valid()
      ensures price == old(price) && supply == old(supply) && sold == old(sold) && organizer == old(organizer)
      ensures boxes == old(boxes) && logs == old(logs)
      ensures r.Ok? <==> organizer == Some(sender)
      ensures r.Err? ==> unchanged(this)
      ensures r.Ok? ==> submitted == old(submitted) + [Pay(sender, amount)]
    {
      if organizer.None? { return Err(OrganizerUnset); }
      if sender != organizer.value { return Err(OnlyOrganizer); }
      submitted := submitted + [Pay(sender, amount)];
      return Ok(());
    }

    /** `get_event_info` (read-only): (Price, Supply, Sold). */
    method GetEventInfo() returns (info: (u64, u64, u64))
      ensures info == (price, supply, sold)
    {
      info := (price, supply, sold);
    }
  }

  /** Storing ticket n+1 keeps every box of tickets 1..n and the 41-byte layout. */
  lemma BuyKeepsLayout(boxes: map<seq<byte>, seq<byte>>, n: u64, key: seq<byte>, value: seq<byte>, after: map<seq<byte>, seq<byte>>)
    requires n < U64_LIMIT - 1 && key == TicketKey(n + 1) && after == boxes[key := value]
    requires |value| == 41 && value[40] <= USED
    requires forall i: u64 :: 1 <= i <= n ==> TicketKey(i) in boxes
    requires forall k :: k in boxes ==> |k| == 15 && k[..7] == TicketsPrefix() && |boxes[k]| == 41 && boxes[k][40] <= USED
    ensures forall i: u64 :: 1 <= i <= n + 1 ==> TicketKey(i) in after
    ensures forall k :: k in after ==> |k| == 15 && k[..7] == TicketsPrefix() && |after[k]| == 41 && after[k][40] <= USED
  {
  }

  /** Adding ticket n to tickets 1..n-1 gives tickets 1..n. */
  lemma KeysUpToStep(n: u64)
    requires n >= 1
    ensures KeysUpTo(n) == KeysUpTo(n - 1) + {TicketKey(n)}
  {
    forall k | k in KeysUpTo(n)
      ensures k in KeysUpTo(n - 1) + {TicketKey(n)}
    {
      var i: u64 :| 1 <= i <= n && k == TicketKey(i);
      if i < n {
        assert k in KeysUpTo(n - 1);
      }
    }
  }
}
