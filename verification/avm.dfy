/**
 * What the ticketing contracts see of the Algorand Virtual Machine: accounts,
 * the payment transaction grouped before a call, the inner transactions a
 * contract submits, and the reasons a call is rejected (every rejection rolls
 * the whole call back).
 */
module Avm {
  import opened Wrappers
  import opened Bytes

  /** A 32-byte account public key. */
  type Address = a: seq<byte> | |a| == 32 witness seq(32, _ => 0)

  /** The all-zero address (`arc4.Address()`, `Global.zero_address`). */
  function ZeroAddress(): (a: Address)
    ensures forall i :: 0 <= i < 32 ==> a[i] == 0
  {
    seq(32, _ => 0)
  }

  /** The payment transaction placed before an application call in its group. */
  datatype Payment = Payment(sender: Address, receiver: Address, amount: u64)

  /** The inner transactions a contract submits; a contract's log records them in order. */
  datatype InnerTxn =
    /** Asset creation with total 1, decimals 0, name "TICKET", unit "TKT"; `asset` is the id the ledger assigns. */
    | MintTicket(asset: u64, manager: Address)
    | AssetTransfer(asset: u64, receiver: Address, amount: u64)
    | Pay(receiver: Address, amount: u64)

  /** Why a call is rejected, after the contracts' own assertion messages where they have one. */
  datatype Abort =
    | OnlyCreator
    | PenaltyAbove100
    | RoyaltyAbove100
    | PayTheContract
    | IncorrectPaymentAmount
    | SoldOut
    | NoSuchBox
    | TicketDoesNotExist
    | NotTicketOwner
    | AlreadyClaimed
    | OnlyOrganizer
    | NotClaimed
    | DeadlinePassed
    | NotListed
    | ZeroResalePrice
    | InvalidResalePrice
    | Overflow
    | Underflow
    | ExtractOutOfRange
    | BoxSizeMismatch
    | OrganizerUnset

  /** The AVM's `extract`: `len` bytes from `start`; fails when they run past the end. */
  function Extract(v: seq<byte>, start: nat, len: nat): (r: Option<seq<byte>>)
    ensures r.Some? <==> start + len <= |v|
    ensures r.Some? ==> |r.value| == len && forall i :: 0 <= i < len ==> r.value[i] == v[start + i]
  {
    if start + len <= |v| then Some(v[start..start + len]) else None
  }

  /** `box_replace`: overwrite the bytes at `start` with `b`; fails when they run past the box's end. */
  function Replace(v: seq<byte>, start: nat, b: seq<byte>): (r: Option<seq<byte>>)
    ensures r.Some? <==> start + |b| <= |v|
    ensures r.Some? ==> |r.value| == |v|
    ensures r.Some? ==> forall i :: 0 <= i < |v| ==> r.value[i] == if start <= i < start + |b| then b[i - start] else v[i]
  {
    if start + |b| <= |v| then Some(v[..start] + b + v[start + |b|..]) else None
  }

  /** `box_put`: create the box, or overwrite an existing box of the same size; a size change is rejected. */
  function BoxPut(boxes: map<seq<byte>, seq<byte>>, key: seq<byte>, value: seq<byte>): (r: Option<map<seq<byte>, seq<byte>>>)
    ensures r.Some? <==> key !in boxes || |boxes[key]| == |value|
    ensures r.Some? ==> r.value == boxes[key := value]
  {
    if key in boxes && |boxes[key]| != |value| then None else Some(boxes[key := value])
  }
}
