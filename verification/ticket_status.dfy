/**
 * The ticket lifecycle shared by the two Algorand Python ticket managers:
 * Pending(0) -> Claimed(1) -> Used(2), Claimed <-> Listed(3), Pending -> Cancelled(4).
 */
module TicketStatus {
  import opened Bytes

  datatype Status = Pending | Claimed | Used | Listed | Cancelled

  /** The `arc4.UInt8` each status is stored as. */
  function Code(s: Status): (b: byte)
    ensures b <= 4
  {
    match s
    case Pending => 0
    case Claimed => 1
    case Used => 2
    case Listed => 3
    case Cancelled => 4
  }

  /** The status a stored byte stands for; only 0..4 are ever written. */
  function FromCode(b: byte): (s: Status)
    requires b <= 4
    ensures Code(s) == b
  {
    if b == 0 then Pending
    else if b == 1 then Claimed
    else if b == 2 then Used
    else if b == 3 then Listed
    else Cancelled
  }

  /** The transitions some contract method performs. */
  predicate Step(from: Status, to: Status) {
    || (from == Pending && to == Claimed)      // claim_ticket
    || (from == Claimed && to == Used)         // check_in
    || (from == Claimed && to == Listed)       // list_for_resale
    || (from == Listed && to == Claimed)       // delist_resale_ticket, buy_resale_ticket
    || (from == Pending && to == Cancelled)    // cancel_ticket
  }

  /** Used and Cancelled tickets are never accepted by any method. */
  predicate Terminal(s: Status) {
    s == Used || s == Cancelled
  }

  /** A run of statuses one ticket goes through, each consecutive pair a Step. */
  predicate IsRun(run: seq<Status>) {
    forall i :: 0 <= i < |run| - 1 ==> Step(run[i], run[i + 1])
  }

  /**
   * Every run that starts at purchase either never leaves Pending/Claimed/Listed,
   * or ends at its first terminal status; a ticket is checked in at most once
   * and never both used and cancelled.
   */
  lemma {:induction false} TerminalEndsRun(run: seq<Status>, k: nat)
    requires IsRun(run) && k < |run| && Terminal(run[k])
    ensures k == |run| - 1
  {
    if k < |run| - 1 {
      RunStep(run, k);
      assert false;
    }
  }

  lemma RunStep(run: seq<Status>, k: nat)
    requires IsRun(run) && k < |run| - 1
    ensures Step(run[k], run[k + 1])
  {
  }

  /** Along a run from Pending, Used is reached only straight from Claimed, and Cancelled only straight from Pending. */
  lemma {:induction false} RunPredecessors(run: seq<Status>, k: nat)
    requires IsRun(run) && 0 < k < |run|
    ensures run[k] == Used ==> run[k - 1] == Claimed
    ensures run[k] == Cancelled ==> run[k - 1] == Pending
    ensures run[k] == Listed ==> run[k - 1] == Claimed
  {
    assert Step(run[k - 1], run[k]);
  }
}
