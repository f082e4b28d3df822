/**
 * The cancellation dialog: what it reads of the ticket manager's state,
 * whether it offers cancellation, the refund it shows, and the
 * `cancel_ticket` call it builds.
 */
module Refund {
  import opened Wrappers
  import opened Bytes
  import opened GlobalState
  import opened TicketStatus
  import EventsUtil
  import TicketManagerBackup

  /** The ticket the dialog was opened for. */
  datatype Ticket = Ticket(assetId: nat, appId: nat, status: Status, index: u64)

  /** `eventData`: the price and the deadline read from the manager's state. */
  datatype EventData = EventData(price: nat, deadline: nat)

  /**
   * `fetchEventInfo`: "Price" and "Deadline", each 0 when absent. `appState`
   * is None when the query fails (the dialog then has no event data).
   */
  function FetchEventInfo(appState: Option<seq<StateEntry>>): (r: Option<EventData>)
    ensures r.Some? <==> appState.Some?
    ensures r.Some? && !HasKey(appState.value, "Deadline") ==> r.value.deadline == 0
    ensures r.Some? && !HasKey(appState.value, "Price") ==> r.value.price == 0
  {
    match appState
    case None => None
    case Some(gs) => Some(EventData(GetInt(gs, "Price"), GetInt(gs, "Deadline")))
  }

  /** `canCancel` at Unix time `now` (seconds). */
  function CanCancel(eventData: Option<EventData>, ticket: Option<Ticket>, now: nat): (b: bool)
    ensures eventData.None? || ticket.None? ==> !b
    ensures b <==> (
      && eventData.Some? && ticket.Some?
      && (ticket.value.status == Pending || ticket.value.status == Claimed)
      && now < eventData.value.deadline)
  {
    if eventData.None? || ticket.None? then false
    else
      var validStatus := ticket.value.status == Pending || ticket.value.status == Claimed;
      validStatus && now < eventData.value.deadline
  }

  /** Without a "Deadline" entry, cancellation is never offered. */
  lemma NoDeadlineNoCancel(gs: seq<StateEntry>, ticket: Option<Ticket>, now: nat)
    requires !HasKey(gs, "Deadline")
    ensures !CanCancel(FetchEventInfo(Some(gs)), ticket, now)
  {
  }

  /**
   * As written, the dialog never offers cancellation for the only manager
   * that has `cancel_ticket`: its state names the deadline
   * "cancellation_deadline", so "Deadline" reads as 0.
   */
  lemma AsWrittenNeverCancels(m: TicketManagerBackup.TicketManager, ticket: Option<Ticket>, now: nat)
    ensures !CanCancel(FetchEventInfo(Some(m.GlobalView())), ticket, now)
  {
    var gs := m.GlobalView();
    forall i | 0 <= i < |gs| ensures gs[i].key != "Deadline" {
      assert gs[i].key[0] != 'D';
    }
    NoDeadlineNoCancel(gs, ticket, now);
  }

  /** What the dialog should read: the manager's own deadline. */
  function ReadDeadline(gs: seq<StateEntry>): nat {
    GetInt(gs, "cancellation_deadline")
  }

  /** The offer matching the manager's rule: a Pending ticket, before the deadline. */
  function CanCancelIntended(gs: Option<seq<StateEntry>>, ticket: Option<Ticket>, now: nat): (b: bool)
    ensures b ==> gs.Some? && ticket.Some? && ticket.value.status == Pending
  {
    gs.Some? && ticket.Some? && ticket.value.status == Pending && now < ReadDeadline(gs.value)
  }

  /**
   * The intended offer agrees with the manager: for the owner of a stored
   * ticket, it is made exactly when `cancel_ticket` passes its status and
   * deadline checks at that time.
   */
  lemma IntendedMatchesContract(m: TicketManagerBackup.TicketManager, t: Ticket, now: nat)
    requires t.assetId in m.tickets && t.status == m.tickets[t.assetId].status
    ensures CanCancelIntended(Some(m.GlobalView()), Some(t), now)
      <==> m.tickets[t.assetId].status == Pending && now < m.cancellationDeadline
  {
    var gs := m.GlobalView();
    assert gs[4].key == "cancellation_deadline" && gs[4].value == UintValue(m.cancellationDeadline);
  }

  /** The refund shown, in microAlgos: the whole price, no penalty; zeros without event data. */
  datatype RefundQuote = RefundQuote(refund: nat, penalty: nat)

  function CalculateRefund(eventData: Option<EventData>): (q: RefundQuote)
    ensures eventData.None? ==> q == RefundQuote(0, 0)
    ensures eventData.Some? ==> q.penalty == 0 && q.refund + q.penalty == eventData.value.price
  {
    match eventData
    case None => RefundQuote(0, 0)
    case Some(d) =>
      var penalty := 0;
      RefundQuote(d.price - penalty, penalty)
  }

  /**
   * The quote understates the penalty the manager deducts: with a positive
   * penalty percentage and a price large enough for a non-zero penalty, the
   * manager refunds less than the dialog shows.
   */
  lemma QuoteExceedsContractRefund(price: u64, pct: u64)
    requires 0 < pct <= 100 && price * pct >= 100 && TicketManagerBackup.PercentSplit(price, pct).Ok?
    ensures TicketManagerBackup.PercentSplit(price, pct).value.rest < CalculateRefund(Some(EventData(price, 0))).refund
  {
    var s := TicketManagerBackup.PercentSplit(price, pct).value;
    assert s.cut > 0;
  }

  /** The `cancel_ticket` call: the ticket's index as argument, and the box "tickets" + be64(index). */
  datatype CancelCall = CancelCall(appId: nat, arg: u64, boxKey: seq<byte>)

  /** `cancelTicket`: no call without a connected account or a ticket. */
  function CancelRequest(hasAccount: bool, ticket: Option<Ticket>): (r: Option<CancelCall>)
    ensures r.Some? <==> hasAccount && ticket.Some?
    ensures r.Some? ==>
      && r.value.appId == ticket.value.appId
      && r.value.arg == ticket.value.index
      && |r.value.boxKey| == 15
      && r.value.boxKey[..7] == EventsUtil.TicketsBoxPrefix()
      && FromBE(r.value.boxKey[7..]) == ticket.value.index
  {
    if !hasAccount || ticket.None? then None
    else
      var t := ticket.value;
      Some(CancelCall(t.appId, t.index, EventsUtil.BuildBoxKey(EventsUtil.TicketsBoxPrefix(), Itob(t.index))))
  }
}
