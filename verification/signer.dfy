/**
 * The front end's group submission helper: it asks the wallet to sign every
 * transaction of an atomic group, checks and filters what comes back, sends
 * the group once, waits for confirmation and reports progress to an
 * optional observer.
 *
 * The wallet, the node and the observer are outside the model: what the
 * wallet returns and what the node answers are inputs, and every call made
 * to them is recorded, in order, in a trace.
 */
module Signer {
  import opened Wrappers
  import opened Bytes

  /** A transaction of the group, reduced to what the helper uses: its unsigned encoding and its id. */
  datatype Txn = Txn(unsigned: seq<byte>, id: string)

  datatype NoticeState = PendingState | SuccessState | FailedState

  /** What the observer is told. */
  datatype Notice = Notice(state: NoticeState, message: string, txId: Option<string>, explorerUrl: Option<string>)

  /** One call the helper makes to the wallet, the node or the observer. */
  datatype Call =
    | SignRequest(txns: seq<seq<byte>>, indexesToSign: seq<nat>, returnGroup: bool)
    | SendRaw(group: seq<seq<byte>>)
    | AwaitConfirmation(txId: string, waitRounds: nat)
    | Notify(notice: Notice)

  /**
   * Why the helper throws. `Wallet` is the wallet's own refusal or failure,
   * rethrown as it is; `Ledger` carries the node's error message, if any.
   */
  datatype Error =
    | Wallet(message: Option<string>)
    | CountMismatch(expected: nat, got: nat)
    | NoValidSigned
    | Ledger(message: Option<string>)

  datatype Outcome = Outcome(txIds: seq<string>, confirmedRound: nat)

  /** `indexesToSign`: every position of the group. */
  function IndexesToSign(n: nat): (r: seq<nat>)
    ensures |r| == n && forall i :: 0 <= i < n ==> r[i] == i
  {
    if n == 0 then [] else IndexesToSign(n - 1) + [n - 1]
  }

  /** The unsigned encodings, one per transaction, in group order. */
  function Encodings(txns: seq<Txn>): (r: seq<seq<byte>>)
    ensures |r| == |txns| && forall i :: 0 <= i < |txns| ==> r[i] == txns[i].unsigned
  {
    if txns == [] then [] else [txns[0].unsigned] + Encodings(txns[1..])
  }

  /** The transaction ids, one per transaction, in group order. */
  function TxIds(txns: seq<Txn>): (r: seq<string>)
    ensures |r| == |txns| && forall i :: 0 <= i < |txns| ==> r[i] == txns[i].id
  {
    if txns == [] then [] else [txns[0].id] + TxIds(txns[1..])
  }

  /** A signed entry the filter keeps: present and non-empty. */
  predicate Usable(t: Option<seq<byte>>) {
    t.Some? && |t.value| > 0
  }

  /** `signedTxns.filter(t => t && t.length > 0)`. */
  function ValidTxns(signed: seq<Option<seq<byte>>>): (r: seq<seq<byte>>)
    ensures |r| <= |signed|
    ensures forall j :: 0 <= j < |r| ==> |r[j]| > 0
    ensures |r| == 0 <==> forall i :: 0 <= i < |signed| ==> !Usable(signed[i])
  {
    if signed == [] then []
    else
      var rest := ValidTxns(signed[1..]);
      assert forall i :: 1 <= i < |signed| ==> signed[i] == signed[1..][i - 1];
      if Usable(signed[0]) then [signed[0].value] + rest else rest
  }

  /** Filtering a concatenation filters each part: the kept entries stay in their original order. */
  lemma {:induction false} ValidTxnsAppend(a: seq<Option<seq<byte>>>, b: seq<Option<seq<byte>>>)
    ensures ValidTxns(a + b) == ValidTxns(a) + ValidTxns(b)
  {
    if a != [] {
      assert (a + b)[1..] == a[1..] + b;
      ValidTxnsAppend(a[1..], b);
    } else {
      assert a + b == b;
    }
  }

  /** When every entry is usable, nothing is dropped. */
  lemma {:induction false} ValidTxnsAllUsable(signed: seq<Option<seq<byte>>>)
    requires forall i :: 0 <= i < |signed| ==> Usable(signed[i])
    ensures |ValidTxns(signed)| == |signed|
    ensures forall i :: 0 <= i < |signed| ==> ValidTxns(signed)[i] == signed[i].value
  {
    if signed != [] {
      ValidTxnsAllUsable(signed[1..]);
    }
  }

  /** `dummySigner`: one empty signature per requested index. */
  function DummySigner(indexesToSign: seq<nat>): (r: seq<Option<seq<byte>>>)
    ensures |r| == |indexesToSign| && forall i :: 0 <= i < |r| ==> r[i] == Some([])
  {
    seq(|indexesToSign|, _ => Some([]))
  }

  /** What the dummy signer returns passes the count check but not the filter. */
  lemma DummySignerRejected(n: nat)
    ensures |DummySigner(IndexesToSign(n))| == n
    ensures ValidTxns(DummySigner(IndexesToSign(n))) == []
  {
  }

  const EXPLORER_TX_PREFIX: string := "https://testnet.algoexplorer.io/tx/"

  function Waiting(): Notice {
    Notice(PendingState, "Waiting for wallet signature...", None, None)
  }

  function Broadcast(txId: string): Notice {
    Notice(PendingState, "Transaction broadcasted to network", Some(txId), Some(EXPLORER_TX_PREFIX + txId))
  }

  function Confirmed(txId: string): Notice {
    Notice(SuccessState, "Transaction confirmed", Some(txId), Some(EXPLORER_TX_PREFIX + txId))
  }

  /** `err?.message || 'Transaction failed'`. */
  function FailureMessage(message: Option<string>): (m: string)
    ensures m != []
    ensures message.Some? && message.value != [] ==> m == message.value
  {
    if message.Some? && message.value != [] then message.value else "Transaction failed"
  }

  function Failure(message: Option<string>): Notice {
    Notice(FailedState, FailureMessage(message), None, None)
  }

  /** The observer calls in a trace. */
  function Notices(trace: seq<Call>): seq<Notice> {
    if trace == [] then []
    else (if trace[0].Notify? then [trace[0].notice] else []) + Notices(trace[1..])
  }

  /** How many times the group is sent in a trace. */
  function Sends(trace: seq<Call>): nat {
    if trace == [] then 0 else (if trace[0].SendRaw? then 1 else 0) + Sends(trace[1..])
  }

  lemma {:induction false} NoticesAppend(a: seq<Call>, b: seq<Call>)
    ensures Notices(a + b) == Notices(a) + Notices(b)
    ensures Sends(a + b) == Sends(a) + Sends(b)
  {
    if a != [] {
      assert (a + b)[1..] == a[1..] + b;
      NoticesAppend(a[1..], b);
    } else {
      assert a + b == b;
    }
  }

  /** What the observer hears of one notice: the notice when there is an observer. */
  function Heard(hasObserver: bool, n: Notice): seq<Notice> {
    if hasObserver then [n] else []
  }

  /** An observer call when there is an observer, nothing otherwise. */
  function Tell(hasObserver: bool, n: Notice): (t: seq<Call>)
    ensures Notices(t) == Heard(hasObserver, n)
    ensures Sends(t) == 0
  {
    if hasObserver then
      assert [Notify(n)][1..] == [];
      [Notify(n)]
    else []
  }

  /**
   * `executeATC`. `wallet` is the wallet's answer to the signing request:
   * the signed entries, or the error it throws (a declined request);
   * `send` is the node's answer to the submission (the group's transaction
   * id, or an error message); `confirm` is the outcome of waiting (the
   * confirmed round the node reports, if any, or an error message).
   * `waitRounds` has no default here: the source defaults it to 4, and every
   * page that calls the helper passes 4 explicitly.
   */
  method ExecuteAtc(
    txns: seq<Txn>,
    wallet: Result<seq<Option<seq<byte>>>, Option<string>>,
    send: Result<string, Option<string>>,
    confirm: Result<Option<nat>, Option<string>>,
    waitRounds: nat,
    hasObserver: bool)
    returns (r: Result<Outcome, Error>, trace: seq<Call>)
    // The wallet is asked, once, to sign every transaction, after the observer hears "waiting".
    ensures |trace| > |Tell(hasObserver, Waiting())|
    ensures trace[..|Tell(hasObserver, Waiting())| + 1] ==
      Tell(hasObserver, Waiting()) + [SignRequest(Encodings(txns), IndexesToSign(|txns|), true)]
    // The group is sent at most once.
    ensures Sends(trace) <= 1
    // A wallet error is rethrown straight after the request: nothing else happens.
    ensures wallet.Err? ==>
      && r == Err(Wallet(wallet.error))
      && trace == Tell(hasObserver, Waiting()) + [SignRequest(Encodings(txns), IndexesToSign(|txns|), true)]
    // The wallet and validation errors happen before anything is sent and are not reported as failures.
    ensures wallet.Ok? && |wallet.value| != |txns| ==> r == Err(CountMismatch(|txns|, |wallet.value|))
    ensures r.Err? && !r.error.Ledger? ==> Sends(trace) == 0 && Notices(trace) == Heard(hasObserver, Waiting())
    ensures r == Err(NoValidSigned) <==> wallet.Ok? && |wallet.value| == |txns| && ValidTxns(wallet.value) == []
    // Otherwise the usable signed entries are sent, in order, as one group.
    ensures wallet.Ok? && |wallet.value| == |txns| && ValidTxns(wallet.value) != [] ==>
      Sends(trace) == 1 && SendRaw(ValidTxns(wallet.value)) in trace
    // A node error is reported once as a failure, last, and rethrown.
    ensures r.Err? && r.error.Ledger? ==>
      && Notices(trace) == Heard(hasObserver, Waiting())
                           + ((if send.Ok? then Heard(hasObserver, Broadcast(send.value)) else [])
                              + Heard(hasObserver, Failure(r.error.message)))
      && (send.Err? ==> r.error.message == send.error)
      && (send.Ok? ==> confirm.Err? && r.error.message == confirm.error)
    // Success: the ids of the whole group, in order, and the confirmed round or 0.
    ensures r.Ok? <==>
      wallet.Ok? && |wallet.value| == |txns| && ValidTxns(wallet.value) != [] && send.Ok? && confirm.Ok?
    ensures r.Ok? ==>
      && r.value.txIds == TxIds(txns)
      && r.value.confirmedRound == confirm.value.GetOr(0)
      && Notices(trace) == Heard(hasObserver, Waiting())
                           + (Heard(hasObserver, Broadcast(send.value)) + Heard(hasObserver, Confirmed(send.value)))
  {
    var waiting := Tell(hasObserver, Waiting());
    trace := waiting + [SignRequest(Encodings(txns), IndexesToSign(|txns|), true)];
    NoticesAppend(waiting, [SignRequest(Encodings(txns), IndexesToSign(|txns|), true)]);
    assert Notices(trace) == Notices(waiting) && Sends(trace) == 0 by {
      assert [SignRequest(Encodings(txns), IndexesToSign(|txns|), true)][1..] == [];
    }
    if wallet.Err? {
      return Err(Wallet(wallet.error)), trace;
    }
    var signed := wallet.value;
    if |signed| != |txns| {
      return Err(CountMismatch(|txns|, |signed|)), trace;
    }
    var valid := ValidTxns(signed);
    if |valid| == 0 {
      return Err(NoValidSigned), trace;
    }
    var result, rest := SendAndConfirm(txns, valid, send, confirm, waitRounds, hasObserver);
    NoticesAppend(trace, rest);
    ExtendKeepsPrefix(trace, rest, |waiting| + 1);
    trace := trace + rest;
    r := result;
  }

  /** Appending to a trace keeps its prefixes; the first appended call is in the result. */
  lemma ExtendKeepsPrefix(a: seq<Call>, b: seq<Call>, k: nat)
    requires k <= |a| && b != []
    ensures (a + b)[..k] == a[..k]
    ensures b[0] in a + b
  {
    assert (a + b)[|a|] == b[0];
  }

  /**
   * The part of `executeATC` inside its `try`: send the valid signed
   * transactions as one group, tell the observer, wait for confirmation and
   * tell it again; a node error is told as a failure and rethrown.
   */
  method SendAndConfirm(
    txns: seq<Txn>,
    valid: seq<seq<byte>>,
    send: Result<string, Option<string>>,
    confirm: Result<Option<nat>, Option<string>>,
    waitRounds: nat,
    hasObserver: bool)
    returns (r: Result<Outcome, Error>, trace: seq<Call>)
    ensures |trace| > 0 && trace[0] == SendRaw(valid) && Sends(trace) == 1
    ensures r.Ok? <==> send.Ok? && confirm.Ok?
    ensures r.Err? ==>
      && r.error.Ledger?
      && Notices(trace) == (if send.Ok? then Heard(hasObserver, Broadcast(send.value)) else [])
                           + Heard(hasObserver, Failure(r.error.message))
      && (send.Err? ==> r.error.message == send.error)
      && (send.Ok? ==> confirm.Err? && r.error.message == confirm.error)
    ensures r.Ok? ==>
      && r.value.txIds == TxIds(txns)
      && r.value.confirmedRound == confirm.value.GetOr(0)
      && Notices(trace) == Heard(hasObserver, Broadcast(send.value)) + Heard(hasObserver, Confirmed(send.value))
  {
    var sent := [SendRaw(valid)];
    Quiet(sent[0]);
    match send {
      case Err(message) =>
        var failed := Tell(hasObserver, Failure(message));
        NoticesAppend(sent, failed);
        assert [] + Heard(hasObserver, Failure(message)) == Heard(hasObserver, Failure(message));
        return Err(Ledger(message)), sent + failed;
      case Ok(txId) =>
        var told := Tell(hasObserver, Broadcast(txId));
        var awaiting := [AwaitConfirmation(txId, waitRounds)];
        Quiet(awaiting[0]);
        var last: seq<Call>;
        match confirm {
          case Err(message) =>
            r := Err(Ledger(message));
            last := Tell(hasObserver, Failure(message));
          case Ok(round) =>
            r := Ok(Outcome(TxIds(txns), round.GetOr(0)));
            last := Tell(hasObserver, Confirmed(txId));
        }
        NoticesAppend(awaiting, last);
        assert Notices(awaiting + last) == Notices(last);
        NoticesAppend(told, awaiting + last);
        NoticesAppend(sent, told + (awaiting + last));
        assert Notices(sent + (told + (awaiting + last))) == Heard(hasObserver, Broadcast(txId)) + Notices(last);
        trace := sent + (told + (awaiting + last));
    }
  }

  /** A call that is not an observer call adds no notice. */
  lemma Quiet(c: Call)
    requires !c.Notify?
    ensures Notices([c]) == [] && Sends([c]) == if c.SendRaw? then 1 else 0
  {
    assert [c][1..] == [];
  }

}
