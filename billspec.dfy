/**
 * Reference semantics of the bill lifecycle workflow: what one command does
 * to a bill, which persistence calls it issues, and what a whole command
 * stream does. The imperative actor in module Workflow is proved against
 * these functions; the lemmas here state what the lifecycle promises.
 *
 * Everything nondeterministic in the workflow is an explicit input: the
 * logical clock (`now`), the id oracle (`generatedId`, None when the
 * recorded side effect failed) and the outcome of each persistence call.
 */
module BillLifecycle {
  import opened Types

  // ---------------------------------------------------------------------
  // Inputs
  // ---------------------------------------------------------------------

  datatype BillWorkflowParams = BillWorkflowParams(billId: string, customerId: string, currency: string)

  /** The payload of an AddLineItem signal; an empty id asks the workflow to generate one. */
  datatype AddLineItemSignal = AddLineItemSignal(lineItemId: string, description: string, amount: int)

  /**
   * One command taken off a signal channel, together with the values the
   * environment supplies while handling it.
   */
  datatype Command =
    | AddLineItem(signal: AddLineItemSignal, generatedId: Option<string>, now: Time, saveOk: bool)
    | Close(now: Time, finalizeOk: bool)

  /** A persistence activity invocation, with the parameters the workflow passes. */
  datatype ActivityCall =
    | UpsertBill(billId: string, customerId: string, currency: string, status: BillStatus, createdAt: Time)
    | SaveLineItem(lineItemId: string, billId: string, description: string, amount: int, createdAt: Time)
    | UpdateBillOnClose(billId: string, status: BillStatus, totalAmount: int, closedAt: Time)

  datatype WorkflowError =
    | BillIdGenerationFailed
    | UpsertBillFailed(cause: string)

  /** How a workflow run stands after a command stream: failed at start, still open, or completed. */
  datatype Outcome =
    | Failed(error: WorkflowError)
    | Running(bill: Bill)
    | Completed(bill: Bill)

  // ---------------------------------------------------------------------
  // Line-item helpers
  // ---------------------------------------------------------------------

  /** Sum of the amounts, accumulated front to back like the handlers' loops. */
  function Sum(items: seq<LineItem>): int
  {
    if |items| == 0 then 0 else Sum(items[..|items| - 1]) + items[|items| - 1].amount
  }

  function Ids(items: seq<LineItem>): (ids: seq<string>)
    ensures |ids| == |items|
    ensures forall k :: 0 <= k < |items| ==> ids[k] == items[k].id
  {
    seq(|items|, k requires 0 <= k < |items| => items[k].id)
  }

  predicate Distinct(xs: seq<string>)
  {
    forall i, j :: 0 <= i < j < |xs| ==> xs[i] != xs[j]
  }

  lemma SumAppend(items: seq<LineItem>, item: LineItem)
    ensures Sum(items + [item]) == Sum(items) + item.amount
  {
    assert (items + [item])[..|items|] == items;
  }

  /** Summation distributes over concatenation. */
  lemma {:induction false} SumConcat(a: seq<LineItem>, b: seq<LineItem>)
    ensures Sum(a + b) == Sum(a) + Sum(b)
  {
    if |b| == 0 {
      assert a + b == a;
    } else {
      var front, last := b[..|b| - 1], b[|b| - 1];
      assert b == front + [last];
      assert a + b == (a + front) + [last];
      SumConcat(a, front);
      SumAppend(a + front, last);
      SumAppend(front, last);
    }
  }

  /** A bill of non-negative charges has a non-negative total. */
  lemma {:induction false} SumNonNegative(items: seq<LineItem>)
    requires forall k :: 0 <= k < |items| ==> items[k].amount >= 0
    ensures Sum(items) >= 0
  {
    if |items| > 0 {
      SumNonNegative(items[..|items| - 1]);
    }
  }

  lemma IdsConcat(a: seq<LineItem>, b: seq<LineItem>)
    ensures Ids(a + b) == Ids(a) + Ids(b)
  {
  }

  lemma DistinctSnoc(xs: seq<string>, x: string)
    requires Distinct(xs) && x !in xs
    ensures Distinct(xs + [x])
  {
  }

  // ---------------------------------------------------------------------
  // The bill invariant
  // ---------------------------------------------------------------------

  /**
   * What holds of every bill the workflow exposes: ids are unique, the
   * total is the sum of the items, the creation time is set, and the
   * closing time is present exactly when the bill is closed.
   */
  predicate Invariant(b: Bill)
  {
    && Distinct(Ids(b.lineItems))
    && b.totalAmount == Sum(b.lineItems)
    && b.createdAt.Some?
    && (b.closedAt.Some? <==> b.status == Closed)
  }

  // ---------------------------------------------------------------------
  // Initialisation
  // ---------------------------------------------------------------------

  /** An id given by the caller wins; an empty one is replaced by the oracle's. */
  function ResolveId(given: string, generatedId: Option<string>): (r: Option<string>)
    ensures given != "" ==> r == Some(given)
    ensures given == "" ==> r == generatedId
  {
    if given != "" then Some(given) else generatedId
  }

  /** The bill the workflow builds before it persists anything. */
  function NewBill(billId: string, customerId: string, currency: string, now: Time): (b: Bill)
    ensures Invariant(b)
    ensures b.status == Open && b.lineItems == [] && b.totalAmount == 0
    ensures b.closedAt == None && b.createdAt == Some(now)
  {
    Bill(billId, customerId, currency, Open, [], 0, Some(now), None)
  }

  function UpsertCall(b: Bill): ActivityCall
    requires b.createdAt.Some?
  {
    UpsertBill(b.id, b.customerId, b.currency, b.status, b.createdAt.value)
  }

  /** The bill the workflow starts serving, or the error that stops it before any command. */
  function StartBill(params: BillWorkflowParams, generatedId: Option<string>, now: Time,
                     upsertError: Option<string>): (r: Result<Bill, WorkflowError>)
    ensures r.Failure? <==> ResolveId(params.billId, generatedId).None? || upsertError.Some?
    ensures r.Failure? && ResolveId(params.billId, generatedId).None? ==> r.error == BillIdGenerationFailed
    ensures r.Success? ==>
      && Invariant(r.value) && r.value.status == Open && r.value.lineItems == []
      && Some(r.value.id) == ResolveId(params.billId, generatedId)
      && r.value.customerId == params.customerId && r.value.currency == params.currency
      && r.value.createdAt == Some(now)
  {
    match ResolveId(params.billId, generatedId)
    case None => Failure(BillIdGenerationFailed)
    case Some(billId) =>
      if upsertError.Some? then Failure(UpsertBillFailed(upsertError.value))
      else Success(NewBill(billId, params.customerId, params.currency, now))
  }

  const UPSERT_FAILED := "UpsertBillActivity failed"

  /**
   * The error text the workflow returns. The upsert's message names the
   * activity and carries its cause at the end.
   */
  function ErrorMessage(e: WorkflowError): (msg: string)
    ensures |msg| > 0
    ensures e.UpsertBillFailed? ==>
      && |msg| >= |UPSERT_FAILED| + |e.cause|
      && msg[..|UPSERT_FAILED|] == UPSERT_FAILED
      && msg[|msg| - |e.cause|..] == e.cause
  {
    match e
    case BillIdGenerationFailed => "failed to generate BillID"
    case UpsertBillFailed(cause) => UPSERT_FAILED + ": " + cause
  }

  // ---------------------------------------------------------------------
  // One command
  // ---------------------------------------------------------------------

  /**
   * The item an AddLineItem signal appends, or None when the signal is
   * ignored: the bill is not open, no id could be generated, or the id is
   * already on the bill.
   */
  function Accepted(b: Bill, signal: AddLineItemSignal, generatedId: Option<string>): (r: Option<LineItem>)
    ensures r.Some? <==>
      && b.status == Open
      && ResolveId(signal.lineItemId, generatedId).Some?
      && ResolveId(signal.lineItemId, generatedId).value !in Ids(b.lineItems)
    ensures r.Some? ==>
      && Some(r.value.id) == ResolveId(signal.lineItemId, generatedId)
      && r.value.description == signal.description && r.value.amount == signal.amount
  {
    if b.status != Open then None
    else match ResolveId(signal.lineItemId, generatedId)
      case None => None
      case Some(itemId) =>
        if itemId in Ids(b.lineItems) then None
        else Some(LineItem(itemId, signal.description, signal.amount))
  }

  /**
   * The AddLineItem handler: the bill grows by at most the accepted item at
   * the end, the total is recomputed, and nothing else changes.
   */
  function AddLineItemStep(b: Bill, signal: AddLineItemSignal, generatedId: Option<string>): (r: Bill)
    ensures |b.lineItems| <= |r.lineItems| <= |b.lineItems| + 1
    ensures r.lineItems == b.lineItems + (match Accepted(b, signal, generatedId) case None => [] case Some(item) => [item])
    ensures r.(lineItems := b.lineItems, totalAmount := b.totalAmount) == b
    ensures Accepted(b, signal, generatedId).Some? ==> r.totalAmount == Sum(r.lineItems)
  {
    match Accepted(b, signal, generatedId)
    case None => b
    case Some(item) =>
      var items := b.lineItems + [item];
      b.(lineItems := items, totalAmount := Sum(items))
  }

  /**
   * The Close handler: it does not look at the status; the main loop's
   * guard does. The bill is CLOSED at `now` with the summed total and the
   * same items.
   */
  function CloseStep(b: Bill, now: Time): (r: Bill)
    ensures r.status == Closed && r.closedAt == Some(now) && r.totalAmount == Sum(b.lineItems)
    ensures r.(status := b.status, closedAt := b.closedAt, totalAmount := b.totalAmount) == b
  {
    b.(status := Closed, closedAt := Some(now), totalAmount := Sum(b.lineItems))
  }

  function Step(b: Bill, c: Command): Bill
  {
    match c
    case AddLineItem(signal, generatedId, _, _) => AddLineItemStep(b, signal, generatedId)
    case Close(now, _) => CloseStep(b, now)
  }

  /**
   * The persistence calls one command issues (whatever their outcome): a
   * Close always finalizes the bill it closes; an AddLineItem saves exactly
   * the item it accepts, and nothing when it ignores the signal.
   */
  function StepCalls(b: Bill, c: Command): (calls: seq<ActivityCall>)
    ensures |calls| <= 1
    ensures c.Close? ==> calls == [UpdateBillOnClose(b.id, Closed, CloseStep(b, c.now).totalAmount, c.now)]
    ensures c.AddLineItem? ==> (|calls| == 1 <==> Accepted(b, c.signal, c.generatedId).Some?)
    ensures c.AddLineItem? && |calls| == 1 ==>
      var item := Accepted(b, c.signal, c.generatedId).value;
      calls[0] == SaveLineItem(item.id, b.id, item.description, item.amount, c.now)
  {
    match c
    case AddLineItem(signal, generatedId, now, _) =>
      (match Accepted(b, signal, generatedId)
       case None => []
       case Some(item) => [SaveLineItem(item.id, b.id, item.description, item.amount, now)])
    case Close(now, _) => [UpdateBillOnClose(b.id, Closed, Sum(b.lineItems), now)]
  }

  /** An ignored AddLineItem signal leaves the bill as it was and issues nothing. */
  lemma AddIgnoredStep(b: Bill, signal: AddLineItemSignal, generatedId: Option<string>, now: Time, saveOk: bool)
    requires Accepted(b, signal, generatedId).None?
    ensures AddLineItemStep(b, signal, generatedId) == b
    ensures StepCalls(b, AddLineItem(signal, generatedId, now, saveOk)) == []
  {
  }

  /** An accepted AddLineItem signal appends its item, keeps the invariant and saves that item. */
  lemma AddAcceptedStep(b: Bill, signal: AddLineItemSignal, generatedId: Option<string>, now: Time, saveOk: bool,
                        item: LineItem)
    requires Invariant(b) && Accepted(b, signal, generatedId) == Some(item)
    ensures var items := b.lineItems + [item];
      && AddLineItemStep(b, signal, generatedId) == b.(lineItems := items, totalAmount := Sum(items))
      && Invariant(b.(lineItems := items, totalAmount := Sum(items)))
    ensures StepCalls(b, AddLineItem(signal, generatedId, now, saveOk))
      == [SaveLineItem(item.id, b.id, signal.description, signal.amount, now)]
  {
    IdsConcat(b.lineItems, [item]);
    DistinctSnoc(Ids(b.lineItems), item.id);
  }

  // ---------------------------------------------------------------------
  // A command stream
  // ---------------------------------------------------------------------

  /** A stream of AddLineItem signals only. */
  predicate NoClose(cmds: seq<Command>)
  {
    forall k :: 0 <= k < |cmds| ==> cmds[k].AddLineItem?
  }

  /**
   * The main loop: commands are handled in order while the bill is open.
   * A closed bill never reopens, and each handled command adds at most one
   * line item.
   */
  function Run(b: Bill, cmds: seq<Command>): (r: Bill)
    ensures r.status == Open ==> b.status == Open
    ensures |b.lineItems| <= |r.lineItems| <= |b.lineItems| + |cmds|
    decreases |cmds|
  {
    if b.status != Open || |cmds| == 0 then b
    else Run(Step(b, cmds[0]), cmds[1..])
  }

  /** The calls of the main loop: at most one per handled command, none once the bill is closed. */
  function RunCalls(b: Bill, cmds: seq<Command>): (calls: seq<ActivityCall>)
    ensures |calls| <= |cmds|
    ensures b.status != Open ==> calls == []
    decreases |cmds|
  {
    if b.status != Open || |cmds| == 0 then []
    else StepCalls(b, cmds[0]) + RunCalls(Step(b, cmds[0]), cmds[1..])
  }

  /** The whole workflow: start, then the main loop over the commands delivered so far. */
  function WorkflowOutcome(params: BillWorkflowParams, generatedId: Option<string>, now: Time,
                           upsertError: Option<string>, cmds: seq<Command>): Outcome
  {
    match StartBill(params, generatedId, now, upsertError)
    case Failure(e) => Failed(e)
    case Success(b0) =>
      var b := Run(b0, cmds);
      if b.status == Closed then Completed(b) else Running(b)
  }

  /** Every persistence call the workflow attempts, in order. */
  function WorkflowCalls(params: BillWorkflowParams, generatedId: Option<string>, now: Time,
                         upsertError: Option<string>, cmds: seq<Command>): seq<ActivityCall>
  {
    match ResolveId(params.billId, generatedId)
    case None => []
    case Some(billId) =>
      var b0 := NewBill(billId, params.customerId, params.currency, now);
      [UpsertCall(b0)] + (if upsertError.Some? then [] else RunCalls(b0, cmds))
  }

  // ---------------------------------------------------------------------
  // Properties of one command
  // ---------------------------------------------------------------------

  /** An accepted AddLineItem appends exactly one item and touches nothing but the items and total. */
  lemma AddFreshAppends(b: Bill, signal: AddLineItemSignal, generatedId: Option<string>, itemId: string)
    requires b.status == Open
    requires ResolveId(signal.lineItemId, generatedId) == Some(itemId)
    requires itemId !in Ids(b.lineItems)
    ensures var b' := AddLineItemStep(b, signal, generatedId);
      && b'.lineItems == b.lineItems + [LineItem(itemId, signal.description, signal.amount)]
      && b'.totalAmount == Sum(b.lineItems) + signal.amount
      && b'.(lineItems := b.lineItems, totalAmount := b.totalAmount) == b
  {
    SumAppend(b.lineItems, LineItem(itemId, signal.description, signal.amount));
  }

  /** A signal whose id is already on the bill is a no-op. */
  lemma AddDuplicateIgnored(b: Bill, signal: AddLineItemSignal, generatedId: Option<string>, itemId: string)
    requires ResolveId(signal.lineItemId, generatedId) == Some(itemId)
    requires itemId in Ids(b.lineItems)
    ensures AddLineItemStep(b, signal, generatedId) == b
  {
  }

  /** AddLineItem on a bill that is not open changes nothing and issues nothing. */
  lemma AddToClosedIgnored(b: Bill, c: Command)
    requires b.status == Closed && c.AddLineItem?
    ensures Step(b, c) == b && StepCalls(b, c) == []
  {
  }

  /** A failed id generation drops the signal. */
  lemma AddWithoutIdIgnored(b: Bill, signal: AddLineItemSignal)
    requires signal.lineItemId == ""
    ensures AddLineItemStep(b, signal, None) == b
  {
  }

  /**
   * Close moves the bill to CLOSED, stamps the closing time and freezes the
   * total at the sum of the items, whatever the finalize call returned.
   */
  lemma CloseFinalizes(b: Bill, now: Time, finalizeOk: bool)
    ensures var b' := Step(b, Close(now, finalizeOk));
      && b'.status == Closed && b'.closedAt == Some(now)
      && b'.totalAmount == Sum(b.lineItems) && b'.lineItems == b.lineItems
      && b'.id == b.id && b'.customerId == b.customerId && b'.currency == b.currency
      && b'.createdAt == b.createdAt
    ensures Step(b, Close(now, finalizeOk)) == Step(b, Close(now, !finalizeOk))
  {
  }

  /** Every handler keeps the bill invariant. */
  lemma StepPreservesInvariant(b: Bill, c: Command)
    requires Invariant(b)
    ensures Invariant(Step(b, c))
  {
    match c
    case Close(_, _) =>
    case AddLineItem(signal, generatedId, _, _) =>
      match Accepted(b, signal, generatedId)
      case None =>
      case Some(item) =>
        IdsConcat(b.lineItems, [item]);
        DistinctSnoc(Ids(b.lineItems), item.id);
  }

  // ---------------------------------------------------------------------
  // Properties of command streams
  // ---------------------------------------------------------------------

  /** The invariant holds after every command stream, in any interleaving of the two kinds. */
  lemma {:induction false} RunPreservesInvariant(b: Bill, cmds: seq<Command>)
    requires Invariant(b)
    ensures Invariant(Run(b, cmds))
    decreases |cmds|
  {
    if b.status == Open && |cmds| > 0 {
      StepPreservesInvariant(b, cmds[0]);
      RunPreservesInvariant(Step(b, cmds[0]), cmds[1..]);
    }
  }

  /**
   * No stream changes the bill's identity or creation time, and line items
   * are only ever appended.
   */
  lemma {:induction false} RunKeepsIdentity(b: Bill, cmds: seq<Command>)
    ensures var b' := Run(b, cmds);
      && b'.id == b.id && b'.customerId == b.customerId && b'.currency == b.currency
      && b'.createdAt == b.createdAt
      && |b.lineItems| <= |b'.lineItems| && b'.lineItems[..|b.lineItems|] == b.lineItems
    decreases |cmds|
  {
    if b.status == Open && |cmds| > 0 {
      var next := Step(b, cmds[0]);
      RunKeepsIdentity(next, cmds[1..]);
      assert next.lineItems[..|b.lineItems|] == b.lineItems;
    }
  }

  /** A closed bill never changes again and issues no more calls: the status never reverts. */
  lemma RunFromClosed(b: Bill, cmds: seq<Command>)
    requires b.status == Closed
    ensures Run(b, cmds) == b && RunCalls(b, cmds) == []
  {
  }

  /** One turn of the main loop: an open bill handles the next command. */
  lemma RunStep(b: Bill, cmds: seq<Command>, i: nat)
    requires b.status == Open && i < |cmds|
    ensures Run(b, cmds[i..]) == Run(Step(b, cmds[i]), cmds[i + 1..])
    ensures RunCalls(b, cmds[i..]) == StepCalls(b, cmds[i]) + RunCalls(Step(b, cmds[i]), cmds[i + 1..])
  {
    assert cmds[i..][0] == cmds[i];
    assert cmds[i..][1..] == cmds[i + 1..];
  }

  /** The calls issued so far plus those still to come are unchanged by one turn of the loop. */
  lemma RunCallsStep(issued: seq<ActivityCall>, b: Bill, cmds: seq<Command>, i: nat, all: seq<ActivityCall>)
    requires b.status == Open && i < |cmds|
    requires issued + RunCalls(b, cmds[i..]) == all
    ensures (issued + StepCalls(b, cmds[i])) + RunCalls(Step(b, cmds[i]), cmds[i + 1..]) == all
  {
    RunStep(b, cmds, i);
  }

  /** Handling a stream in two pieces is handling it whole. */
  lemma {:induction false} RunConcat(b: Bill, xs: seq<Command>, ys: seq<Command>)
    ensures Run(b, xs + ys) == Run(Run(b, xs), ys)
    ensures RunCalls(b, xs + ys) == RunCalls(b, xs) + RunCalls(Run(b, xs), ys)
    decreases |xs|
  {
    if b.status != Open {
    } else if |xs| == 0 {
      assert xs + ys == ys;
    } else {
      assert (xs + ys)[0] == xs[0];
      assert (xs + ys)[1..] == xs[1..] + ys;
      RunConcat(Step(b, xs[0]), xs[1..], ys);
    }
  }

  /** Only a Close takes a bill out of OPEN: it ends CLOSED exactly when the stream holds a Close. */
  lemma {:induction false} RunClosesIffClose(b: Bill, cmds: seq<Command>)
    requires b.status == Open
    ensures Run(b, cmds).status == Closed <==> !NoClose(cmds)
    decreases |cmds|
  {
    if |cmds| > 0 {
      var next := Step(b, cmds[0]);
      assert NoClose(cmds) <==> cmds[0].AddLineItem? && NoClose(cmds[1..]) by {
        if NoClose(cmds[1..]) && cmds[0].AddLineItem? {
          forall k | 0 <= k < |cmds| ensures cmds[k].AddLineItem? {
            if k > 0 { assert cmds[k] == cmds[1..][k - 1]; }
          }
        }
      }
      if cmds[0].Close? {
        RunFromClosed(next, cmds[1..]);
      } else {
        RunClosesIffClose(next, cmds[1..]);
      }
    }
  }

  /**
   * The first Close in a stream is the one that takes effect: its time is
   * the closing time, and every command after it is never handled.
   */
  lemma FirstCloseWins(b: Bill, pre: seq<Command>, now: Time, finalizeOk: bool, post: seq<Command>)
    requires b.status == Open && NoClose(pre)
    ensures Run(b, pre + [Close(now, finalizeOk)] + post) == CloseStep(Run(b, pre), now)
    ensures RunCalls(b, pre + [Close(now, finalizeOk)] + post)
      == RunCalls(b, pre) + [UpdateBillOnClose(b.id, Closed, Sum(Run(b, pre).lineItems), now)]
  {
    var mid := Run(b, pre);
    RunClosesIffClose(b, pre);
    RunKeepsIdentity(b, pre);
    assert pre + [Close(now, finalizeOk)] + post == pre + ([Close(now, finalizeOk)] + post);
    RunConcat(b, pre, [Close(now, finalizeOk)] + post);
    assert ([Close(now, finalizeOk)] + post)[1..] == post;
    RunFromClosed(CloseStep(mid, now), post);
  }

  /** Two command streams that differ only in persistence outcomes. */
  predicate SameCommands(c1: Command, c2: Command)
  {
    match c1
    case AddLineItem(s, g, t, _) => c2.AddLineItem? && c2.signal == s && c2.generatedId == g && c2.now == t
    case Close(t, _) => c2.Close? && c2.now == t
  }

  /**
   * Best-effort persistence: once the bill exists, the outcome of
   * SaveLineItem and UpdateBillOnClose never changes the bill or the calls
   * that follow.
   */
  lemma {:induction false} RunIgnoresOutcomes(b: Bill, cmds1: seq<Command>, cmds2: seq<Command>)
    requires |cmds1| == |cmds2|
    requires forall k :: 0 <= k < |cmds1| ==> SameCommands(cmds1[k], cmds2[k])
    ensures Run(b, cmds1) == Run(b, cmds2)
    ensures RunCalls(b, cmds1) == RunCalls(b, cmds2)
    decreases |cmds1|
  {
    if b.status == Open && |cmds1| > 0 {
      assert SameCommands(cmds1[0], cmds2[0]);
      assert Step(b, cmds1[0]) == Step(b, cmds2[0]);
      assert StepCalls(b, cmds1[0]) == StepCalls(b, cmds2[0]);
      RunIgnoresOutcomes(Step(b, cmds1[0]), cmds1[1..], cmds2[1..]);
    }
  }

  /** The items a stream of AddLineItem signals with explicit ids submits, in order. */
  function Submitted(cmds: seq<Command>): (items: seq<LineItem>)
    requires NoClose(cmds)
    ensures |items| == |cmds|
  {
    if |cmds| == 0 then []
    else
      var s := cmds[0].signal;
      [LineItem(s.lineItemId, s.description, s.amount)] + Submitted(cmds[1..])
  }

  /**
   * Signals with explicit, distinct, new ids are all appended in submission
   * order, and the total becomes the sum of everything submitted.
   */
  lemma {:induction false} DistinctAddsAccumulate(b: Bill, cmds: seq<Command>)
    requires b.status == Open && b.totalAmount == Sum(b.lineItems) && NoClose(cmds)
    requires forall k :: 0 <= k < |cmds| ==> cmds[k].signal.lineItemId != ""
    requires Distinct(Ids(b.lineItems + Submitted(cmds)))
    ensures Run(b, cmds).lineItems == b.lineItems + Submitted(cmds)
    ensures Run(b, cmds).totalAmount == Sum(b.lineItems) + Sum(Submitted(cmds))
    decreases |cmds|
  {
    if |cmds| == 0 {
      assert b.lineItems + Submitted(cmds) == b.lineItems;
    } else {
      var s := cmds[0].signal;
      var item := LineItem(s.lineItemId, s.description, s.amount);
      var rest := Submitted(cmds[1..]);
      assert Submitted(cmds) == [item] + rest;
      var ids := Ids(b.lineItems + Submitted(cmds));
      assert ids[|b.lineItems|] == item.id;
      assert item.id !in Ids(b.lineItems) by {
        forall k | 0 <= k < |b.lineItems|
          ensures Ids(b.lineItems)[k] != item.id
        {
          assert ids[k] == Ids(b.lineItems)[k];
        }
      }
      var next := Step(b, cmds[0]);
      assert next.lineItems == b.lineItems + [item];
      assert b.lineItems + Submitted(cmds) == next.lineItems + rest;
      SumAppend(b.lineItems, item);
      DistinctAddsAccumulate(next, cmds[1..]);
      SumConcat(next.lineItems, rest);
      SumConcat(b.lineItems, Submitted(cmds));
    }
  }

  // ---------------------------------------------------------------------
  // Persistence calls
  // ---------------------------------------------------------------------

  /** The line-item ids of the SaveLineItem calls, in order. */
  function SavedIds(calls: seq<ActivityCall>): seq<string>
  {
    if |calls| == 0 then []
    else (if calls[0].SaveLineItem? then [calls[0].lineItemId] else []) + SavedIds(calls[1..])
  }

  /** The UpdateBillOnClose calls, in order. */
  function FinalizeCalls(calls: seq<ActivityCall>): seq<ActivityCall>
  {
    if |calls| == 0 then []
    else (if calls[0].UpdateBillOnClose? then [calls[0]] else []) + FinalizeCalls(calls[1..])
  }

  lemma {:induction false} SavedIdsConcat(a: seq<ActivityCall>, b: seq<ActivityCall>)
    ensures SavedIds(a + b) == SavedIds(a) + SavedIds(b)
    decreases |a|
  {
    if |a| == 0 {
      assert a + b == b;
    } else {
      var head := if a[0].SaveLineItem? then [a[0].lineItemId] else [];
      assert (a + b)[0] == a[0];
      assert (a + b)[1..] == a[1..] + b;
      assert SavedIds(a + b) == head + SavedIds(a[1..] + b);
      SavedIdsConcat(a[1..], b);
      assert SavedIds(a) == head + SavedIds(a[1..]);
    }
  }

  lemma {:induction false} FinalizeCallsConcat(a: seq<ActivityCall>, b: seq<ActivityCall>)
    ensures FinalizeCalls(a + b) == FinalizeCalls(a) + FinalizeCalls(b)
    decreases |a|
  {
    if |a| == 0 {
      assert a + b == b;
    } else {
      var head := if a[0].UpdateBillOnClose? then [a[0]] else [];
      assert (a + b)[0] == a[0];
      assert (a + b)[1..] == a[1..] + b;
      assert FinalizeCalls(a + b) == head + FinalizeCalls(a[1..] + b);
      FinalizeCallsConcat(a[1..], b);
      assert FinalizeCalls(a) == head + FinalizeCalls(a[1..]);
    }
  }

  /** One command saves exactly the id it appends, if any. */
  lemma StepSavesAppended(b: Bill, c: Command)
    ensures Ids(b.lineItems) + SavedIds(StepCalls(b, c)) == Ids(Step(b, c).lineItems)
  {
    var calls := StepCalls(b, c);
    if |calls| == 0 || calls[0].UpdateBillOnClose? {
      assert SavedIds(calls) == [] by {
        if |calls| > 0 { assert calls[1..] == []; }
      }
      assert Ids(b.lineItems) + [] == Ids(b.lineItems);
    } else {
      assert SavedIds(calls) == [calls[0].lineItemId] by {
        assert calls[1..] == [];
      }
      IdsConcat(b.lineItems, [Accepted(b, c.signal, c.generatedId).value]);
    }
  }

  /**
   * Exactly the appended items are saved, once each and in order: the ids
   * on the bill before, followed by the ids saved, are the ids after.
   */
  lemma {:induction false} SavesMatchAppends(b: Bill, cmds: seq<Command>)
    ensures Ids(b.lineItems) + SavedIds(RunCalls(b, cmds)) == Ids(Run(b, cmds).lineItems)
    decreases |cmds|
  {
    if b.status != Open || |cmds| == 0 {
      assert Ids(b.lineItems) + [] == Ids(b.lineItems);
    } else {
      var next := Step(b, cmds[0]);
      var calls := StepCalls(b, cmds[0]);
      SavedIdsConcat(calls, RunCalls(next, cmds[1..]));
      SavesMatchAppends(next, cmds[1..]);
      StepSavesAppended(b, cmds[0]);
    }
  }

  /** The workflow never saves the same line-item id twice, nor one already on the bill. */
  lemma SaveLineItemOncePerId(b: Bill, cmds: seq<Command>)
    requires Invariant(b)
    ensures Distinct(Ids(b.lineItems) + SavedIds(RunCalls(b, cmds)))
  {
    SavesMatchAppends(b, cmds);
    RunPreservesInvariant(b, cmds);
  }

  /**
   * An open bill issues exactly one UpdateBillOnClose if and only if it
   * ends up closed, and that call carries the final total and closing time.
   */
  lemma {:induction false} FinalizeMatchesClose(b: Bill, cmds: seq<Command>)
    requires b.status == Open
    ensures var b' := Run(b, cmds);
      FinalizeCalls(RunCalls(b, cmds))
        == if b'.status == Closed && b'.closedAt.Some?
           then [UpdateBillOnClose(b.id, Closed, b'.totalAmount, b'.closedAt.value)]
           else []
    ensures Run(b, cmds).status == Closed ==> Run(b, cmds).closedAt.Some?
    decreases |cmds|
  {
    if |cmds| > 0 {
      var next := Step(b, cmds[0]);
      var calls := StepCalls(b, cmds[0]);
      FinalizeCallsConcat(calls, RunCalls(next, cmds[1..]));
      match cmds[0]
      case Close(now, _) =>
        assert FinalizeCalls(calls) == calls by {
          assert calls[1..] == [];
        }
        RunFromClosed(next, cmds[1..]);
      case AddLineItem(signal, generatedId, _, _) =>
        assert FinalizeCalls(calls) == [] by {
          if |calls| > 0 {
            assert calls[1..] == [];
          }
        }
        FinalizeMatchesClose(next, cmds[1..]);
    }
  }

  // ---------------------------------------------------------------------
  // The whole workflow
  // ---------------------------------------------------------------------

  /**
   * What a workflow run can end in. It fails only at start: without an id
   * when generation failed, or with the upsert's error; otherwise it exposes
   * a bill for the resolved id that satisfies the invariant, OPEN while
   * running and CLOSED once completed.
   */
  lemma WorkflowOutcomeCases(params: BillWorkflowParams, generatedId: Option<string>, now: Time,
                             upsertError: Option<string>, cmds: seq<Command>)
    ensures var o := WorkflowOutcome(params, generatedId, now, upsertError, cmds);
      && (o == Failed(BillIdGenerationFailed) <==> params.billId == "" && generatedId.None?)
      && (o.Failed? && o.error.UpsertBillFailed? <==>
            ResolveId(params.billId, generatedId).Some? && upsertError.Some?)
      && (o.Failed? && o.error.UpsertBillFailed? ==> o.error.cause == upsertError.value)
      && (!o.Failed? ==>
            && Invariant(o.bill)
            && Some(o.bill.id) == ResolveId(params.billId, generatedId)
            && o.bill.customerId == params.customerId && o.bill.currency == params.currency
            && o.bill.createdAt == Some(now)
            && (o.Running? <==> o.bill.status == Open && o.bill.closedAt.None?)
            && (o.Completed? <==> o.bill.status == Closed && o.bill.closedAt.Some?))
  {
    var r := ResolveId(params.billId, generatedId);
    if r.Some? && upsertError.None? {
      var b0 := NewBill(r.value, params.customerId, params.currency, now);
      RunPreservesInvariant(b0, cmds);
      RunKeepsIdentity(b0, cmds);
    }
  }

  /**
   * The asymmetric failure policy: UpsertBill is always the first call, and
   * when it fails no other call is ever made and no command is handled.
   */
  lemma UpsertFailureIsFatal(params: BillWorkflowParams, generatedId: Option<string>, now: Time,
                             cause: string, cmds: seq<Command>)
    requires ResolveId(params.billId, generatedId).Some?
    ensures WorkflowOutcome(params, generatedId, now, Some(cause), cmds) == Failed(UpsertBillFailed(cause))
    ensures var calls := WorkflowCalls(params, generatedId, now, Some(cause), cmds);
      |calls| == 1 && calls[0].UpsertBill? && calls[0].status == Open && calls[0].createdAt == now
  {
  }

  /**
   * Two items of 100.50 and 50.25 (in cents) followed by a Close complete
   * the workflow with both items in order and a total of 150.75.
   */
  lemma AddTwoItemsAndClose(now: Time, closeAt: Time)
    ensures var item1 := AddLineItemSignal("item-1", "Item 1", 10050);
      var item2 := AddLineItemSignal("item-2", "Item 2", 5025);
      var cmds := [AddLineItem(item1, None, now, true), AddLineItem(item2, None, now, true), Close(closeAt, true)];
      var o := WorkflowOutcome(BillWorkflowParams("B1", "C1", "USD"), None, now, None, cmds);
      && o.Completed?
      && o.bill.lineItems == [LineItem("item-1", "Item 1", 10050), LineItem("item-2", "Item 2", 5025)]
      && o.bill.totalAmount == 15075
      && o.bill.closedAt == Some(closeAt)
  {
    var item1 := AddLineItemSignal("item-1", "Item 1", 10050);
    var item2 := AddLineItemSignal("item-2", "Item 2", 5025);
    var li1 := LineItem("item-1", "Item 1", 10050);
    var li2 := LineItem("item-2", "Item 2", 5025);
    var cmds := [AddLineItem(item1, None, now, true), AddLineItem(item2, None, now, true), Close(closeAt, true)];
    var b0 := NewBill("B1", "C1", "USD", now);
    assert StartBill(BillWorkflowParams("B1", "C1", "USD"), None, now, None) == Success(b0);
    assert Accepted(b0, item1, None) == Some(li1);
    SumAppend([], li1);
    var b1 := b0.(lineItems := [li1], totalAmount := 10050);
    assert Step(b0, cmds[0]) == b1;
    assert Ids(b1.lineItems) == ["item-1"];
    assert Accepted(b1, item2, None) == Some(li2);
    SumAppend([li1], li2);
    assert [li1] + [li2] == [li1, li2];
    var b2 := b1.(lineItems := [li1, li2], totalAmount := 15075);
    assert Step(b1, cmds[1]) == b2;
    var b3 := CloseStep(b2, closeAt);
    assert b3.totalAmount == 15075;
    assert cmds[1..] == [cmds[1], cmds[2]];
    assert cmds[1..][1..] == [cmds[2]];
    assert Run(b2, [cmds[2]]) == Run(b3, []);
    assert Run(b1, cmds[1..]) == Run(b2, [cmds[2]]);
    assert Run(b0, cmds) == Run(b1, cmds[1..]);
  }
}
