/**
 * The bill workflow as the imperative program it is: one `BillActor`
 * object whose fields the signal handlers update in place, and the main
 * loop that feeds it commands while the bill is open. Each handler is
 * proved to do what the reference semantics in BillLifecycle says.
 */
module Workflow {
  import opened Types
  import opened BillLifecycle

  /** The loop both handlers run to total the line items. */
  method SumAmounts(items: seq<LineItem>) returns (total: int)
    ensures total == Sum(items)
  {
    total := 0;
    var i := 0;
    while i < |items|
      invariant 0 <= i <= |items|
      invariant total == Sum(items[..i])
    {
      assert items[..i + 1] == items[..i] + [items[i]];
      SumAppend(items[..i], items[i]);
      total := total + items[i].amount;
      i := i + 1;
    }
    assert items[..i] == items;
  }

  /** The duplicate scan of the AddLineItem handler. */
  method HasLineItem(items: seq<LineItem>, itemId: string) returns (found: bool)
    ensures found <==> itemId in Ids(items)
  {
    var i := 0;
    while i < |items|
      invariant 0 <= i <= |items|
      invariant forall k :: 0 <= k < i ==> items[k].id != itemId
    {
      if items[i].id == itemId {
        assert Ids(items)[i] == itemId;
        return true;
      }
      i := i + 1;
    }
    return false;
  }

  class BillActor {
    var id: string
    var customerId: string
    var currency: string
    var status: BillStatus
    var lineItems: seq<LineItem>
    var total: int
    var createdAt: Option<Time>
    var closedAt: Option<Time>
    /** The persistence calls attempted so far, in order. */
    ghost var issued: seq<ActivityCall>

    /** The bill the query handler hands out. */
    function Snapshot(): Bill
      reads this
    {
      Bill(id, customerId, currency, status, lineItems, total, createdAt, closedAt)
    }

    ghost predicate Valid()
      reads this
    {
      Invariant(Snapshot())
    }

    /** Builds the open bill and issues the initial UpsertBill. */
    constructor Init(billId: string, customerId: string, currency: string, now: Time)
      ensures Valid()
      ensures Snapshot() == NewBill(billId, customerId, currency, now)
      ensures issued == [UpsertBill(billId, customerId, currency, Open, now)]
    {
      this.id := billId;
      this.customerId := customerId;
      this.currency := currency;
      this.status := Open;
      this.lineItems := [];
      this.total := 0;
      this.createdAt := Some(now);
      this.closedAt := None;
      this.issued := [UpsertBill(billId, customerId, currency, Open, now)];
    }

    /**
     * The AddLineItem signal handler. `saveOk` is the outcome of
     * SaveLineItem; a failure is only logged, so it changes nothing here.
     */
    method AddLineItem(signal: AddLineItemSignal, generatedId: Option<string>, now: Time, saveOk: bool)
      requires Valid()
      modifies this
      ensures Valid()
      ensures Snapshot() == AddLineItemStep(old(Snapshot()), signal, generatedId)
      ensures issued == old(issued) + StepCalls(old(Snapshot()), Command.AddLineItem(signal, generatedId, now, saveOk))
    {
      ghost var b := Snapshot();
      if status != Open {
        AddIgnoredStep(b, signal, generatedId, now, saveOk);
        return;
      }
      var itemId := signal.lineItemId;
      if itemId == "" {
        if generatedId.None? {
          AddIgnoredStep(b, signal, generatedId, now, saveOk);
          return;
        }
        itemId := generatedId.value;
      }
      assert ResolveId(signal.lineItemId, generatedId) == Some(itemId);
      var duplicate := HasLineItem(lineItems, itemId);
      if duplicate {
        AddIgnoredStep(b, signal, generatedId, now, saveOk);
        return;
      }
      var item := LineItem(itemId, signal.description, signal.amount);
      AddAcceptedStep(b, signal, generatedId, now, saveOk, item);
      Append(item, now);
    }

    /** The accepting tail of the AddLineItem handler: append, re-total, save. */
    method Append(item: LineItem, now: Time)
      requires Valid() && status == Open && item.id !in Ids(lineItems)
      modifies this
      ensures Valid()
      ensures Snapshot() == old(Snapshot()).(lineItems := old(lineItems) + [item], totalAmount := Sum(old(lineItems) + [item]))
      ensures issued == old(issued) + [SaveLineItem(item.id, id, item.description, item.amount, now)]
    {
      IdsConcat(lineItems, [item]);
      DistinctSnoc(Ids(lineItems), item.id);
      lineItems := lineItems + [item];
      total := SumAmounts(lineItems);
      issued := issued + [SaveLineItem(item.id, id, item.description, item.amount, now)];
    }

    /**
     * The Close signal handler. `finalizeOk` is the outcome of
     * UpdateBillOnClose; the bill is closed whether or not it succeeded.
     */
    method Close(now: Time, finalizeOk: bool)
      requires Valid()
      modifies this
      ensures Valid()
      ensures Snapshot() == CloseStep(old(Snapshot()), now)
      ensures issued == old(issued) + StepCalls(old(Snapshot()), Command.Close(now, finalizeOk))
    {
      var finalTotal := SumAmounts(lineItems);
      issued := issued + [UpdateBillOnClose(id, Closed, finalTotal, now)];
      status := Closed;
      closedAt := Some(now);
      total := finalTotal;
    }

    /** The selector's dispatch: one command goes to its signal handler. */
    method Handle(c: Command)
      requires Valid()
      modifies this
      ensures Valid()
      ensures Snapshot() == Step(old(Snapshot()), c)
      ensures issued == old(issued) + StepCalls(old(Snapshot()), c)
    {
      match c {
        case AddLineItem(signal, generatedId, now, saveOk) =>
          AddLineItem(signal, generatedId, now, saveOk);
        case Close(now, finalizeOk) =>
          Close(now, finalizeOk);
      }
    }

    /** The query handler: a value copy of the current bill, which always satisfies the invariant. */
    method Query() returns (b: Bill)
      requires Valid()
      ensures Invariant(b)
      ensures b == Snapshot()
    {
      b := Bill(id, customerId, currency, status, lineItems, total, createdAt, closedAt);
    }
  }

  /**
   * The main loop: while the bill is open, hand the next command to its
   * handler. The bill it leaves behind and the calls it adds are those of
   * the reference fold `Run`/`RunCalls`.
   */
  method ServeCommands(actor: BillActor, cmds: seq<Command>)
    requires actor.Valid()
    modifies actor
    ensures actor.Valid()
    ensures actor.Snapshot() == Run(old(actor.Snapshot()), cmds)
    ensures actor.issued == old(actor.issued) + RunCalls(old(actor.Snapshot()), cmds)
  {
    ghost var b0 := actor.Snapshot();
    ghost var all := actor.issued + RunCalls(b0, cmds);
    var i := 0;
    while actor.status == Open && i < |cmds|
      invariant 0 <= i <= |cmds|
      invariant actor.Valid()
      invariant Run(b0, cmds) == Run(actor.Snapshot(), cmds[i..])
      invariant actor.issued + RunCalls(actor.Snapshot(), cmds[i..]) == all
      decreases |cmds| - i
    {
      RunStep(actor.Snapshot(), cmds, i);
      RunCallsStep(actor.issued, actor.Snapshot(), cmds, i, all);
      actor.Handle(cmds[i]);
      i := i + 1;
    }
    assert Run(actor.Snapshot(), cmds[i..]) == actor.Snapshot();
    assert RunCalls(actor.Snapshot(), cmds[i..]) == [];
  }

  /**
   * The workflow function: resolve the bill id, build the bill, persist it
   * (fatally), then handle commands while the bill is open. `cmds` is the
   * order in which the selector happened to take signals from the two
   * channels. The result is the failure, the bill still being served, or
   * the closed bill the workflow returns; `calls` is every persistence call
   * attempted.
   */
  method BillWorkflow(params: BillWorkflowParams, generatedId: Option<string>, now: Time,
                      upsertError: Option<string>, cmds: seq<Command>)
    returns (outcome: Outcome, ghost calls: seq<ActivityCall>)
    ensures outcome == WorkflowOutcome(params, generatedId, now, upsertError, cmds)
    ensures calls == WorkflowCalls(params, generatedId, now, upsertError, cmds)
  {
    var billId := params.billId;
    if billId == "" {
      if generatedId.None? {
        return Failed(BillIdGenerationFailed), [];
      }
      billId := generatedId.value;
    }
    var actor := new BillActor.Init(billId, params.customerId, params.currency, now);
    ghost var b0 := actor.Snapshot();
    assert ResolveId(params.billId, generatedId) == Some(billId);
    if upsertError.Some? {
      return Failed(UpsertBillFailed(upsertError.value)), actor.issued;
    }
    assert StartBill(params, generatedId, now, upsertError) == Success(b0);
    ServeCommands(actor, cmds);
    var bill := actor.Query();
    outcome := if bill.status == Closed then Completed(bill) else Running(bill);
    calls := actor.issued;
  }
}
