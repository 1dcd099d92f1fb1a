# Bill lifecycle workflow — a Dafny model

This project models the core of the fees service: `BillWorkflow`, the
per-bill workflow that owns one bill's state. The workflow builds an OPEN
bill with no line items, persists it with `UpsertBillActivity` (a failure
here is fatal), and then handles AddLineItem and Close signals one at a
time for as long as the bill is OPEN. It answers the GetBillDetails query
with the current bill.

- An AddLineItem signal is ignored when the bill is not open, when no id
  could be generated for it, or when its id is already on the bill.
  Otherwise the item is appended, the total is recomputed from all items,
  and `SaveLineItemActivity` is called. A failure of that call is only
  logged.
- A Close signal sums the items and calls `UpdateBillOnCloseActivity`
  (best effort). It then sets the bill to CLOSED with the closing time and
  the final total, and the workflow returns that bill.

The model also covers two pure pieces of the service facade. The first is
the workflow id `"bill-" + billID` that every bill operation addresses.
The second is the visibility query that ListBills builds from its status
parameter.

Files:

- `types.dfy` (module `Types`): `BillStatus`, `LineItem`, `Bill`, and the
  `Option` and `Result` wrappers.
- `billspec.dfy` (module `BillLifecycle`): the reference semantics as
  functions, and the lemmas stating what the lifecycle promises.
  - `Step` and `StepCalls` say what one command does to the bill and which
    persistence calls it issues.
  - `Run` and `RunCalls` fold a command stream while the bill is open.
  - `WorkflowOutcome` and `WorkflowCalls` describe a whole run.
- `workflow.dfy` (module `Workflow`): the imperative workflow.
  - The class `BillActor` has the bill's fields. Its methods are the signal
    and query handlers, and each is proved equal to the reference step.
  - `SumAmounts` and `HasLineItem` are the handlers' loops.
  - `Handle` is the selector's dispatch to a handler, and `ServeCommands`
    is the main loop.
  - `BillWorkflow` is the start-up code followed by the main loop.
- `service.dfy` (module `Service`): the workflow id mapping and the
  ListBills query builder.

Nondeterminism is passed in explicitly:

- The logical clock is a `now: Time` argument.
- The id generator's recorded side effect is `generatedId: Option<string>`.
  `None` means the side effect failed.
- The upsert's outcome is `upsertError: Option<string>`, holding the error
  cause when the call failed.
- Each later persistence call's outcome is `saveOk` or `finalizeOk`.
- The selector's choice between the two signal channels is an arbitrary
  `seq<Command>`. Every lemma about `Run` holds for every such order.

Amounts are integers in minor currency units.

The Close handler (services/fees/workflow.go:145-176) does not check the
status. Only the main loop's guard (line 74) keeps a second Close from
being handled. So `CloseStep` closes unconditionally, and `Run` stops at
the first Close (`FirstCloseWins`, `RunFromClosed`).

## Model

| member | source | states |
|---|---|---|
| `Types.ParseStatus` | services/fees/types.go:10-13 | a string parses to a status only if that status's wire name is that string |
| `Types.StatusNameRoundTrip` | services/fees/types.go:10-13 | each status name is non-empty and parses back to its status |
| `Types.ParseStatusExactlyTwo` | services/fees/types.go:10-13 | exactly "OPEN" and "CLOSED" name a status; every other string is rejected |
| `BillLifecycle.SumConcat` | services/fees/workflow.go:120-123 | the total of two runs of items is the sum of their totals |
| `BillLifecycle.SumNonNegative` | services/fees/workflow.go:152-155 | a bill whose charges are all non-negative has a non-negative total |
| `BillLifecycle.ResolveId` | services/fees/workflow.go:27-35 | a non-empty given id is kept; an empty one is replaced by the generated id, or by nothing if generation failed |
| `BillLifecycle.NewBill` | services/fees/workflow.go:37-45 | the initial bill is OPEN, has no items, a total of 0, `CreatedAt` set to the current time, no `ClosedAt`, and satisfies the bill invariant |
| `BillLifecycle.StartBill` | services/fees/workflow.go:27-62 | start-up fails exactly when no id could be resolved or the upsert failed, and with the id-generation error when it was the id; otherwise the bill served is the initial OPEN bill for the resolved id, customer and currency, created now, with no items and the invariant |
| `BillLifecycle.ErrorMessage` | services/fees/workflow.go:27-62 | every failure has a non-empty message; the upsert's starts with "UpsertBillActivity failed" and ends with the cause |
| `BillLifecycle.Accepted` | services/fees/workflow.go:86-113 | a signal yields an item exactly when the bill is open, an id is resolved and it is not yet on the bill; the item carries that id and the signal's description and amount |
| `BillLifecycle.AddLineItemStep` | services/fees/workflow.go:86-124 | the items become the old items followed by the accepted item, if any (at most one more); the total is recomputed from all items when one is appended; no other field changes |
| `BillLifecycle.CloseStep` | services/fees/workflow.go:152-174 | the bill becomes CLOSED with `ClosedAt` now and the total the sum of its items; items and identity are unchanged; there is no status check |
| `BillLifecycle.StepCalls` | services/fees/workflow.go:127-166 | a command issues at most one call: a Close exactly one UpdateBillOnClose with the bill's id, CLOSED, the summed total and the closing time; an AddLineItem a SaveLineItem exactly when its item is accepted, carrying that item, the bill id and the handling time |
| `BillLifecycle.AddIgnoredStep` | services/fees/workflow.go:86-106 | an ignored signal leaves the bill unchanged and issues no call |
| `BillLifecycle.AddAcceptedStep` | services/fees/workflow.go:108-136 | an accepted signal appends its item, re-totals, keeps the invariant and issues exactly the SaveLineItem of that item |
| `BillLifecycle.Run` | services/fees/workflow.go:74-186 | a closed bill never reopens, and the main loop adds at most one line item per command and never removes one |
| `BillLifecycle.RunCalls` | services/fees/workflow.go:74-186 | the main loop makes at most one persistence call per command, and none once the bill is not open |
| `BillLifecycle.RunClosesIffClose` | services/fees/workflow.go:74-176 | an open bill ends CLOSED if and only if the stream holds a Close; AddLineItem signals alone keep it OPEN |
| `BillLifecycle.AddFreshAppends` | services/fees/workflow.go:108-124 | on an open bill, a signal with a new id appends exactly that one item at the end; the total becomes the old sum plus its amount; nothing else changes |
| `BillLifecycle.AddDuplicateIgnored` | services/fees/workflow.go:101-106 | a signal whose id is already on the bill leaves the bill unchanged |
| `BillLifecycle.AddToClosedIgnored` | services/fees/workflow.go:86-89 | AddLineItem on a non-open bill changes nothing and issues no call |
| `BillLifecycle.AddWithoutIdIgnored` | services/fees/workflow.go:91-99 | when the signal has no id and generation fails, the signal is dropped |
| `BillLifecycle.CloseFinalizes` | services/fees/workflow.go:152-176 | Close sets CLOSED, `ClosedAt` to the current time and the total to the sum of the unchanged items; identity fields are kept; the finalize outcome makes no difference |
| `BillLifecycle.StepPreservesInvariant` | services/fees/workflow.go:78-176 | each handler keeps the invariant: distinct ids, total equal to the sum, `CreatedAt` set, `ClosedAt` present exactly when CLOSED |
| `BillLifecycle.RunPreservesInvariant` | services/fees/workflow.go:74-186 | the invariant holds after every command stream, in any interleaving of the two signal kinds |
| `BillLifecycle.RunKeepsIdentity` | services/fees/workflow.go:38-45 | no stream changes the id, customer, currency or `CreatedAt`; the old items remain a prefix of the new ones (append-only) |
| `BillLifecycle.RunFromClosed` | services/fees/workflow.go:74 | a closed bill is never changed again and issues no call; the status never reverts |
| `BillLifecycle.RunConcat` | services/fees/workflow.go:74-186 | handling a stream in two consecutive pieces gives the same bill and the same calls as handling it whole |
| `BillLifecycle.FirstCloseWins` | services/fees/workflow.go:145-186 | the first Close in a stream takes effect with its own time; the calls are those before it plus its one UpdateBillOnClose, so no command after it is handled |
| `BillLifecycle.RunIgnoresOutcomes` | services/fees/workflow.go:136-176 | streams that differ only in the SaveLineItem and UpdateBillOnClose outcomes produce the same bill and the same calls |
| `BillLifecycle.DistinctAddsAccumulate` | services/fees/workflow.go:101-124 | signals with explicit, distinct, new ids are appended in submission order; the total becomes the old sum plus the sum of the submitted amounts |
| `BillLifecycle.SavesMatchAppends` | services/fees/workflow.go:127-141 | the ids saved through SaveLineItem are exactly the appended ids, in order; the ids before plus the ids saved are the ids after |
| `BillLifecycle.SaveLineItemOncePerId` | services/fees/workflow.go:101-136 | SaveLineItem is never called twice for one id, nor for an id already on the bill |
| `BillLifecycle.FinalizeMatchesClose` | services/fees/workflow.go:157-174 | an open bill issues exactly one UpdateBillOnClose if and only if it ends closed; that call carries the final total and `ClosedAt` |
| `BillLifecycle.WorkflowOutcomeCases` | services/fees/workflow.go:27-62 | the run fails only at start: with the id-generation error exactly when the id is empty and generation failed, and with the upsert's cause exactly when the upsert failed. Otherwise the exposed bill satisfies the invariant and keeps the resolved id, customer, currency and creation time. It is OPEN without `ClosedAt` while running, and CLOSED with `ClosedAt` once completed |
| `BillLifecycle.UpsertFailureIsFatal` | services/fees/workflow.go:49-62 | when the upsert fails, the outcome is that failure for every command stream, and the only call ever made is the OPEN UpsertBill stamped with the creation time |
| `BillLifecycle.AddTwoItemsAndClose` | services/fees/workflow_test.go:84-153 | adding 100.50 and 50.25 and then closing completes with both items in order, a total of 150.75 and `ClosedAt` set |
| `Workflow.SumAmounts` | services/fees/workflow.go:120-124 | the accumulation loop returns the sum of the item amounts |
| `Workflow.HasLineItem` | services/fees/workflow.go:101-106 | the duplicate scan finds an id if and only if it is among the items' ids |
| `Workflow.BillActor.Init` | services/fees/workflow.go:37-45 | the constructed bill is the initial OPEN bill, satisfies the invariant, and has issued exactly the UpsertBill call |
| `Workflow.BillActor.AddLineItem` | services/fees/workflow.go:78-142 | the handler's new bill and issued calls are those of the reference step; the invariant is kept |
| `Workflow.BillActor.Append` | services/fees/workflow.go:108-136 | appending a new item keeps the invariant, re-totals the bill from all items and records exactly that item's SaveLineItem |
| `Workflow.BillActor.Close` | services/fees/workflow.go:145-176 | the handler's new bill and issued call are those of the reference Close step; the invariant is kept |
| `Workflow.BillActor.Handle` | services/fees/workflow.go:75-179 | the selector's dispatch hands a command to its handler: new bill and calls are those of the reference step |
| `Workflow.BillActor.Query` | services/fees/workflow.go:65-67 | the query returns a value copy of the current bill, and that copy satisfies the bill invariant |
| `Workflow.ServeCommands` | services/fees/workflow.go:74-186 | the main loop leaves the bill `Run` gives and adds exactly the calls `RunCalls` gives, keeping the invariant |
| `Workflow.BillWorkflow` | services/fees/workflow.go:12-190 | the imperative workflow's result and attempted calls equal the reference `WorkflowOutcome` and `WorkflowCalls` for every command order |
| `Service.WorkflowId` | services/fees/service.go:114 | the workflow id is "bill-" followed by the bill id, nothing more |
| `Service.WorkflowIdRoundTrip` | services/fees/service.go:114 | `"bill-" + billID` gives back its bill id, and every workflow id that names a bill is that bill's workflow id |
| `Service.WorkflowIdInjective` | services/fees/service.go:80 | two bills have the same workflow id only if they are the same bill |
| `Service.JoinCons` | services/fees/service.go:228-234 | joining read from the front is the first part, one separator, then the rest joined |
| `Service.Join` | services/fees/service.go:228-234 | the joined length is the parts' total length plus one separator per consecutive pair, and the last part ends the string |
| `Service.JoinAgreesWithFront` | services/fees/service.go:228-234 | the join equals the front-to-back join: the first part, a separator, then the rest, so every part appears in order with one separator between each consecutive pair |
| `Service.JoinParts` | services/fees/service.go:228-234 | the string-building loop produces the parts joined with " AND " |
| `Service.InvalidStatusMessage` | services/fees/service.go:225 | the rejection text starts with "invalid status parameter" and quotes the offending status |
| `Service.ListBillsQuery` | services/fees/service.go:213-226 | the type clause comes first. "OPEN" adds exactly the running filter and "CLOSED" exactly the completed filter. The empty status adds none. Any other status yields the "invalid status parameter" error and no query |
| `Service.ListFilterMatchesWorkflow` | services/fees/service.go:217-221 | a running workflow holds an OPEN bill, whose status maps to the running filter; a completed workflow holds a CLOSED bill, whose status maps to the completed filter. Whether the engine lists a workflow under a filter is not modelled |

`WorkflowId` is the same expression in CreateBill, AddLineItem, CloseBill
and GetBill (services/fees/service.go:80, 114, 131, 198). The model defines
it once. `Sum` is stated through `SumConcat`, `SumNonNegative` and the loop
`SumAmounts`; it carries no postcondition of its own, because a quantified
one would be re-instantiated in every proof that mentions a total.

## Left out

- The workflow engine's plumbing is not modelled: the selector, the signal
  channels, query-handler registration and the activity timeout. The
  selector's choice becomes an arbitrary command order. A failure to
  register the query handler (services/fees/workflow.go:65-71) is not
  modelled.
- The channel-closed branches (`!more`) deliver no command, so they do not
  appear.
- The panic-recovery `defer` is runtime behaviour and is not modelled.
- `workflowErr` is never assigned in the source, so the main loop's guard
  is modelled as `status == OPEN` alone.
- The SQL run by the three activities is not modelled. That includes the
  ON CONFLICT rule that keeps `total_amount` and the database driver
  itself. Each call is a recorded `ActivityCall` with its parameters and a
  success or failure outcome.
- Amounts are `float64` in the source. They are integers (minor units)
  here, so floating-point rounding in the sums is not modelled.
- `generateID` (uuid inside a recorded side effect) and the workflow clock
  are inputs. Replay and determinism are the engine's job.
- When id generation fails, the source wraps the side effect's error text
  ("failed to generate BillID: %w"). The model reports the error kind
  without that text.
- Logging is not modelled.
- In the service facade, these I/O paths are not modelled:
  - `initService` and `Shutdown`;
  - the client calls in CreateBill, AddLineItem and GetBill (only the
    workflow id they address is modelled);
  - CloseBill's polling loop;
  - ListBills' per-execution query loop and response assembly.
- The API payload structs in types.go are transport shapes only.
- `BillWorkflowParams`, `AddLineItemSignal`, the activity parameter
  structs, and the signal and query names are declared in a file that is
  not part of this model. Their fields are taken from their use in
  services/fees/workflow.go.
- The execution-status names "Running" and "Completed" come from the
  workflow engine's enumeration, which is not part of this model.
- The query handler returns a pointer to the live bill. Here it returns a
  value copy, which is what a caller receives once the result is
  serialized.
