/**
 * The pure parts of the fees service facade: the workflow id every bill
 * operation addresses, and the visibility query ListBills sends for a
 * status filter.
 */
module Service {
  import opened Types
  import opened BillLifecycle

  const WORKFLOW_ID_PREFIX := "bill-"
  const QUERY_SEPARATOR := " AND "
  const WORKFLOW_TYPE_CLAUSE := "WorkflowType = 'BillWorkflow'"
  /** The filters use the execution-status names of the workflow engine's enumeration. */
  const RUNNING_FILTER := "ExecutionStatus = 'Running'"
  const COMPLETED_FILTER := "ExecutionStatus = 'Completed'"
  const INVALID_STATUS_PREFIX := "invalid status parameter"

  // ---------------------------------------------------------------------
  // Workflow ids
  // ---------------------------------------------------------------------

  /** The workflow id used by CreateBill, AddLineItem, CloseBill and GetBill alike. */
  function WorkflowId(billId: string): (wfId: string)
    ensures |wfId| == |WORKFLOW_ID_PREFIX| + |billId|
    ensures wfId[..|WORKFLOW_ID_PREFIX|] == WORKFLOW_ID_PREFIX && wfId[|WORKFLOW_ID_PREFIX|..] == billId
  {
    WORKFLOW_ID_PREFIX + billId
  }

  /** The bill a workflow id belongs to, if it is a bill workflow id. */
  function BillIdOf(wfId: string): (r: Option<string>)
  {
    if |wfId| >= |WORKFLOW_ID_PREFIX| && wfId[..|WORKFLOW_ID_PREFIX|] == WORKFLOW_ID_PREFIX
    then Some(wfId[|WORKFLOW_ID_PREFIX|..])
    else None
  }

  /**
   * Workflow ids and bill ids are in one-to-one correspondence: the bill id
   * is recovered from its workflow id, and every id that names a bill is
   * that bill's workflow id.
   */
  lemma WorkflowIdRoundTrip(billId: string, wfId: string)
    ensures BillIdOf(WorkflowId(billId)) == Some(billId)
    ensures BillIdOf(wfId) == Some(billId) ==> WorkflowId(billId) == wfId
  {
    if BillIdOf(wfId) == Some(billId) {
      assert wfId == wfId[..|WORKFLOW_ID_PREFIX|] + wfId[|WORKFLOW_ID_PREFIX|..];
    }
  }

  /** Two bills never share a workflow. */
  lemma WorkflowIdInjective(a: string, b: string)
    ensures WorkflowId(a) == WorkflowId(b) <==> a == b
  {
    WorkflowIdRoundTrip(a, WorkflowId(b));
  }

  // ---------------------------------------------------------------------
  // The ListBills query
  // ---------------------------------------------------------------------

  /** The combined length of the parts. */
  function TotalLength(parts: seq<string>): nat
  {
    if |parts| == 0 then 0 else TotalLength(parts[..|parts| - 1]) + |parts[|parts| - 1]|
  }

  /**
   * The query parts joined with the separator between consecutive parts
   * only: the joined length is the parts' total length plus one separator
   * per consecutive pair, and the last part ends the string.
   */
  function Join(parts: seq<string>): (joined: string)
    ensures |parts| > 0 ==> |joined| == TotalLength(parts) + |QUERY_SEPARATOR| * (|parts| - 1)
    ensures |parts| > 0 ==> joined[|joined| - |parts[|parts| - 1]|..] == parts[|parts| - 1]
  {
    if |parts| == 0 then ""
    else if |parts| == 1 then parts[0]
    else Join(parts[..|parts| - 1]) + QUERY_SEPARATOR + parts[|parts| - 1]
  }

  /** The join read from the front, part by part, as an independent reference. */
  function JoinFront(parts: seq<string>): string
  {
    if |parts| == 0 then ""
    else if |parts| == 1 then parts[0]
    else parts[0] + QUERY_SEPARATOR + JoinFront(parts[1..])
  }

  /** Joining read from the front: the first part, a separator, then the rest joined. */
  lemma {:induction false} JoinCons(p: string, ps: seq<string>)
    requires |ps| > 0
    ensures Join([p] + ps) == p + QUERY_SEPARATOR + Join(ps)
    decreases |ps|
  {
    var all := [p] + ps;
    if |ps| == 1 {
      assert all[..1] == [p];
    } else {
      var front := ps[..|ps| - 1];
      assert all[..|all| - 1] == [p] + front;
      assert all[|all| - 1] == ps[|ps| - 1];
      JoinCons(p, front);
    }
  }

  /**
   * The joined string is exactly the parts in order with one separator
   * between each consecutive pair: it equals the front-to-back join.
   */
  lemma {:induction false} JoinAgreesWithFront(parts: seq<string>)
    ensures Join(parts) == JoinFront(parts)
    decreases |parts|
  {
    if |parts| > 1 {
      JoinAgreesWithFront(parts[1..]);
      assert parts == [parts[0]] + parts[1..];
      JoinCons(parts[0], parts[1..]);
    }
  }

  /** The string-building loop of ListBills. */
  method JoinParts(parts: seq<string>) returns (query: string)
    ensures query == Join(parts)
  {
    query := "";
    var i := 0;
    while i < |parts|
      invariant 0 <= i <= |parts|
      invariant query == Join(parts[..i])
    {
      assert parts[..i + 1][..i] == parts[..i];
      if i > 0 {
        query := query + QUERY_SEPARATOR;
      }
      query := query + parts[i];
      i := i + 1;
    }
    assert parts[..i] == parts;
  }

  /** The rejection text: the fixed prefix, then the offending status quoted. */
  function InvalidStatusMessage(status: string): (msg: string)
    ensures |msg| > |INVALID_STATUS_PREFIX| + 3 + |status|
    ensures msg[..|INVALID_STATUS_PREFIX|] == INVALID_STATUS_PREFIX
    ensures msg[|INVALID_STATUS_PREFIX| + 3..|INVALID_STATUS_PREFIX| + 3 + |status|] == status
  {
    INVALID_STATUS_PREFIX + ": '" + status + "'. Must be 'OPEN', 'CLOSED', or empty"
  }

  /** The execution status a bill status is listed by. */
  function ExecutionStatusFilter(s: BillStatus): string
  {
    match s
    case Open => RUNNING_FILTER
    case Closed => COMPLETED_FILTER
  }

  /**
   * The visibility query ListBills sends for a status parameter. The
   * workflow-type clause always comes first; a status name adds exactly its
   * execution-status filter; the empty status adds none; anything else is
   * rejected before a query is built.
   */
  method ListBillsQuery(status: string) returns (r: Result<string, string>)
    ensures r.Success? <==> status == "" || ParseStatus(status).Some?
    ensures ParseStatus(status).Some? ==>
      r == Success(WORKFLOW_TYPE_CLAUSE + QUERY_SEPARATOR + ExecutionStatusFilter(ParseStatus(status).value))
    ensures status == "" ==> r == Success(WORKFLOW_TYPE_CLAUSE)
    ensures r.Failure? ==>
      r.error == InvalidStatusMessage(status) && r.error[..|INVALID_STATUS_PREFIX|] == INVALID_STATUS_PREFIX
  {
    var queryParts := [WORKFLOW_TYPE_CLAUSE];
    if status == StatusName(Open) {
      queryParts := queryParts + [RUNNING_FILTER];
    } else if status == StatusName(Closed) {
      queryParts := queryParts + [COMPLETED_FILTER];
    } else if status == "" {
    } else {
      return Failure(InvalidStatusMessage(status));
    }
    var query := JoinParts(queryParts);
    if |queryParts| == 2 {
      assert queryParts[..1] == [WORKFLOW_TYPE_CLAUSE];
    }
    return Success(query);
  }

  /**
   * The filter a workflow's bill status maps to matches the workflow's own
   * state: a workflow that is still running holds a bill whose status maps
   * to the running filter, and one that has completed a bill whose status
   * maps to the completed filter.
   */
  lemma ListFilterMatchesWorkflow(params: BillWorkflowParams, generatedId: Option<string>, now: Time,
                                  upsertError: Option<string>, cmds: seq<Command>)
    ensures var o := WorkflowOutcome(params, generatedId, now, upsertError, cmds);
      && (o.Running? ==> o.bill.status == Open && ExecutionStatusFilter(o.bill.status) == RUNNING_FILTER)
      && (o.Completed? ==> o.bill.status == Closed && ExecutionStatusFilter(o.bill.status) == COMPLETED_FILTER)
  {
    WorkflowOutcomeCases(params, generatedId, now, upsertError, cmds);
  }
}
