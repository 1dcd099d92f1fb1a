/**
 * The bill's value types: its status enumeration, its line items and the
 * bill record itself, plus the Option and Result wrappers the rest of the
 * model uses for optional fields and error returns.
 */
module Types {

  datatype Option<+T> = None | Some(value: T)

  datatype Result<+T, +E> = Success(value: T) | Failure(error: E)

  /** Logical time as handed out by the workflow clock. */
  type Time = int

  /** A bill is either accepting line items or finalized; there is no third state. */
  datatype BillStatus = Open | Closed

  /** The wire name of a status. */
  function StatusName(s: BillStatus): string
  {
    match s
    case Open => "OPEN"
    case Closed => "CLOSED"
  }

  /** The status a wire name denotes, if any. */
  function ParseStatus(name: string): (r: Option<BillStatus>)
    ensures r.Some? ==> StatusName(r.value) == name
  {
    if name == "OPEN" then Some(Open)
    else if name == "CLOSED" then Some(Closed)
    else None
  }

  /** Every status has a distinct name that parses back to it. */
  lemma StatusNameRoundTrip(s: BillStatus)
    ensures ParseStatus(StatusName(s)) == Some(s)
    ensures |StatusName(s)| > 0
  {
  }

  /** Only the two status names parse; every other string is rejected. */
  lemma ParseStatusExactlyTwo(name: string)
    ensures ParseStatus(name).Some? <==> name == "OPEN" || name == "CLOSED"
  {
  }

  /** One charge on a bill; `amount` is in minor currency units. */
  datatype LineItem = LineItem(id: string, description: string, amount: int)

  /**
   * The bill aggregate as the workflow exposes it. `createdAt` and
   * `closedAt` are optional in the record; the lifecycle decides when
   * each is present.
   */
  datatype Bill = Bill(
    id: string,
    customerId: string,
    currency: string,
    status: BillStatus,
    lineItems: seq<LineItem>,
    totalAmount: int,
    createdAt: Option<Time>,
    closedAt: Option<Time>)
}
