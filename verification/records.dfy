/** The record shapes that flow through the pipeline. */
module Records {
  import opened Wrappers
  import opened Text

  /**
   * One transaction dictionary as `parse_transactions` builds it: the eight
   * columns `TransactionID|Date|ProductID|ProductName|Quantity|UnitPrice|CustomerID|Region`.
   * `UnitPrice` is a Python float; here it is an exact `real`.
   */
  datatype Transaction = Transaction(
    transactionId: string,
    date: string,
    productId: string,
    productName: string,
    quantity: int,
    unitPrice: real,
    customerId: string,
    region: string)

  /** `Quantity * UnitPrice`, the amount every aggregation sums. */
  function Amount(t: Transaction): real {
    t.quantity as real * t.unitPrice
  }

  /** The keys `API_Category`, `API_Brand`, `API_Rating`, `API_Match`; `None` is Python's `None`. */
  datatype ApiFields = ApiFields(category: Option<string>, brand: Option<string>, rating: Option<real>, matched: bool)

  /**
   * A transaction dictionary that may carry the four API keys: `api` is
   * `None` for a dictionary that has not been through the enrichment.
   */
  datatype Record = Record(tx: Transaction, api: Option<ApiFields>)

  /** `t.get('API_Match', False)`. */
  predicate Matched(r: Record) {
    r.api.Some? && r.api.value.matched
  }

  /** The fields the aggregations group by. */
  datatype Dim = ByDate | ByRegion | ByProduct | ByCustomer

  /** `transaction.get(<field>, '').strip()`: the group key; an empty key means the transaction is skipped. */
  function KeyOf(t: Transaction, d: Dim): string {
    match d
    case ByDate => Strip(t.date)
    case ByRegion => Strip(t.region)
    case ByProduct => Strip(t.productName)
    case ByCustomer => Strip(t.customerId)
  }
}
