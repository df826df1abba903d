/** The account shapes the front end receives from the REST back end, and the
    JavaScript coercions the components apply to their fields. Balances and
    amounts are integers. */
module AccountModel {
  import opened Wrappers

  /** A text field of a JSON reply: left out, sent as `null`, or a string. */
  datatype TextField = Absent | Null | Text(text: string)

  /** `String(x)` and `${x}` on such a field: "undefined" when left out and "null"
      for `null`. */
  function Stringify(f: TextField): (s: string)
    ensures f.Absent? ==> s == "undefined"
    ensures f.Null? ==> s == "null"
    ensures f.Text? ==> s == f.text
  {
    match f
    case Absent => "undefined"
    case Null => "null"
    case Text(t) => t
  }

  /** One entry of an account's history. The operation date is not modelled. */
  datatype AccountOperation = AccountOperation(
    id: int,
    amount: int,
    opType: TextField,
    description: Option<string>)

  /** One page of an account's history (`AccountDetails`); a field the reply omits is `None`. */
  datatype AccountDetails = AccountDetails(
    accountId: string,
    balance: int,
    currentPage: int,
    totalPages: Option<int>,
    pageSize: int,
    accountOperationDTOS: Option<seq<AccountOperation>>)

  /** The customer summary embedded in an account (`customerDTO`). */
  datatype CustomerRef = CustomerRef(id: Option<int>, name: Option<string>, email: Option<string>)

  /** `BankAccountDTO`: every field optional, as in the interface. The creation date is not modelled. */
  datatype BankAccountDTO = BankAccountDTO(
    id: Option<string>,
    accountId: Option<string>,
    accountType: TextField,
    balance: Option<int>,
    status: Option<string>,
    customerDTO: Option<CustomerRef>)

  /** A customer record. */
  datatype Customer = Customer(id: int, name: string, email: string)

  /** `data.accountOperationDTOS || []`. */
  function OperationsOf(d: AccountDetails): (ops: seq<AccountOperation>)
    ensures d.accountOperationDTOS.None? ==> ops == []
    ensures d.accountOperationDTOS.Some? ==> ops == d.accountOperationDTOS.value
  {
    d.accountOperationDTOS.GetOr([])
  }

  /** `data.totalPages || 0`. */
  function TotalPagesOf(d: AccountDetails): (n: int)
    ensures d.totalPages.None? ==> n == 0
    ensures d.totalPages.Some? ==> n == d.totalPages.value
  {
    d.totalPages.GetOr(0)
  }

  /** `Number(a.balance) || 0`: a missing balance counts as 0. */
  function BalanceOf(a: BankAccountDTO): (b: int)
    ensures a.balance.None? ==> b == 0
    ensures a.balance.Some? ==> b == a.balance.value
  {
    a.balance.GetOr(0)
  }

  /** `String(o.type)`: a missing type reads as "undefined", a `null` one as "null". */
  function TypeText(o: AccountOperation): (s: string)
    ensures o.opType.Absent? ==> s == "undefined"
    ensures o.opType.Null? ==> s == "null"
    ensures o.opType.Text? ==> s == o.opType.text
  {
    Stringify(o.opType)
  }
}
