/** The customer's accounts page: the customer comes from the navigation state or,
    failing that, from the back end; the accounts are all accounts filtered down
    to that customer's. */
module CustomerAccounts {
  import opened Wrappers
  import opened Seqs
  import opened AccountModel

  /** `a.customerDTO && a.customerDTO.id === customerId`. */
  function OwnedBy(a: BankAccountDTO, customerId: int): (b: bool)
    ensures a.customerDTO.None? ==> !b
    ensures a.customerDTO.Some? ==> (b <==> a.customerDTO.value.id == Some(customerId))
  {
    a.customerDTO.Some? && a.customerDTO.value.id == Some(customerId)
  }

  /** `(data || []).filter(a => a.customerDTO && a.customerDTO.id === customerId)`:
      the accounts of that customer, in their original order. */
  function AccountsOf(data: Option<seq<BankAccountDTO>>, customerId: int): (r: seq<BankAccountDTO>)
    ensures data.None? ==> r == []
    ensures data.Some? ==> IsSubsequence(r, data.value)
    ensures forall i :: 0 <= i < |r| ==> OwnedBy(r[i], customerId) && r[i] in data.GetOr([])
    ensures forall i :: 0 <= i < |data.GetOr([])| && OwnedBy(data.GetOr([])[i], customerId) ==> data.GetOr([])[i] in r
    ensures forall a :: multiset(r)[a] == if OwnedBy(a, customerId) then multiset(data.GetOr([]))[a] else 0
  {
    var all := data.GetOr([]);
    FilterIsSubsequence(all, (a: BankAccountDTO) => OwnedBy(a, customerId));
    FilterCounts(all, (a: BankAccountDTO) => OwnedBy(a, customerId));
    Filter(all, (a: BankAccountDTO) => OwnedBy(a, customerId))
  }

  /** An account without a customer summary is never listed. */
  lemma NoCustomerNeverListed(data: seq<BankAccountDTO>, customerId: int, a: BankAccountDTO)
    requires a.customerDTO.None?
    ensures a !in AccountsOf(Some(data), customerId)
  {
  }

  datatype Request = GetCustomer(id: int) | GetAccounts

  class CustomerAccountsComponent {
    var customerId: int
    var customer: Option<Customer>
    var accounts: seq<BankAccountDTO>
    var loading: bool
    /** The HTTP calls issued so far. */
    var requests: seq<Request>

    /** The constructor reads the customer from the navigation state, if any. */
    constructor (navigationState: Option<Customer>)
      ensures customer == navigationState && accounts == [] && !loading && requests == []
    {
      customerId := 0;
      customer := navigationState;
      accounts, loading, requests := [], false, [];
    }

    /** `ngOnInit()`: the customer is fetched only when the navigation state did not
        supply it; the accounts are always fetched. */
    method NgOnInit(routeId: int)
      modifies this
      ensures customerId == routeId && loading
      ensures requests == old(requests)
                + (if old(customer).None? then [GetCustomer(routeId)] else [])
                + [GetAccounts]
      ensures customer == old(customer) && accounts == old(accounts)
    {
      customerId := routeId;
      if customer.None? {
        requests := requests + [GetCustomer(customerId)];
      }
      loading := true;
      requests := requests + [GetAccounts];
    }

    /** The reply to the customer request. */
    method OnCustomer(c: Customer)
      modifies this
      ensures customer == Some(c)
      ensures customerId == old(customerId) && accounts == old(accounts) && loading == old(loading) && requests == old(requests)
    {
      customer := Some(c);
    }

    /** The reply to the accounts request: keep this customer's accounts; stop loading. */
    method OnAccounts(data: Option<seq<BankAccountDTO>>)
      modifies this
      ensures accounts == AccountsOf(data, customerId) && !loading
      ensures customerId == old(customerId) && customer == old(customer) && requests == old(requests)
    {
      accounts := AccountsOf(data, customerId);
      loading := false;
    }

    /** The failure of the accounts request: stop loading, nothing else changes. */
    method OnAccountsError()
      modifies this
      ensures !loading
      ensures customerId == old(customerId) && customer == old(customer) && accounts == old(accounts) && requests == old(requests)
    {
      loading := false;
    }
  }
}
