/** The dashboard: first customers and accounts with full totals, the total
    balance, operation counts per type, and the chart data (accounts per type and
    the eight accounts with the largest balance). */
module Home {
  import opened Wrappers
  import opened Strings
  import opened AccountModel

  /** How many customers and accounts the dashboard lists. */
  const PreviewSize := 3

  /** How many accounts the top-balance chart shows. */
  const TopCount := 8

  /** The page size used to fetch the first account's operations. */
  const OperationsPageSize := 500

  /** The key an account without a type is counted under. */
  const UnknownType := "UNKNOWN"

  /** The operation counts before any operation is seen. */
  const InitialOpCounts: map<string, int> := map["DEBIT" := 0, "CREDIT" := 0, "TRANSFER" := 0]

  // ---------------------------------------------------------------- counting

  /** The sum of a map's values (a ghost reference for the counting loops). */
  ghost function SumValues(m: map<string, int>): int
    decreases |m|
  {
    if m == map[] then 0 else var k :| k in m; m[k] + SumValues(m - {k})
  }

  /** Any key can be taken out first when summing a map's values. */
  lemma {:induction false} SumValuesRemove(m: map<string, int>, k: string)
    requires k in m
    ensures SumValues(m) == m[k] + SumValues(m - {k})
    decreases |m|
  {
    var j :| j in m && SumValues(m) == m[j] + SumValues(m - {j});
    if j != k {
      assert m - {j} - {k} == m - {k} - {j};
      SumValuesRemove(m - {j}, k);
      SumValuesRemove(m - {k}, j);
    }
  }

  /** Incrementing one entry (or adding it with 1) raises the sum by one. */
  lemma SumValuesIncrement(m: map<string, int>, k: string)
    ensures SumValues(m[k := (if k in m then m[k] else 0) + 1]) == SumValues(m) + 1
  {
    var m' := m[k := (if k in m then m[k] else 0) + 1];
    SumValuesRemove(m', k);
    assert m' - {k} == m - {k};
    if k in m {
      SumValuesRemove(m, k);
    } else {
      assert m - {k} == m;
    }
  }

  /** Every initial operation count is zero. */
  lemma InitialOpCountsZero()
    ensures forall k :: k in InitialOpCounts ==> InitialOpCounts[k] == 0
  {
  }

  /** The three initial operation counts sum to zero. */
  lemma InitialOpCountsSum()
    ensures SumValues(InitialOpCounts) == 0
  {
    var m := InitialOpCounts;
    SumValuesRemove(m, "DEBIT");
    var m1 := m - {"DEBIT"};
    SumValuesRemove(m1, "CREDIT");
    var m2 := m1 - {"CREDIT"};
    SumValuesRemove(m2, "TRANSFER");
    assert m2 - {"TRANSFER"} == map[];
  }

  /** `counts` holds, for each key that is initial or in `seen`, its initial value
      plus its occurrences in `seen`, and no other key. */
  ghost predicate CountsOf(counts: map<string, int>, init: map<string, int>, seen: seq<string>) {
    (forall k :: k in counts <==> k in init || k in seen)
    && (forall k :: k in counts ==> counts[k] == (if k in init then init[k] else 0) + multiset(seen)[k])
  }

  /** One step of the counting loop keeps `CountsOf` with the key appended. */
  lemma CountsStep(counts: map<string, int>, init: map<string, int>, seen: seq<string>, k: string)
    requires CountsOf(counts, init, seen)
    ensures CountsOf(counts[k := (if k in counts then counts[k] else 0) + 1], init, seen + [k])
  {
    assert multiset(seen + [k]) == multiset(seen) + multiset{k};
    var c := counts[k := (if k in counts then counts[k] else 0) + 1];
    forall j | j in c
      ensures c[j] == (if j in init then init[j] else 0) + multiset(seen + [k])[j]
    {
      if j != k { assert j in counts; }
    }
  }

  /** Counts that agree with `CountsOf` sum to the initial sum plus the number of
      keys seen. */
  lemma {:induction false} CountsSum(counts: map<string, int>, init: map<string, int>, seen: seq<string>)
    requires CountsOf(counts, init, seen)
    ensures SumValues(counts) == SumValues(init) + |seen|
    decreases |seen|
  {
    if seen == [] {
      CountsNone(counts, init);
    } else {
      var prefix := seen[..|seen| - 1];
      var k := seen[|seen| - 1];
      assert seen == prefix + [k];
      var prev := CountsUndo(counts, init, prefix, k);
      CountsSum(prev, init, prefix);
      SumValuesIncrement(prev, k);
    }
  }

  /** With no key seen, the counts are the initial map. */
  lemma CountsNone(counts: map<string, int>, init: map<string, int>)
    requires CountsOf(counts, init, [])
    ensures counts == init
  {
  }

  /** Taking the last key back out of the counts gives counts for the shorter list,
      from which one counting step leads back. */
  lemma CountsUndo(counts: map<string, int>, init: map<string, int>, prefix: seq<string>, k: string)
      returns (prev: map<string, int>)
    requires CountsOf(counts, init, prefix + [k])
    ensures CountsOf(prev, init, prefix)
    ensures counts == prev[k := (if k in prev then prev[k] else 0) + 1]
  {
    assert multiset(prefix + [k]) == multiset(prefix) + multiset{k};
    prev := if k in init || k in prefix then counts[k := counts[k] - 1] else counts - {k};
    forall j | j in prev
      ensures prev[j] == (if j in init then init[j] else 0) + multiset(prefix)[j]
    {
      assert j in counts;
    }
    forall j | j in init || j in prefix
      ensures j in prev
    {
      assert j in counts;
    }
  }

  /** The `forEach` counting loop: starting from `init`, add one to the entry of each
      key in turn (`counts[k] = (counts[k] || 0) + 1`). Every key seen or initial is
      present and each entry is its initial value plus the key's occurrences. */
  method CountBy(keys: seq<string>, init: map<string, int>) returns (counts: map<string, int>)
    ensures forall k :: k in counts <==> k in init || k in keys
    ensures forall k :: k in counts ==> counts[k] == (if k in init then init[k] else 0) + multiset(keys)[k]
  {
    counts := init;
    var i := 0;
    assert keys[..0] == [];
    while i < |keys|
      invariant 0 <= i <= |keys|
      invariant CountsOf(counts, init, keys[..i])
    {
      var k := keys[i];
      CountsStep(counts, init, keys[..i], k);
      assert keys[..i + 1] == keys[..i] + [k];
      counts := counts[k := (if k in counts then counts[k] else 0) + 1];
      i := i + 1;
    }
    assert keys[..i] == keys;
    assert CountsOf(counts, init, keys);
  }

  function OpTypeKeys(ops: seq<AccountOperation>): (keys: seq<string>)
    ensures |keys| == |ops| && forall i :: 0 <= i < |ops| ==> keys[i] == TypeText(ops[i])
  {
    if ops == [] then [] else [TypeText(ops[0])] + OpTypeKeys(ops[1..])
  }

  /** `a.type || 'UNKNOWN'`. */
  function AccountTypeKey(a: BankAccountDTO): (k: string)
    ensures k != ""
    ensures a.accountType.Text? && a.accountType.text != "" ==> k == a.accountType.text
    ensures !a.accountType.Text? || a.accountType.text == "" ==> k == UnknownType
  {
    if a.accountType.Text? && a.accountType.text != "" then a.accountType.text else UnknownType
  }

  function AccountTypeKeys(accounts: seq<BankAccountDTO>): (keys: seq<string>)
    ensures |keys| == |accounts| && forall i :: 0 <= i < |accounts| ==> keys[i] == AccountTypeKey(accounts[i])
  {
    if accounts == [] then [] else [AccountTypeKey(accounts[0])] + AccountTypeKeys(accounts[1..])
  }

  /** The account-type chart's counts: one entry per type present (missing types
      under "UNKNOWN"), each the number of accounts of that type, summing to the
      number of accounts. */
  method AccountTypeCounts(accounts: seq<BankAccountDTO>) returns (counts: map<string, int>)
    ensures forall k :: k in counts <==> k in AccountTypeKeys(accounts)
    ensures forall k :: k in counts ==> counts[k] == multiset(AccountTypeKeys(accounts))[k]
    ensures SumValues(counts) == |accounts|
  {
    counts := CountBy(AccountTypeKeys(accounts), map[]);
    CountsSum(counts, map[], AccountTypeKeys(accounts));
  }

  // ---------------------------------------------------------------- balances

  /** `all.reduce((s, a) => s + (Number(a.balance) || 0), 0)`. With no negative
      balance, the total is not negative either. */
  function SumBalances(accounts: seq<BankAccountDTO>): (total: int)
    ensures (forall j :: 0 <= j < |accounts| ==> BalanceOf(accounts[j]) >= 0) ==> total >= 0
  {
    if accounts == [] then 0 else SumBalances(accounts[..|accounts| - 1]) + BalanceOf(accounts[|accounts| - 1])
  }

  /** The total balance adds up over a split of the list. */
  lemma {:induction false} SumBalancesConcat(a: seq<BankAccountDTO>, b: seq<BankAccountDTO>)
    ensures SumBalances(a + b) == SumBalances(a) + SumBalances(b)
    decreases |b|
  {
    if b == [] {
      assert a + b == a;
    } else {
      assert (a + b)[..|a + b| - 1] == a + b[..|b| - 1];
      SumBalancesConcat(a, b[..|b| - 1]);
    }
  }

  /** With no negative balance, the total is at least any single account's balance. */
  lemma {:induction false} SumBalancesBoundsEach(accounts: seq<BankAccountDTO>, i: nat)
    requires i < |accounts|
    requires forall j :: 0 <= j < |accounts| ==> BalanceOf(accounts[j]) >= 0
    ensures SumBalances(accounts) >= BalanceOf(accounts[i])
    decreases |accounts|
  {
    var n := |accounts| - 1;
    if i < n {
      SumBalancesBoundsEach(accounts[..n], i);
    }
  }

  // ---------------------------------------------------------------- top accounts

  /** Non-increasing by balance. */
  predicate SortedByBalanceDesc(xs: seq<BankAccountDTO>) {
    forall i, j :: 0 <= i < j < |xs| ==> BalanceOf(xs[i]) >= BalanceOf(xs[j])
  }

  /** Dropping the first element keeps a list sorted. */
  lemma SortedTail(xs: seq<BankAccountDTO>)
    requires xs != [] && SortedByBalanceDesc(xs)
    ensures SortedByBalanceDesc(xs[1..])
  {
    forall i, j | 0 <= i < j < |xs[1..]|
      ensures BalanceOf(xs[1..][i]) >= BalanceOf(xs[1..][j])
    {
      assert xs[1..][i] == xs[i + 1] && xs[1..][j] == xs[j + 1];
    }
  }

  /** A sorted list stays sorted with an element in front that is at least its head. */
  lemma SortedCons(x: BankAccountDTO, xs: seq<BankAccountDTO>)
    requires SortedByBalanceDesc(xs)
    requires xs != [] ==> BalanceOf(x) >= BalanceOf(xs[0])
    ensures SortedByBalanceDesc([x] + xs)
  {
    var r := [x] + xs;
    forall i, j | 0 <= i < j < |r|
      ensures BalanceOf(r[i]) >= BalanceOf(r[j])
    {
      assert r[j] == xs[j - 1];
      if i == 0 {
        assert BalanceOf(xs[0]) >= BalanceOf(xs[j - 1]);
      } else {
        assert r[i] == xs[i - 1];
      }
    }
  }

  /** In a sorted list a later element's balance is at most an earlier one's. */
  lemma SortedAt(xs: seq<BankAccountDTO>, j: nat, i: nat)
    requires SortedByBalanceDesc(xs) && j <= i < |xs|
    ensures BalanceOf(xs[i]) <= BalanceOf(xs[j])
  {
  }

  /** Insert `a` before the first element whose balance does not exceed its own. */
  function InsertByBalance(a: BankAccountDTO, xs: seq<BankAccountDTO>): (r: seq<BankAccountDTO>)
    requires SortedByBalanceDesc(xs)
    ensures SortedByBalanceDesc(r)
    ensures multiset(r) == multiset(xs) + multiset{a}
    ensures r != [] && (r[0] == a || (xs != [] && r[0] == xs[0]))
  {
    if xs == [] || BalanceOf(xs[0]) <= BalanceOf(a) then
      SortedCons(a, xs);
      [a] + xs
    else
      assert xs == [xs[0]] + xs[1..];
      SortedTail(xs);
      var rest := InsertByBalance(a, xs[1..]);
      assert BalanceOf(xs[0]) >= BalanceOf(rest[0]) by {
        if rest[0] != a { SortedAt(xs, 0, 1); }
      }
      SortedCons(xs[0], rest);
      assert multiset([xs[0]] + rest) == multiset{xs[0]} + multiset(rest);
      [xs[0]] + rest
  }

  /** A sort by balance, largest first (`[...all].sort((a, b) => bal(b) - bal(a))`). */
  function SortByBalanceDesc(xs: seq<BankAccountDTO>): (r: seq<BankAccountDTO>)
    ensures SortedByBalanceDesc(r)
    ensures multiset(r) == multiset(xs)
  {
    if xs == [] then []
    else
      assert xs == [xs[0]] + xs[1..];
      InsertByBalance(xs[0], SortByBalanceDesc(xs[1..]))
  }

  /** The accounts of the top-balance chart, `sorted.slice(0, 8)`: at most eight,
      drawn from `all`, in non-increasing balance order. */
  function TopAccounts(all: seq<BankAccountDTO>): (top: seq<BankAccountDTO>)
    ensures |top| == if |all| < TopCount then |all| else TopCount
    ensures multiset(top) <= multiset(all)
    ensures SortedByBalanceDesc(top)
  {
    var s := SortByBalanceDesc(all);
    assert |s| == |all| by { assert |multiset(s)| == |multiset(all)|; }
    var top := Take(s, TopCount);
    assert s == top + s[|top|..];
    assert multiset(s) == multiset(top) + multiset(s[|top|..]);
    SortedPrefix(s, |top|);
    top
  }

  /** A prefix of a sorted list is sorted. */
  lemma SortedPrefix(xs: seq<BankAccountDTO>, n: nat)
    requires SortedByBalanceDesc(xs) && n <= |xs|
    ensures SortedByBalanceDesc(xs[..n])
  {
    forall i, j | 0 <= i < j < n
      ensures BalanceOf(xs[..n][i]) >= BalanceOf(xs[..n][j])
    {
      SortedAt(xs, i, j);
    }
  }

  /** The sorted list is the top accounts followed by the ones left out. */
  lemma TopSplit(all: seq<BankAccountDTO>)
    ensures var s := SortByBalanceDesc(all);
            |TopAccounts(all)| <= |s| && s == TopAccounts(all) + s[|TopAccounts(all)|..]
            && multiset(all) - multiset(TopAccounts(all)) == multiset(s[|TopAccounts(all)|..])
  {
    var s := SortByBalanceDesc(all);
    var top := TopAccounts(all);
    assert s == top + s[|top|..];
    assert multiset(s) == multiset(top) + multiset(s[|top|..]);
  }

  /** No account left out of the top accounts has a larger balance than one shown. */
  lemma TopAccountsAreLargest(all: seq<BankAccountDTO>, x: BankAccountDTO, y: BankAccountDTO)
    requires x in multiset(all) - multiset(TopAccounts(all))
    requires y in TopAccounts(all)
    ensures BalanceOf(x) <= BalanceOf(y)
  {
    var s := SortByBalanceDesc(all);
    var n := |TopAccounts(all)|;
    TopSplit(all);
    assert x in s[n..];
    var i :| n <= i < |s| && s[i] == x;
    var j :| 0 <= j < n && s[j] == y;
    SortedAt(s, j, i);
  }

  /** `` `${a.type} ${(a.id || a.accountId) || 'N/A'}` ``: the type as JavaScript
      prints it ("undefined" or "null" when it has none), a space, then the id or
      "N/A". */
  function TopAccountLabel(a: BankAccountDTO): (l: string)
    ensures var t := Stringify(a.accountType);
            var id := match IdOf(a) case Some(v) => v case None => "N/A";
            |l| == |t| + 1 + |id| && l[..|t|] == t && l[|t|] == ' ' && l[|t| + 1..] == id
  {
    Stringify(a.accountType) + " " + (match IdOf(a) case Some(id) => id case None => "N/A")
  }

  /** `a.id || a.accountId`, when either is a non-empty string. */
  function IdOf(a: BankAccountDTO): (r: Option<string>)
    ensures r.Some? ==> r.value != ""
    ensures r.None? <==> (a.id.None? || a.id.value == "") && (a.accountId.None? || a.accountId.value == "")
  {
    if a.id.Some? && a.id.value != "" then a.id
    else if a.accountId.Some? && a.accountId.value != "" then a.accountId
    else None
  }

  /** The top-balance chart's labels and data: equally long, at most eight, the data
      the balances of the largest accounts in non-increasing order. */
  function TopAccountsChart(all: seq<BankAccountDTO>): (chart: (seq<string>, seq<int>))
    ensures |chart.0| == |chart.1| == |TopAccounts(all)| <= TopCount
    ensures forall i, j :: 0 <= i < j < |chart.1| ==> chart.1[i] >= chart.1[j]
    ensures forall i :: 0 <= i < |chart.1| ==> chart.1[i] == BalanceOf(TopAccounts(all)[i])
  {
    var top := TopAccounts(all);
    var labels := seq(|top|, i requires 0 <= i < |top| => TopAccountLabel(top[i]));
    var data := seq(|top|, i requires 0 <= i < |top| => BalanceOf(top[i]));
    assert forall i, j :: 0 <= i < j < |data| ==> data[i] >= data[j] by {
      forall i, j | 0 <= i < j < |data| ensures data[i] >= data[j] {
        assert data[i] == BalanceOf(top[i]) && data[j] == BalanceOf(top[j]);
      }
    }
    (labels, data)
  }

  // ---------------------------------------------------------------- component

  datatype Request =
    | GetCustomers
    | GetAccounts
    | GetAccountPage(accountId: string, page: int, size: int)

  /** The operations request the accounts reply triggers: page 0 of the first
      account's operations when that account has an id, otherwise nothing. */
  function OperationsRequestFor(all: seq<BankAccountDTO>): (r: seq<Request>)
    ensures |r| <= 1
    ensures r != [] <==> all != [] && IdOf(all[0]).Some?
    ensures r != [] ==> r[0] == GetAccountPage(IdOf(all[0]).value, 0, OperationsPageSize)
  {
    if |all| > 0 then
      var maybeId := IdOf(all[0]);
      if maybeId.Some? then [GetAccountPage(maybeId.value, 0, OperationsPageSize)] else []
    else []
  }

  /** Every field of the page, so that a handler's contract can give the whole new
      state as the old one with a few fields replaced. */
  datatype HomeState = HomeState(
    customers: seq<Customer>,
    accounts: seq<BankAccountDTO>,
    allAccounts: seq<BankAccountDTO>,
    allOperations: seq<AccountOperation>,
    loadingCustomers: bool,
    loadingAccounts: bool,
    showGraphs: bool,
    totalCustomers: int,
    totalAccounts: int,
    totalBalance: int,
    recentOpsCount: int,
    opsByType: map<string, int>,
    requests: seq<Request>)

  class HomeComponent {
    var customers: seq<Customer>
    var accounts: seq<BankAccountDTO>
    var allAccounts: seq<BankAccountDTO>
    var allOperations: seq<AccountOperation>
    var loadingCustomers: bool
    var loadingAccounts: bool
    var showGraphs: bool
    var totalCustomers: int
    var totalAccounts: int
    var totalBalance: int
    var recentOpsCount: int
    var opsByType: map<string, int>
    /** The HTTP calls issued so far. */
    var requests: seq<Request>

    /** The page's fields as one value. */
    function State(): HomeState
      reads this
    {
      HomeState(customers, accounts, allAccounts, allOperations, loadingCustomers, loadingAccounts,
                showGraphs, totalCustomers, totalAccounts, totalBalance, recentOpsCount, opsByType, requests)
    }

    constructor ()
      ensures customers == [] && accounts == [] && allAccounts == [] && allOperations == []
      ensures !loadingCustomers && !loadingAccounts && !showGraphs
      ensures totalCustomers == 0 && totalAccounts == 0 && totalBalance == 0 && recentOpsCount == 0
      ensures opsByType == InitialOpCounts && requests == []
    {
      customers, accounts, allAccounts, allOperations := [], [], [], [];
      loadingCustomers, loadingAccounts, showGraphs := false, false, false;
      totalCustomers, totalAccounts, totalBalance, recentOpsCount := 0, 0, 0, 0;
      opsByType, requests := InitialOpCounts, [];
    }

    /** `ngOnInit()`: load the customers, then the accounts. */
    method NgOnInit()
      modifies this
      ensures State() == old(State()).(loadingCustomers := true, loadingAccounts := true,
                                       requests := old(requests) + [GetCustomers, GetAccounts])
    {
      LoadCustomers();
      LoadAccounts();
    }

    /** `loadCustomers()`: set the flag and request the customers. */
    method LoadCustomers()
      modifies this
      ensures State() == old(State()).(loadingCustomers := true, requests := old(requests) + [GetCustomers])
    {
      loadingCustomers := true;
      requests := requests + [GetCustomers];
    }

    /** The reply to `loadCustomers()`: the first three customers and the full count;
        null data counts as no customers. */
    method OnCustomers(data: Option<seq<Customer>>)
      modifies this
      ensures customers == Take(data.GetOr([]), PreviewSize) && |customers| <= PreviewSize
      ensures totalCustomers == |data.GetOr([])|
      ensures State() == old(State()).(customers := customers, totalCustomers := totalCustomers,
                                       loadingCustomers := false)
    {
      var all := data.GetOr([]);
      customers := Take(all, PreviewSize);
      totalCustomers := |all|;
      loadingCustomers := false;
    }

    /** The failure of `loadCustomers()`: only the flag is cleared. */
    method OnCustomersError()
      modifies this
      ensures State() == old(State()).(loadingCustomers := false)
    {
      loadingCustomers := false;
    }

    /** `loadAccounts()`: set the flag and request the accounts. */
    method LoadAccounts()
      modifies this
      ensures State() == old(State()).(loadingAccounts := true, requests := old(requests) + [GetAccounts])
    {
      loadingAccounts := true;
      requests := requests + [GetAccounts];
    }

    /** The reply to `loadAccounts()`: the first three accounts, all of them, their
        count and total balance; the first account's operations are requested when it
        has an id. */
    method OnAccounts(data: Option<seq<BankAccountDTO>>)
      modifies this
      ensures var all := data.GetOr([]);
        State() == old(State()).(
          accounts := Take(all, PreviewSize),
          allAccounts := all,
          totalAccounts := |all|,
          totalBalance := SumBalances(all),
          loadingAccounts := false,
          requests := old(requests) + OperationsRequestFor(all))
    {
      var all := data.GetOr([]);
      StoreAccounts(Take(all, PreviewSize), all, SumBalances(all), OperationsRequestFor(all));
    }

    /** The assignments of the accounts reply, given the values it computes. */
    method StoreAccounts(preview: seq<BankAccountDTO>, all: seq<BankAccountDTO>, total: int, follow: seq<Request>)
      modifies this
      ensures State() == old(State()).(accounts := preview, allAccounts := all, totalAccounts := |all|,
                                       totalBalance := total, loadingAccounts := false,
                                       requests := old(requests) + follow)
    {
      accounts, allAccounts, totalAccounts, totalBalance := preview, all, |all|, total;
      requests := requests + follow;
      loadingAccounts := false;
    }

    /** The failure of `loadAccounts()`: only the flag is cleared. */
    method OnAccountsError()
      modifies this
      ensures State() == old(State()).(loadingAccounts := false)
    {
      loadingAccounts := false;
    }

    /** `populateChartData()`: count the loaded operations per type, with DEBIT,
        CREDIT and TRANSFER always present. */
    method PopulateChartData()
      modifies this
      ensures forall k :: k in opsByType <==> k in InitialOpCounts || k in OpTypeKeys(allOperations)
      ensures forall k :: k in opsByType ==> opsByType[k] == multiset(OpTypeKeys(allOperations))[k]
      ensures SumValues(opsByType) == |allOperations|
      ensures State() == old(State()).(opsByType := opsByType, recentOpsCount := |old(allOperations)|)
    {
      var keys := OpTypeKeys(allOperations);
      var counts := CountBy(keys, InitialOpCounts);
      CountsSum(counts, InitialOpCounts, keys);
      InitialOpCountsSum();
      InitialOpCountsZero();
      opsByType := counts;
      recentOpsCount := |allOperations|;
    }

    /** The reply to the operations request: the operations are stored and counted. */
    method OnOperations(ad: AccountDetails)
      modifies this
      ensures allOperations == OperationsOf(ad)
      ensures forall k :: k in opsByType <==> k in InitialOpCounts || k in OpTypeKeys(allOperations)
      ensures forall k :: k in opsByType ==> opsByType[k] == multiset(OpTypeKeys(allOperations))[k]
      ensures SumValues(opsByType) == |allOperations|
      ensures State() == old(State()).(allOperations := OperationsOf(ad), opsByType := opsByType,
                                       recentOpsCount := |OperationsOf(ad)|)
    {
      allOperations := OperationsOf(ad);
      PopulateChartData();
    }

    /** A failed operations fetch: no operations, every count zero. */
    method OnOperationsError()
      modifies this
      ensures State() == old(State()).(allOperations := [], opsByType := InitialOpCounts, recentOpsCount := 0)
    {
      allOperations := [];
      PopulateChartData();
      assert OpTypeKeys([]) == [];
    }

    /** `toggleGraphs()`: flip the graphs' visibility (rendering is not modelled). */
    method ToggleGraphs()
      modifies this
      ensures State() == old(State()).(showGraphs := !old(showGraphs))
    {
      showGraphs := !showGraphs;
    }
  }
}
