/** The account page: a scrollable operation list filled page by page, and the
    operation form that submits a debit, a credit or a transfer. */
module AccountDetail {
  import opened Wrappers
  import opened AccountModel

  /** The page size of the scrollable list (`pageSizeLarge`). */
  const LargePageSize := 200

  const SavedText := "Operation created successfully!"
  const DefaultOperationError := "Operation failed"

  /** The HTTP calls the page issues, in the order it issues them. */
  datatype Request =
    | GetAccountMeta(accountId: string)
    /** A page of operations; `append` says whether its reply extends or replaces the list. */
    | GetAccountPage(accountId: string, page: int, size: int, append: bool)
    | Debit(accountId: string, amount: Option<int>, description: Option<string>)
    | Credit(accountId: string, amount: Option<int>, description: Option<string>)
    | Transfer(accountId: string, destination: Option<string>, amount: Option<int>, description: Option<string>)

  /** The values of the operation form's controls; `None` is null. */
  datatype OperationForm = OperationForm(
    operationType: Option<string>,
    amount: Option<int>,
    description: Option<string>,
    accountDestination: Option<string>)

  /** The form as `ngOnInit` builds it. */
  const InitialForm := OperationForm(None, Some(0), None, None)

  /** The form after `reset()`: every control null. */
  const ResetForm := OperationForm(None, None, None, None)

  /** The form's validators: `operationType` required, `amount` required and at least
      0.01, which for an integer amount means at least 1. */
  function FormValid(f: OperationForm): (b: bool)
    ensures f.operationType.None? || f.operationType == Some("") || f.amount.None? ==> !b
    ensures f.amount.Some? && f.amount.value < 1 ==> !b
    ensures f.operationType.Some? && f.operationType.value != "" && f.amount.Some? && f.amount.value >= 1 ==> b
  {
    f.operationType.Some? && f.operationType.value != "" && f.amount.Some? && f.amount.value >= 1
  }

  /** The request `handleOperation` issues for a valid form: one of debit, credit or
      transfer by the operation type, and none for any other type. */
  function OperationRequest(accountId: string, f: OperationForm): (r: Option<Request>)
    ensures r.Some? <==> f.operationType in {Some("DEBIT"), Some("CREDIT"), Some("TRANSFER")}
    ensures r.Some? ==> (r.value.Debit? || r.value.Credit? || r.value.Transfer?) && r.value.accountId == accountId && r.value.amount == f.amount && r.value.description == f.description
    ensures f.operationType == Some("DEBIT") ==> r.Some? && r.value.Debit?
    ensures f.operationType == Some("CREDIT") ==> r.Some? && r.value.Credit?
    ensures f.operationType == Some("TRANSFER") ==> r.Some? && r.value.Transfer? && r.value.destination == f.accountDestination
  {
    match f.operationType
    case Some("DEBIT") => Some(Debit(accountId, f.amount, f.description))
    case Some("CREDIT") => Some(Credit(accountId, f.amount, f.description))
    case Some("TRANSFER") => Some(Transfer(accountId, f.accountDestination, f.amount, f.description))
    case _ => None
  }

  /** `err?.message || 'Operation failed'`. */
  function OperationErrorText(message: Option<string>): (s: string)
    ensures s != ""
    ensures message.Some? && message.value != "" ==> s == message.value
    ensures message.None? || message.value == "" ==> s == DefaultOperationError
  {
    if message.Some? && message.value != "" then message.value else DefaultOperationError
  }

  class AccountDetailComponent {
    var accountId: string
    var accountMeta: Option<BankAccountDTO>
    var accountDetails: Option<AccountDetails>
    var errorMessage: Option<string>
    var loading: bool
    var opsList: seq<AccountOperation>
    var nextPageToLoad: int
    var hasMoreOps: bool
    var loadingMore: bool
    var form: OperationForm
    var isSubmitting: bool
    var savedMessage: Option<string>
    /** The HTTP calls issued so far. */
    var requests: seq<Request>

    constructor ()
      ensures accountMeta.None? && accountDetails.None? && errorMessage.None?
      ensures !loading && opsList == [] && nextPageToLoad == 0 && !hasMoreOps && !loadingMore
      ensures form == InitialForm && !isSubmitting && savedMessage.None? && requests == []
    {
      accountId := "";
      accountMeta, accountDetails, errorMessage := None, None, None;
      loading, opsList, nextPageToLoad, hasMoreOps, loadingMore := false, [], 0, false, false;
      form, isSubmitting, savedMessage, requests := InitialForm, false, None, [];
    }

    /** `ngOnInit()`: take the id from the route, build the form, request the
        account and the first page of operations. */
    method NgOnInit(routeId: string)
      modifies this
      ensures accountId == routeId && form == InitialForm
      ensures requests == old(requests) + [GetAccountMeta(routeId), GetAccountPage(routeId, 0, LargePageSize, false)]
      ensures loading && nextPageToLoad == 1
      ensures opsList == old(opsList) && hasMoreOps == old(hasMoreOps) && loadingMore == old(loadingMore)
      ensures isSubmitting == old(isSubmitting) && errorMessage == old(errorMessage)
      ensures accountMeta == old(accountMeta) && accountDetails == old(accountDetails) && savedMessage == old(savedMessage)
    {
      accountId := routeId;
      form := InitialForm;
      LoadAccountMeta();
      LoadOperationsScroll(0, LargePageSize);
    }

    /** `loadAccountMeta()`: request the account itself. */
    method LoadAccountMeta()
      modifies this
      ensures requests == old(requests) + [GetAccountMeta(accountId)]
      ensures accountId == old(accountId) && loading == old(loading) && nextPageToLoad == old(nextPageToLoad)
      ensures opsList == old(opsList) && hasMoreOps == old(hasMoreOps) && loadingMore == old(loadingMore)
      ensures form == old(form) && isSubmitting == old(isSubmitting) && errorMessage == old(errorMessage)
      ensures accountMeta == old(accountMeta) && accountDetails == old(accountDetails) && savedMessage == old(savedMessage)
    {
      requests := requests + [GetAccountMeta(accountId)];
    }

    /** The reply to `loadAccountMeta()`. */
    method OnAccountMeta(data: BankAccountDTO)
      modifies this
      ensures accountMeta == Some(data)
      ensures accountId == old(accountId) && loading == old(loading) && nextPageToLoad == old(nextPageToLoad)
      ensures opsList == old(opsList) && hasMoreOps == old(hasMoreOps) && loadingMore == old(loadingMore)
      ensures form == old(form) && isSubmitting == old(isSubmitting) && errorMessage == old(errorMessage)
      ensures accountDetails == old(accountDetails) && savedMessage == old(savedMessage) && requests == old(requests)
    {
      accountMeta := Some(data);
    }

    /** The failure of `loadAccountMeta()`: the error's message is shown. */
    method OnAccountMetaError(message: Option<string>)
      modifies this
      ensures errorMessage == message
      ensures accountId == old(accountId) && loading == old(loading) && nextPageToLoad == old(nextPageToLoad)
      ensures opsList == old(opsList) && hasMoreOps == old(hasMoreOps) && loadingMore == old(loadingMore)
      ensures form == old(form) && isSubmitting == old(isSubmitting) && accountMeta == old(accountMeta)
      ensures accountDetails == old(accountDetails) && savedMessage == old(savedMessage) && requests == old(requests)
    {
      errorMessage := message;
    }

    /** `loadOperationsScroll(page, size, append)`: request a page; the page after it
        becomes the next one to load. The request carries `append`, which its reply
        (`OnOpsPage`) obeys. */
    method LoadOperationsScroll(page: int, size: int := LargePageSize, append: bool := false)
      modifies this
      ensures loading && nextPageToLoad == page + 1
      ensures requests == old(requests) + [GetAccountPage(accountId, page, size, append)]
      ensures accountId == old(accountId) && opsList == old(opsList) && hasMoreOps == old(hasMoreOps)
      ensures loadingMore == old(loadingMore) && form == old(form) && isSubmitting == old(isSubmitting)
      ensures errorMessage == old(errorMessage) && accountMeta == old(accountMeta)
      ensures accountDetails == old(accountDetails) && savedMessage == old(savedMessage)
    {
      loading := true;
      nextPageToLoad := page + 1;
      requests := requests + [GetAccountPage(accountId, page, size, append)];
    }

    /** The reply `data` to the page request `req`: the page's operations are appended
        to the list when `req` was made in append mode and replace it otherwise; more
        pages remain while the total page count exceeds the page to load next, as that
        field stands when the reply arrives. */
    method OnOpsPage(req: Request, data: AccountDetails)
      requires req in requests && req.GetAccountPage?
      modifies this
      ensures accountDetails == Some(data)
      ensures opsList == if req.append then old(opsList) + OperationsOf(data) else OperationsOf(data)
      ensures hasMoreOps <==> TotalPagesOf(data) > nextPageToLoad
      ensures !loading && !loadingMore
      ensures accountId == old(accountId) && nextPageToLoad == old(nextPageToLoad) && form == old(form)
      ensures isSubmitting == old(isSubmitting) && errorMessage == old(errorMessage) && accountMeta == old(accountMeta)
      ensures savedMessage == old(savedMessage) && requests == old(requests)
    {
      accountDetails := Some(data);
      if req.append {
        opsList := opsList + OperationsOf(data);
      } else {
        opsList := OperationsOf(data);
      }
      hasMoreOps := TotalPagesOf(data) > nextPageToLoad;
      loading := false;
      loadingMore := false;
    }

    /** The failure of a page request: `catchError` records the message, then both
        loading flags are cleared. */
    method OnOpsPageError(message: Option<string>)
      modifies this
      ensures errorMessage == message && !loading && !loadingMore
      ensures accountId == old(accountId) && opsList == old(opsList) && nextPageToLoad == old(nextPageToLoad)
      ensures hasMoreOps == old(hasMoreOps) && form == old(form) && isSubmitting == old(isSubmitting)
      ensures accountMeta == old(accountMeta) && accountDetails == old(accountDetails)
      ensures savedMessage == old(savedMessage) && requests == old(requests)
    {
      errorMessage := message;
      loading := false;
      loadingMore := false;
    }

    /** `loadMoreOps()`: ignored while a "load more" is in flight; otherwise request
        page `nextPageToLoad` of size 200 in append mode. */
    method LoadMoreOps()
      modifies this
      ensures old(loadingMore) ==>
                loading == old(loading) && nextPageToLoad == old(nextPageToLoad) && requests == old(requests)
      ensures !old(loadingMore) ==>
                loading && nextPageToLoad == old(nextPageToLoad) + 1
                && requests == old(requests) + [GetAccountPage(accountId, old(nextPageToLoad), LargePageSize, true)]
      ensures loadingMore
      ensures accountId == old(accountId) && opsList == old(opsList) && hasMoreOps == old(hasMoreOps)
      ensures form == old(form) && isSubmitting == old(isSubmitting) && errorMessage == old(errorMessage)
      ensures accountMeta == old(accountMeta) && accountDetails == old(accountDetails) && savedMessage == old(savedMessage)
    {
      if loadingMore { return; }
      loadingMore := true;
      LoadOperationsScroll(nextPageToLoad, LargePageSize, true);
    }

    /** `handleOperation()`: an invalid form issues nothing; a valid one marks the page
        as submitting and issues the request its operation type selects. */
    method HandleOperation()
      modifies this
      ensures !FormValid(old(form)) ==> isSubmitting == old(isSubmitting) && requests == old(requests)
      ensures FormValid(old(form)) ==>
                isSubmitting
                && requests == old(requests) + (match OperationRequest(accountId, form)
                                                case Some(r) => [r]
                                                case None => [])
      ensures accountId == old(accountId) && loading == old(loading) && nextPageToLoad == old(nextPageToLoad)
      ensures opsList == old(opsList) && hasMoreOps == old(hasMoreOps) && loadingMore == old(loadingMore)
      ensures form == old(form) && errorMessage == old(errorMessage) && accountMeta == old(accountMeta)
      ensures accountDetails == old(accountDetails) && savedMessage == old(savedMessage)
    {
      if !FormValid(form) { return; }
      isSubmitting := true;
      var r := OperationRequest(accountId, form);
      if r.Some? {
        requests := requests + [r.value];
      }
    }

    /** `onOpSuccess()`: stop submitting, reset the form, show the confirmation and
        reload the account and the list from page 0 (replacing it). */
    method OnOpSuccess()
      modifies this
      ensures !isSubmitting && form == ResetForm && savedMessage == Some(SavedText)
      ensures requests == old(requests) + [GetAccountMeta(accountId), GetAccountPage(accountId, 0, LargePageSize, false)]
      ensures loading && nextPageToLoad == 1
      ensures accountId == old(accountId) && opsList == old(opsList) && hasMoreOps == old(hasMoreOps)
      ensures loadingMore == old(loadingMore) && errorMessage == old(errorMessage)
      ensures accountMeta == old(accountMeta) && accountDetails == old(accountDetails)
    {
      isSubmitting := false;
      form := ResetForm;
      savedMessage := Some(SavedText);
      LoadAccountMeta();
      LoadOperationsScroll(0);
    }

    /** The timer that hides the confirmation. */
    method OnSavedMessageTimeout()
      modifies this
      ensures savedMessage.None?
      ensures accountId == old(accountId) && loading == old(loading) && nextPageToLoad == old(nextPageToLoad)
      ensures opsList == old(opsList) && hasMoreOps == old(hasMoreOps) && loadingMore == old(loadingMore)
      ensures form == old(form) && isSubmitting == old(isSubmitting) && errorMessage == old(errorMessage)
      ensures accountMeta == old(accountMeta) && accountDetails == old(accountDetails) && requests == old(requests)
    {
      savedMessage := None;
    }

    /** `onOpError(err)`: stop submitting and show the error's message or a default. */
    method OnOpError(message: Option<string>)
      modifies this
      ensures !isSubmitting && errorMessage == Some(OperationErrorText(message))
      ensures accountId == old(accountId) && loading == old(loading) && nextPageToLoad == old(nextPageToLoad)
      ensures opsList == old(opsList) && hasMoreOps == old(hasMoreOps) && loadingMore == old(loadingMore)
      ensures form == old(form) && accountMeta == old(accountMeta) && accountDetails == old(accountDetails)
      ensures savedMessage == old(savedMessage) && requests == old(requests)
    {
      isSubmitting := false;
      errorMessage := Some(OperationErrorText(message));
    }
  }
}
