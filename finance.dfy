/**
 * The finance dashboard page: a cursor-paginated list of cashflows shown per tab (income
 * or outcome), a drawer that holds the add form or the edit form for one cashflow, and a
 * toast slot per mutation kind that the forms' callbacks drive.
 *
 * The pager itself and the toast library are collaborators: the pages are a parameter of
 * the view rules, `refetch()` is counted, and the toast library is an id issuer plus a store
 * of toasts by id.
 */
module FinanceDashboard {

  import opened Wrappers
  import Mutation

  datatype CashflowType = Income | Outcome

  datatype Cashflow = Cashflow(id: int, date: string, idrAmount: string, note: string, cashType: CashflowType)

  /** A page's `cursor` as JSON delivers it: `null`, a number or a string. */
  datatype Cursor = Null | Num(n: int) | Str(s: string)

  /** JavaScript truthiness of a cursor. */
  predicate Truthy(c: Cursor)
  {
    match c
    case Null => false
    case Num(n) => n != 0
    case Str(s) => s != ""
  }

  /** One page of the cashflow list with the running totals the server sends beside it. */
  datatype Page = Page(cursor: Cursor, cashflows: seq<Cashflow>, incomeCash: string, outcomeCash: string, totalCash: string)

  // ---------------------------------------------------------------------------------------
  // Pagination rules of the page

  /** `page.data.cursor || undefined`: the cursor to continue from, if any. */
  function PageParam(p: Page): (r: Option<Cursor>)
    ensures r == None <==> p.cursor == Null || p.cursor == Num(0) || p.cursor == Str("")
    ensures r != None ==> r == Some(p.cursor)
  {
    if Truthy(p.cursor) then Some(p.cursor) else None
  }

  /** `getNextPageParam`, applied to the last page fetched. */
  function NextPageParam(pages: seq<Page>): (r: Option<Cursor>)
    requires |pages| > 0
    ensures r == None <==> !Truthy(pages[|pages| - 1].cursor)
    ensures r != None ==> r == Some(pages[|pages| - 1].cursor)
  {
    PageParam(pages[|pages| - 1])
  }

  /** `getPreviousPageParam`, applied to the first page fetched. */
  function PreviousPageParam(pages: seq<Page>): (r: Option<Cursor>)
    requires |pages| > 0
    ensures r == None <==> !Truthy(pages[0].cursor)
    ensures r != None ==> r == Some(pages[0].cursor)
  {
    PageParam(pages[0])
  }

  /** There is a next page iff pages were fetched and the last one's cursor is truthy. */
  predicate HasNextPage(pages: seq<Page>)
  {
    |pages| > 0 && NextPageParam(pages).Some?
  }

  /**
   * `observeCallback`: the cursor `fetchNextPage()` is asked to fetch from, or `None` when
   * no request is issued. A request is issued only when a next page exists, and then for
   * the last page's cursor; a `null`, `0` or empty cursor issues none.
   */
  function ObserveCallback(pages: seq<Page>): (fetch: Option<Cursor>)
    ensures fetch.Some? <==> HasNextPage(pages)
    ensures fetch.None? <==> |pages| == 0 || !Truthy(pages[|pages| - 1].cursor)
    ensures fetch.Some? ==> Truthy(fetch.value) && fetch.value == pages[|pages| - 1].cursor
  {
    if HasNextPage(pages) then NextPageParam(pages) else None
  }

  // ---------------------------------------------------------------------------------------
  // The list shown under the active tab

  /** `items.filter(({ type }) => type === status)`. */
  function OfType(items: seq<Cashflow>, status: CashflowType): (r: seq<Cashflow>)
    ensures |r| <= |items|
    ensures forall x :: x in r <==> x in items && x.cashType == status
  {
    if items == [] then []
    else (if items[0].cashType == status then [items[0]] else []) + OfType(items[1..], status)
  }

  /** The pages' items one after the other, in page order. */
  function Flatten(pages: seq<Page>): seq<Cashflow>
  {
    if pages == [] then [] else pages[0].cashflows + Flatten(pages[1..])
  }

  /** What `pages.map(page => page.data.cashflows.filter(...))` renders, page by page. */
  function Listed(pages: seq<Page>, status: CashflowType): seq<Cashflow>
  {
    if pages == [] then [] else OfType(pages[0].cashflows, status) + Listed(pages[1..], status)
  }

  /** Filtering distributes over concatenation. */
  lemma {:induction false} OfTypeAppend(a: seq<Cashflow>, b: seq<Cashflow>, status: CashflowType)
    ensures OfType(a + b, status) == OfType(a, status) + OfType(b, status)
  {
    if a == [] {
      assert a + b == b;
    } else {
      assert (a + b)[0] == a[0];
      assert (a + b)[1..] == a[1..] + b;
      OfTypeAppend(a[1..], b, status);
    }
  }

  /** Rendering page by page equals filtering the concatenation of all pages. */
  lemma {:induction false} ListedIsFilteredFlatten(pages: seq<Page>, status: CashflowType)
    ensures Listed(pages, status) == OfType(Flatten(pages), status)
  {
    if pages != [] {
      ListedIsFilteredFlatten(pages[1..], status);
      OfTypeAppend(pages[0].cashflows, Flatten(pages[1..]), status);
    }
  }

  /** An item is in the concatenation iff some page holds it. */
  lemma {:induction false} FlattenMembership(pages: seq<Page>, x: Cashflow)
    ensures x in Flatten(pages) <==> exists i :: 0 <= i < |pages| && x in pages[i].cashflows
  {
    if pages != [] {
      FlattenMembership(pages[1..], x);
      if x in Flatten(pages[1..]) {
        var i :| 0 <= i < |pages[1..]| && x in pages[1..][i].cashflows;
        assert x in pages[i + 1].cashflows;
      }
      if exists i :: 0 <= i < |pages| && x in pages[i].cashflows {
        var i :| 0 <= i < |pages| && x in pages[i].cashflows;
        if i > 0 {
          assert x in pages[1..][i - 1].cashflows;
        }
      }
    }
  }

  /** `pages[0].data[inOutField[status]]`: the first page's total for the active tab. */
  function TabTotal(page: Page, status: CashflowType): string
  {
    match status
    case Income => page.incomeCash
    case Outcome => page.outcomeCash
  }

  /** The empty-list message is shown when page 0 has no cashflows or its tab total is `"0"`. */
  predicate EmptyView(pages: seq<Page>, status: CashflowType)
  {
    |pages| > 0 && (|pages[0].cashflows| == 0 || TabTotal(pages[0], status) == "0")
  }

  /**
   * The cashflows listed under the tab `status`: none when the empty message is shown,
   * otherwise the loaded pages' items of that type, in page order.
   */
  function Shown(pages: seq<Page>, status: CashflowType): (r: seq<Cashflow>)
    ensures EmptyView(pages, status) ==> r == []
    ensures !EmptyView(pages, status) ==> r == OfType(Flatten(pages), status)
    ensures forall x :: x in r ==> x.cashType == status
  {
    ListedIsFilteredFlatten(pages, status);
    if EmptyView(pages, status) then [] else Listed(pages, status)
  }

  /** Outside the empty message, a cashflow is listed iff it has the tab's type and some page holds it. */
  lemma ShownMembership(pages: seq<Page>, status: CashflowType, x: Cashflow)
    requires !EmptyView(pages, status)
    ensures x in Shown(pages, status) <==> x.cashType == status && exists i :: 0 <= i < |pages| && x in pages[i].cashflows
  {
    FlattenMembership(pages, x);
  }

  /** The list query as the page sees it: loading, failed, or holding the fetched pages. */
  datatype ListQuery = Loading | Failed | Loaded(pages: seq<Page>)

  /** What the list region renders. */
  datatype ListRegion = LoadingText | ErrMsg | EmptyMsg | Items(items: seq<Cashflow>)

  /**
   * The list region under the tab `status`: the loading text, the error message, the
   * empty message, or the listed cashflows of the loaded pages.
   */
  function Region(q: ListQuery, status: CashflowType): (r: ListRegion)
    ensures r == LoadingText <==> q == Loading
    ensures r == ErrMsg <==> q == Failed
    ensures r == EmptyMsg <==> q.Loaded? && EmptyView(q.pages, status)
    ensures r.Items? ==> q.Loaded? && r.items == OfType(Flatten(q.pages), status)
  {
    match q
    case Loading => LoadingText
    case Failed => ErrMsg
    case Loaded(pages) => if EmptyView(pages, status) then EmptyMsg else Items(Shown(pages, status))
  }

  // ---------------------------------------------------------------------------------------
  // The page's state and handlers

  /** The toast library's statuses: `"info"` while loading, then `"success"` or `"error"`. */
  datatype ToastStatus = Info | Success | Failure

  datatype Toast = Toast(status: ToastStatus, title: Option<string>, message: Option<string>)

  /** What the drawer holds. */
  datatype DrawerForm = AddForm | EditForm(prevData: Cashflow)

  const AllKinds: set<Mutation.Kind> := {Mutation.Add, Mutation.Edit, Mutation.Delete}

  /**
   * `updateToast(id, toast)`: the toast with that id is replaced, every other one is kept;
   * an id never issued (the slots' initial 0) names no toast and changes nothing.
   */
  function UpdateToast(store: map<nat, Toast>, id: nat, t: Toast): (r: map<nat, Toast>)
    ensures r.Keys == store.Keys
    ensures id in store ==> r[id] == t
    ensures forall other :: other in store && other != id ==> r[other] == store[other]
  {
    if id in store then store[id := t] else store
  }

  class Finance {
    var open: bool
    var cashflowStatus: CashflowType
    /** The cashflow being edited, or `null`. */
    var tempData: Option<Cashflow>
    /** `toastId.current`: the id of the latest toast per mutation kind, 0 before any. */
    var toastId: map<Mutation.Kind, nat>
    /** How many times `cashflowsQuery.refetch()` was called. */
    var refetchCount: nat
    /** The toast library's toasts by id, and the next id it issues. */
    var toasts: map<nat, Toast>
    var nextToastId: nat

    /**
     * Every kind has a slot; every slot is 0 or names an issued toast; issued ids are
     * below the next one; an edited cashflow is only held while the drawer is open.
     */
    ghost predicate Valid()
      reads this
    {
      && toastId.Keys == AllKinds
      && 0 < nextToastId
      && (forall id :: id in toasts ==> 0 < id < nextToastId)
      && (forall k :: k in toastId ==> toastId[k] == 0 || toastId[k] in toasts)
      && (tempData.Some? ==> open)
    }

    /** The add form iff no cashflow is being edited, otherwise the edit form for it. */
    function Drawer(): (d: DrawerForm)
      reads this
      ensures d == AddForm <==> tempData == None
      ensures d.EditForm? ==> Some(d.prevData) == tempData
    {
      if tempData == None then AddForm else EditForm(tempData.value)
    }

    constructor ()
      ensures Valid()
      ensures !open && cashflowStatus == Income && tempData == None && refetchCount == 0
      ensures toastId == map[Mutation.Add := 0, Mutation.Edit := 0, Mutation.Delete := 0]
      ensures toasts == map[]
    {
      open, cashflowStatus, tempData := false, Income, None;
      toastId := map[Mutation.Add := 0, Mutation.Edit := 0, Mutation.Delete := 0];
      refetchCount := 0;
      toasts, nextToastId := map[], 1;
    }

    /** The add button: only opens the drawer, which then holds the add form if it was closed. */
    method OnOpen()
      requires Valid()
      modifies this`open
      ensures Valid() && open
      ensures !old(open) ==> Drawer() == AddForm
    {
      open := true;
    }

    /** An item's option button: the drawer opens with the edit form for `val`. */
    method OnOptClick(val: Cashflow)
      requires Valid()
      modifies this`tempData, this`open
      ensures Valid() && open && tempData == Some(val)
      ensures Drawer() == EditForm(val)
    {
      tempData := Some(val);
      open := true;
    }

    /** Closing the drawer drops the edited cashflow. */
    method OnClose()
      requires Valid()
      modifies this`tempData, this`open
      ensures Valid() && !open && tempData == None
    {
      tempData := None;
      open := false;
    }

    /**
     * `onLoading(kind, title)`: a fresh info toast is issued and its id overwrites the
     * slot of `kind` alone; later resolutions of `kind` target that id.
     */
    method OnLoading(kind: Mutation.Kind, title: Option<string>) returns (id: nat)
      requires Valid()
      modifies this`toastId, this`toasts, this`nextToastId
      ensures Valid()
      ensures id != 0 && id !in old(toasts)
      ensures toasts == old(toasts)[id := Toast(Info, title, None)]
      ensures toastId == old(toastId)[kind := id]
    {
      id := nextToastId;
      nextToastId := nextToastId + 1;
      toasts := toasts[id := Toast(Info, title, None)];
      toastId := toastId[kind := id];
    }

    /**
     * `onModified(kind, ...)`: the drawer closes, the edited cashflow is dropped, the list
     * is refetched exactly once, and the toast the slot of `kind` names NOW turns to success.
     */
    method OnModified(kind: Mutation.Kind, title: Option<string>, message: Option<string>)
      requires Valid()
      modifies this`tempData, this`open, this`refetchCount, this`toasts
      ensures Valid() && !open && tempData == None
      ensures refetchCount == old(refetchCount) + 1
      ensures toasts == UpdateToast(old(toasts), toastId[kind], Toast(Success, title, message))
    {
      tempData := None;
      open := false;
      refetchCount := refetchCount + 1;
      toasts := UpdateToast(toasts, toastId[kind], Toast(Success, title, message));
    }

    /** `onError(kind, ...)`: only the toast the slot of `kind` names turns to error. */
    method OnError(kind: Mutation.Kind, title: Option<string>, message: Option<string>)
      requires Valid()
      modifies this`toasts
      ensures Valid()
      ensures toasts == UpdateToast(old(toasts), toastId[kind], Toast(Failure, title, message))
    {
      toasts := UpdateToast(toasts, toastId[kind], Toast(Failure, title, message));
    }

    method ActivateIncomeTab()
      modifies this`cashflowStatus
      ensures cashflowStatus == Income
    {
      cashflowStatus := Income;
    }

    method ActivateOutcomeTab()
      modifies this`cashflowStatus
      ensures cashflowStatus == Outcome
    {
      cashflowStatus := Outcome;
    }
  }

  /**
   * Two submissions of the same kind overlap: the first one's failure arrives after the
   * second `onLoading`. It is shown on the second toast, while the second write is still
   * pending, and the first toast is left loading.
   */
  method OverlappingSubmissions(kind: Mutation.Kind, message: string)
    returns (first: Toast, second: Toast)
    ensures first.status == Info
    ensures second == Toast(Failure, Some("Error"), Some(message))
  {
    var page := new Finance();
    var a := page.OnLoading(kind, Some("Loading"));
    var b := page.OnLoading(kind, Some("Loading"));
    page.OnError(kind, Some("Error"), Some(message));
    first, second := page.toasts[a], page.toasts[b];
  }
}
