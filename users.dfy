/** The users page: a table of clients or artisans whose role tab, page,
    page size and search term live in the URL's query string, plus the
    block/activate and delete confirmations for the selected row. */
module Users {
  import opened Common
  import opened Text
  import opened SearchParams

  /** A row of the users table. `status` is typed "ACTIVE" | "INACTIVE" in
      the source but arrives from the server unchecked, so any text. */
  datatype UserRow = UserRow(id: string, firstName: string, lastName: string, email: string, role: string, status: string)

  /** A JavaScript number produced by `parseInt`: `None` is `NaN`. */
  type JsNumber = Option<nat>

  /** `n.toString()`. */
  function NumberText(n: JsNumber): (r: string)
    ensures r != ""
  {
    if n.Some? then NatToDecimal(n.value) else "NaN"
  }

  /** `toString` followed by `parseInt` gives the number back, `NaN`
      included. */
  lemma NumberTextRoundTrip(n: JsNumber)
    ensures ParseInt(NumberText(n)) == n
  {
    if n.Some? {
      ParseIntDecimal(n.value);
    } else {
      ParseIntNaN("NaN");
    }
  }

  /** `currentPage`: `parseInt(get("page") || "1")`. */
  function CurrentPage(ps: Params): JsNumber {
    ParseInt(Or(Get(ps, "page"), "1"))
  }

  /** `perPage`: `parseInt(get("limit") || "10")`. */
  function PerPage(ps: Params): JsNumber {
    ParseInt(Or(Get(ps, "limit"), "10"))
  }

  /** `activeTab`: `get("role") || "USER"`. */
  function ActiveTab(ps: Params): string {
    Or(Get(ps, "role"), "USER")
  }

  /** `search`: `get("searchTerm") || ""`. */
  function Search(ps: Params): string {
    Or(Get(ps, "searchTerm"), "")
  }

  /** With an empty query string the page shows page 1 of 10 clients and no
      search. */
  lemma UrlDefaults()
    ensures CurrentPage([]) == Some(1) && PerPage([]) == Some(10)
    ensures ActiveTab([]) == "USER" && Search([]) == ""
  {
    NumberTextRoundTrip(Some(1));
    NumberTextRoundTrip(Some(10));
  }

  /** The object passed to `setSearchParams` becomes the whole query string,
      its keys in insertion order. An optional `searchTerm` key goes last. */
  function WithSearchTerm(ps: Params, term: string): Params {
    if term != "" then ps + [Param("searchTerm", term)] else ps
  }

  /** The object `{role, page, limit}` with an optional `searchTerm` last. */
  function Entries(role: string, page: string, limit: string, term: string): Params {
    WithSearchTerm([Param("role", role), Param("page", page), Param("limit", limit)], term)
  }

  /** `handleTabChange(key)`. */
  function TabChange(ps: Params, key: string): Params {
    Entries(key, "1", NumberText(PerPage(ps)), "")
  }

  /** `handlePageChange(page, pageSize)`. */
  function PageChange(ps: Params, page: nat, pageSize: nat): Params {
    Entries(ActiveTab(ps), NatToDecimal(page), NatToDecimal(pageSize), Search(ps))
  }

  /** `handleSearch(value)`. */
  function SearchChange(ps: Params, value: string): Params {
    Entries(ActiveTab(ps), "1", NumberText(PerPage(ps)), Trim(value))
  }

  /** Reading the fixed keys and the optional search term back from a query
      string that `setSearchParams` wrote. */
  lemma ReadBack(role: string, page: string, limit: string, term: string)
    ensures var ps := Entries(role, page, limit, term);
      Get(ps, "role") == Some(role) && Get(ps, "page") == Some(page) &&
      Get(ps, "limit") == Some(limit) && Search(ps) == term &&
      (Has(ps, "searchTerm") <==> term != "")
  {
    var tail := if term != "" then [Param("searchTerm", term)] else [];
    var ps := Entries(role, page, limit, term);
    assert ps == [Param("role", role)] + ([Param("page", page)] + ([Param("limit", limit)] + tail));
    assert "searchTerm" != "role" && "searchTerm" != "page" && "searchTerm" != "limit";
    assert "limit" != "role" && "limit" != "page" && "page" != "role";
    GetCons(Param("role", role), [Param("page", page)] + ([Param("limit", limit)] + tail), "page");
    GetCons(Param("role", role), [Param("page", page)] + ([Param("limit", limit)] + tail), "limit");
    GetCons(Param("role", role), [Param("page", page)] + ([Param("limit", limit)] + tail), "searchTerm");
    GetCons(Param("role", role), [Param("page", page)] + ([Param("limit", limit)] + tail), "role");
    GetCons(Param("page", page), [Param("limit", limit)] + tail, "limit");
    GetCons(Param("page", page), [Param("limit", limit)] + tail, "searchTerm");
    GetCons(Param("limit", limit), tail, "searchTerm");
    if term != "" {
      GetCons(Param("searchTerm", term), [], "searchTerm");
    }
  }

  /** A tab change selects the tab (an empty key falls back to "USER"),
      returns to page 1, keeps the page size and drops the search. */
  lemma TabChangeRule(ps: Params, key: string)
    ensures ActiveTab(TabChange(ps, key)) == (if key == "" then "USER" else key)
    ensures CurrentPage(TabChange(ps, key)) == Some(1)
    ensures PerPage(TabChange(ps, key)) == PerPage(ps)
    ensures !Has(TabChange(ps, key), "searchTerm") && Search(TabChange(ps, key)) == ""
  {
    ReadBack(key, "1", NumberText(PerPage(ps)), "");
    NumberTextRoundTrip(Some(1));
    NumberTextRoundTrip(PerPage(ps));
  }

  /** A page change keeps the tab and the search and shows the requested
      page with the requested page size. */
  lemma PageChangeRule(ps: Params, page: nat, pageSize: nat)
    ensures ActiveTab(PageChange(ps, page, pageSize)) == ActiveTab(ps)
    ensures CurrentPage(PageChange(ps, page, pageSize)) == Some(page)
    ensures PerPage(PageChange(ps, page, pageSize)) == Some(pageSize)
    ensures Search(PageChange(ps, page, pageSize)) == Search(ps)
  {
    ReadBack(ActiveTab(ps), NatToDecimal(page), NatToDecimal(pageSize), Search(ps));
    ParseIntDecimal(page);
    ParseIntDecimal(pageSize);
  }

  /** A search keeps the tab and page size, returns to page 1 and stores the
      trimmed term; a blank term removes `searchTerm` altogether. */
  lemma SearchChangeRule(ps: Params, value: string)
    ensures ActiveTab(SearchChange(ps, value)) == ActiveTab(ps)
    ensures CurrentPage(SearchChange(ps, value)) == Some(1)
    ensures PerPage(SearchChange(ps, value)) == PerPage(ps)
    ensures Search(SearchChange(ps, value)) == Trim(value)
    ensures Has(SearchChange(ps, value), "searchTerm") <==> !AllSpace(value)
  {
    ReadBack(ActiveTab(ps), "1", NumberText(PerPage(ps)), Trim(value));
    NumberTextRoundTrip(Some(1));
    NumberTextRoundTrip(PerPage(ps));
    TrimEmptyIffAllSpace(value);
  }

  /** `selected.status === "ACTIVE" ? "INACTIVE" : "ACTIVE"`. */
  function Toggled(status: string): (r: string)
    ensures r == "INACTIVE" <==> status == "ACTIVE"
    ensures r == "ACTIVE" || r == "INACTIVE"
  {
    if status == "ACTIVE" then "INACTIVE" else "ACTIVE"
  }

  /** Blocking and then activating (or the reverse) restores a well-formed
      status. */
  lemma ToggleTwice(status: string)
    requires status == "ACTIVE" || status == "INACTIVE"
    ensures Toggled(Toggled(status)) == status
  {
  }

  datatype Request = StatusUpdate(id: string, status: string) | DeleteUser(id: string)

  /** What a confirmation does: nothing when no row is selected, otherwise the
      request it sent and the toast it showed. */
  datatype ConfirmOutcome =
    | NoSelection
    | Succeeded(request: Request, message: string)
    | Failed(request: Request, message: string)

  /** The toast after a successful status change. */
  function StatusMessage(newStatus: string): string {
    if newStatus == "INACTIVE" then "User blocked successfully" else "User activated successfully"
  }

  /** `confirmBlock`'s request and toast for a given API answer. */
  function BlockResult(selected: Option<UserRow>, api: ApiResult): (r: ConfirmOutcome)
  {
    if selected.None? then NoSelection
    else
      var request := StatusUpdate(selected.value.id, Toggled(selected.value.status));
      if api.ApiOk? then Succeeded(request, StatusMessage(request.status))
      else Failed(request, ErrorText(api, "Failed to update user status"))
  }

  /** `confirmDelete`'s request and toast for a given API answer. */
  function DeleteResult(selected: Option<UserRow>, api: ApiResult): (r: ConfirmOutcome)
  {
    if selected.None? then NoSelection
    else
      var request := DeleteUser(selected.value.id);
      if api.ApiOk? then Succeeded(request, "User deleted successfully")
      else Failed(request, ErrorText(api, "Failed to delete user"))
  }

  /** Blocking sends the selected user's id with the toggled status: an
      active user is blocked, any other is activated, and a failure shows the
      server's message or the fallback. */
  lemma BlockRule(u: UserRow, api: ApiResult)
    ensures BlockResult(Some(u), api).request == StatusUpdate(u.id, Toggled(u.status))
    ensures BlockResult(Some(u), api).Succeeded? <==> api.ApiOk?
    ensures api.ApiOk? ==>
      BlockResult(Some(u), api).message ==
        (if u.status == "ACTIVE" then "User blocked successfully" else "User activated successfully")
    ensures api.ApiError? ==>
      BlockResult(Some(u), api).message == Or(api.serverMessage, "Failed to update user status")
  {
  }

  /** Deleting sends the selected user's id; a failure shows the server's
      message or the fallback. */
  lemma DeleteRule(u: UserRow, api: ApiResult)
    ensures DeleteResult(Some(u), api).request == DeleteUser(u.id)
    ensures DeleteResult(Some(u), api).Succeeded? <==> api.ApiOk?
    ensures api.ApiOk? ==> DeleteResult(Some(u), api).message == "User deleted successfully"
    ensures api.ApiError? ==>
      DeleteResult(Some(u), api).message == Or(api.serverMessage, "Failed to delete user")
  {
  }

  /** The query sent to `useGetAllUsersQuery`: page, limit and role in that
      order, then `searchTerm` when the search is non-empty. */
  function Query(page: string, limit: string, role: string, search: string): (query: Params)
    ensures |query| == if search != "" then 4 else 3
    ensures query[..3] == [Param("page", page), Param("limit", limit), Param("role", role)]
    ensures |query| == 4 ==> query[3] == Param("searchTerm", search)
  {
    var fixed := [Param("page", page), Param("limit", limit), Param("role", role)];
    if search != "" then fixed + [Param("searchTerm", search)] else fixed
  }

  /** The page's state: the query string (`useSearchParams`) and its own
      `useState` fields. The artisan form's state is not part of this model. */
  class UsersPage {
    var searchParams: Params
    var viewOpen: bool
    var blockOpen: bool
    var deleteOpen: bool
    var selected: Option<UserRow>
    /** The search box's text, which runs ahead of the URL's `searchTerm`. */
    var searchTerm: string

    constructor(url: Params)
      ensures searchParams == url && searchTerm == ""
      ensures !viewOpen && !blockOpen && !deleteOpen && selected.None?
    {
      searchParams := url;
      viewOpen, blockOpen, deleteOpen := false, false, false;
      selected := None;
      searchTerm := "";
    }

    /** The query sent to `useGetAllUsersQuery`: page, limit and role in that
        order, then `searchTerm` when the search is non-empty. */
    method QueryParams() returns (query: Params)
      ensures |query| == if Search(searchParams) != "" then 4 else 3
      ensures query[0] == Param("page", NumberText(CurrentPage(searchParams)))
      ensures query[1] == Param("limit", NumberText(PerPage(searchParams)))
      ensures query[2] == Param("role", ActiveTab(searchParams))
      ensures |query| == 4 ==> query[3] == Param("searchTerm", Search(searchParams))
    {
      var page, limit := NumberText(CurrentPage(searchParams)), NumberText(PerPage(searchParams));
      query := Query(page, limit, ActiveTab(searchParams), Search(searchParams));
    }

    /** The effect on `search`: the box shows the URL's term. */
    method SyncSearchTerm()
      modifies this
      ensures searchTerm == Search(searchParams)
      ensures searchParams == old(searchParams) && selected == old(selected)
      ensures viewOpen == old(viewOpen) && blockOpen == old(blockOpen) && deleteOpen == old(deleteOpen)
    {
      searchTerm := Search(searchParams);
    }

    /** Typing in the search box. */
    method ChangeSearchTerm(text: string)
      modifies this
      ensures searchTerm == text
      ensures searchParams == old(searchParams) && selected == old(selected)
      ensures viewOpen == old(viewOpen) && blockOpen == old(blockOpen) && deleteOpen == old(deleteOpen)
    {
      searchTerm := text;
    }

    method HandleTabChange(key: string)
      modifies this
      ensures searchParams == TabChange(old(searchParams), key)
      ensures searchTerm == old(searchTerm) && selected == old(selected)
      ensures viewOpen == old(viewOpen) && blockOpen == old(blockOpen) && deleteOpen == old(deleteOpen)
    {
      searchParams := [Param("role", key), Param("page", "1"), Param("limit", NumberText(PerPage(searchParams)))];
    }

    method HandlePageChange(page: nat, pageSize: nat)
      modifies this
      ensures searchParams == PageChange(old(searchParams), page, pageSize)
      ensures searchTerm == old(searchTerm) && selected == old(selected)
      ensures viewOpen == old(viewOpen) && blockOpen == old(blockOpen) && deleteOpen == old(deleteOpen)
    {
      var params := [Param("role", ActiveTab(searchParams)), Param("page", NatToDecimal(page)), Param("limit", NatToDecimal(pageSize))];
      var search := Search(searchParams);
      if search != "" {
        params := params + [Param("searchTerm", search)];
      }
      searchParams := params;
    }

    /** The object `handleSearch(value)` hands to `setSearchParams`: the
        fixed keys, then the trimmed term when it is not blank. */
    method SearchObject(value: string) returns (params: Params)
      ensures params == SearchChange(searchParams, value)
    {
      var role, limit := ActiveTab(searchParams), NumberText(PerPage(searchParams));
      params := [Param("role", role), Param("page", "1"), Param("limit", limit)];
      var term := Trim(value);
      if term != "" {
        params := params + [Param("searchTerm", term)];
      }
    }

    method HandleSearch(value: string)
      modifies this
      ensures searchParams == SearchChange(old(searchParams), value)
      ensures unchanged(this`searchTerm, this`selected, this`viewOpen, this`blockOpen, this`deleteOpen)
    {
      var params := SearchObject(value);
      searchParams := params;
    }

    /** The debounced effect on `searchTerm` once its delay has passed: a box
        that differs from the URL's term starts a search with the box's text. */
    method DebounceElapsed()
      modifies this
      ensures searchParams ==
        if old(searchTerm) != Search(old(searchParams)) then SearchChange(old(searchParams), old(searchTerm))
        else old(searchParams)
      ensures searchTerm == old(searchTerm) && selected == old(selected)
      ensures viewOpen == old(viewOpen) && blockOpen == old(blockOpen) && deleteOpen == old(deleteOpen)
    {
      if searchTerm != Search(searchParams) {
        HandleSearch(searchTerm);
      }
    }

    method HandleView(record: UserRow)
      modifies this
      ensures selected == Some(record) && viewOpen
      ensures searchParams == old(searchParams) && searchTerm == old(searchTerm)
      ensures blockOpen == old(blockOpen) && deleteOpen == old(deleteOpen)
    {
      selected := Some(record);
      viewOpen := true;
    }

    method HandleBlock(record: UserRow)
      modifies this
      ensures selected == Some(record) && blockOpen
      ensures searchParams == old(searchParams) && searchTerm == old(searchTerm)
      ensures viewOpen == old(viewOpen) && deleteOpen == old(deleteOpen)
    {
      selected := Some(record);
      blockOpen := true;
    }

    method HandleDelete(record: UserRow)
      modifies this
      ensures selected == Some(record) && deleteOpen
      ensures searchParams == old(searchParams) && searchTerm == old(searchTerm)
      ensures viewOpen == old(viewOpen) && blockOpen == old(blockOpen)
    {
      selected := Some(record);
      deleteOpen := true;
    }

    /** Closing the view dialog clears the selection. */
    method CloseView()
      modifies this
      ensures !viewOpen && selected.None?
      ensures searchParams == old(searchParams) && searchTerm == old(searchTerm)
      ensures blockOpen == old(blockOpen) && deleteOpen == old(deleteOpen)
    {
      viewOpen := false;
      selected := None;
    }

    /** Cancelling the block dialog clears the selection. */
    method CancelBlock()
      modifies this
      ensures !blockOpen && selected.None?
      ensures searchParams == old(searchParams) && searchTerm == old(searchTerm)
      ensures viewOpen == old(viewOpen) && deleteOpen == old(deleteOpen)
    {
      blockOpen := false;
      selected := None;
    }

    /** Cancelling the delete dialog clears the selection. */
    method CancelDelete()
      modifies this
      ensures !deleteOpen && selected.None?
      ensures searchParams == old(searchParams) && searchTerm == old(searchTerm)
      ensures viewOpen == old(viewOpen) && blockOpen == old(blockOpen)
    {
      deleteOpen := false;
      selected := None;
    }

    /** `confirmBlock`: with a selected row, sends the toggled status; success
        closes the dialog and clears the selection, failure leaves both. */
    method ConfirmBlock(api: ApiResult) returns (outcome: ConfirmOutcome)
      modifies this
      ensures outcome == BlockResult(old(selected), api)
      ensures if outcome.Succeeded? then !blockOpen && selected.None?
              else blockOpen == old(blockOpen) && selected == old(selected)
      ensures searchParams == old(searchParams) && searchTerm == old(searchTerm)
      ensures viewOpen == old(viewOpen) && deleteOpen == old(deleteOpen)
    {
      if selected.None? {
        return NoSelection;
      }
      var newStatus := if selected.value.status == "ACTIVE" then "INACTIVE" else "ACTIVE";
      var request := StatusUpdate(selected.value.id, newStatus);
      if api.ApiOk? {
        outcome := Succeeded(request, StatusMessage(newStatus));
        blockOpen := false;
        selected := None;
      } else {
        outcome := Failed(request, ErrorText(api, "Failed to update user status"));
      }
    }

    /** `confirmDelete`: with a selected row, sends its id; success closes the
        dialog and clears the selection, failure leaves both. */
    method ConfirmDelete(api: ApiResult) returns (outcome: ConfirmOutcome)
      modifies this
      ensures outcome == DeleteResult(old(selected), api)
      ensures if outcome.Succeeded? then !deleteOpen && selected.None?
              else deleteOpen == old(deleteOpen) && selected == old(selected)
      ensures searchParams == old(searchParams) && searchTerm == old(searchTerm)
      ensures viewOpen == old(viewOpen) && blockOpen == old(blockOpen)
    {
      if selected.None? {
        return NoSelection;
      }
      var request := DeleteUser(selected.value.id);
      if api.ApiOk? {
        outcome := Succeeded(request, "User deleted successfully");
        deleteOpen := false;
        selected := None;
      } else {
        outcome := Failed(request, ErrorText(api, "Failed to delete user"));
      }
    }
  }
}
