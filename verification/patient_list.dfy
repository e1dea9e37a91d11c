/** The paged, searchable patient list: the search term and page state, the
    fetch effect with its fixed page size, and the guards of the Previous and
    Next buttons. The patient service is not part of the model: the reply of its
    one call is an `Outcome` the caller supplies. */
module PatientListing {
  import opened Responses

  /** A patient as the service returns it (the fields the screens use). */
  datatype Patient = Patient(
    id: string,
    patientId: string,
    name: string,
    email: string,
    phone: string,
    walletAddress: string)

  /** The paging information a wrapped reply carries. */
  datatype Pagination = Pagination(totalPages: int)

  /** A patients reply: the list shape, and the `pagination` property read off
      the same value (`None` when it is missing). */
  datatype PatientsReply = PatientsReply(body: Body<Patient>, pagination: Option<Pagination>)

  /** The one call the list makes: a page, the page size and the search term. */
  datatype PatientsRequest = PatientsRequest(page: int, limit: int, search: string)

  const PageSize := 12
  const FetchFailed := "Failed to fetch patients"

  /** Previous is disabled exactly on the first page. */
  predicate PreviousDisabled(currentPage: int)
  {
    currentPage == 1
  }

  /** Next is disabled exactly on the last page (an equality test, so a page
      past the last one leaves it enabled). */
  predicate NextDisabled(currentPage: int, totalPages: int)
  {
    currentPage == totalPages
  }

  /** Whether each button of the pagination bar is disabled. */
  datatype PaginationBar = PaginationBar(previousDisabled: bool, nextDisabled: bool)

  /** The pagination bar: shown only when there is more than one page, with
      Previous disabled on the first page and Next on the last. */
  function PaginationView(pagination: Option<Pagination>, currentPage: int): (r: Option<PaginationBar>)
    ensures r.Some? <==> pagination.Some? && pagination.value.totalPages > 1
    ensures r.Some? ==> r.value.previousDisabled == (currentPage == 1)
    ensures r.Some? ==> r.value.nextDisabled == (currentPage == pagination.value.totalPages)
  {
    if pagination.Some? && pagination.value.totalPages > 1 then
      Some(PaginationBar(PreviousDisabled(currentPage), NextDisabled(currentPage, pagination.value.totalPages)))
    else None
  }

  datatype PageButton = Previous | Next

  /** The page a click on a button of the pagination bar leads to: one back or
      one forward, and no change when the button is disabled. */
  function Press(currentPage: int, totalPages: int, button: PageButton): (r: int)
    ensures button == Previous ==> r == if PreviousDisabled(currentPage) then currentPage else currentPage - 1
    ensures button == Next ==> r == if NextDisabled(currentPage, totalPages) then currentPage else currentPage + 1
    ensures 1 <= currentPage <= totalPages ==> 1 <= r <= totalPages
  {
    match button
    case Previous => if PreviousDisabled(currentPage) then currentPage else currentPage - 1
    case Next => if NextDisabled(currentPage, totalPages) then currentPage else currentPage + 1
  }

  /** The page after a series of clicks while the page count stays the same. */
  function PressAll(currentPage: int, totalPages: int, buttons: seq<PageButton>): int
    decreases |buttons|
  {
    if buttons == [] then currentPage
    else PressAll(Press(currentPage, totalPages, buttons[0]), totalPages, buttons[1..])
  }

  /** Starting on a page in range, no series of clicks on the pagination bar
      leaves the range 1..totalPages. */
  lemma {:induction false} PressesStayInRange(currentPage: int, totalPages: int, buttons: seq<PageButton>)
    requires 1 <= currentPage <= totalPages
    ensures 1 <= PressAll(currentPage, totalPages, buttons) <= totalPages
    decreases |buttons|
  {
    if buttons != [] {
      PressesStayInRange(Press(currentPage, totalPages, buttons[0]), totalPages, buttons[1..]);
    }
  }

  class PatientList {
    var patients: seq<Patient>
    var loading: bool
    var error: Option<string>
    var searchTerm: string
    var debouncedSearchTerm: string
    var currentPage: int
    var pagination: Option<Pagination>

    /** The state on mount, before the first fetch. */
    constructor ()
      ensures patients == [] && loading && error == None
      ensures searchTerm == "" && debouncedSearchTerm == ""
      ensures currentPage == 1 && pagination == None
    {
      patients := [];
      loading := true;
      error := None;
      searchTerm := "";
      debouncedSearchTerm := "";
      currentPage := 1;
      pagination := None;
    }

    /** Typing in the search box: records the term and goes back to page 1; the
        fetch effect runs again at once only when the page changed. */
    method HandleSearch(value: string) returns (refetch: bool)
      modifies this
      ensures searchTerm == value && currentPage == 1
      ensures refetch <==> old(currentPage) != 1
      ensures debouncedSearchTerm == old(debouncedSearchTerm)
      ensures patients == old(patients) && loading == old(loading) && error == old(error)
      ensures pagination == old(pagination)
    {
      refetch := currentPage != 1;
      searchTerm := value;
      currentPage := 1;
    }

    /** The debounce timer firing: the term being searched catches up with the
        term typed; the fetch effect runs again only when it changed. */
    method DebounceElapsed() returns (refetch: bool)
      modifies this
      ensures debouncedSearchTerm == searchTerm == old(searchTerm)
      ensures refetch <==> old(debouncedSearchTerm) != searchTerm
      ensures currentPage == old(currentPage) && pagination == old(pagination)
      ensures patients == old(patients) && loading == old(loading) && error == old(error)
    {
      refetch := debouncedSearchTerm != searchTerm;
      debouncedSearchTerm := searchTerm;
    }

    /** Moving to a page; the fetch effect runs again only when it changed. */
    method HandlePageChange(newPage: int) returns (refetch: bool)
      modifies this
      ensures currentPage == newPage
      ensures refetch <==> newPage != old(currentPage)
      ensures searchTerm == old(searchTerm) && debouncedSearchTerm == old(debouncedSearchTerm)
      ensures patients == old(patients) && loading == old(loading) && error == old(error)
      ensures pagination == old(pagination)
    {
      refetch := newPage != currentPage;
      currentPage := newPage;
    }

    /** The fetch effect up to its await: loading on, error cleared, and the
        current page requested with the fixed page size and the settled term. */
    method BeginFetch() returns (request: PatientsRequest)
      modifies this
      ensures loading && error == None
      ensures request == PatientsRequest(currentPage, PageSize, debouncedSearchTerm)
      ensures request.limit == 12
      ensures patients == old(patients) && pagination == old(pagination)
      ensures currentPage == old(currentPage)
      ensures searchTerm == old(searchTerm) && debouncedSearchTerm == old(debouncedSearchTerm)
    {
      loading := true;
      error := None;
      request := PatientsRequest(currentPage, PageSize, debouncedSearchTerm);
    }

    /** The fetch effect after its await. A wrapped reply sets the patients and
        the pagination; a bare array sets only the patients; any other shape, or
        a call that threw, empties the list (and a throw records the error).
        Loading always ends off. */
    method FinishFetch(reply: Outcome<PatientsReply>)
      modifies this
      ensures !loading
      ensures patients == if reply.Ok? then FieldFirst(reply.value.body).GetOr([]) else []
      ensures pagination == if reply.Ok? && reply.value.body.field.Some? then reply.value.pagination
                            else old(pagination)
      ensures error == if reply.Err? then Some(OrElse(reply.message, FetchFailed)) else old(error)
      ensures currentPage == old(currentPage)
      ensures searchTerm == old(searchTerm) && debouncedSearchTerm == old(debouncedSearchTerm)
    {
      if reply.Ok? {
        var body := reply.value.body;
        if body.field.Some? {
          patients := body.field.value;
          pagination := reply.value.pagination;
        } else if body.Array? {
          patients := body.items;
        } else {
          patients := [];
        }
      } else {
        error := Some(OrElse(reply.message, FetchFailed));
        patients := [];
      }
      loading := false;
    }
  }
}
