/** The backup variant of the admin applicant page
    (`PendaftarBeasiswaPageContent`). It differs from the current page in
    its record shape, in a search over five personal fields with no status
    test, in falling back to a mock record without reporting an error, and in
    refetching after a delete instead of editing the list. */
module ApplicantPageBackup {
  import opened Wrappers
  import opened JsStrings
  import opened Sequences
  import opened Notifications
  import opened PeriodFilter

  /** The fields of a `BeswanListItem` the page reads: the numeric `id`,
      `user?.name`, `nama_panggilan`, `jenis_kelamin`, `tempat_lahir` and
      `agama`. */
  datatype Beswan = Beswan(id: Option<int>, userName: Option<string>, nickname: Option<string>,
                           gender: Option<string>, birthplace: Option<string>, religion: Option<string>)

  /** The record stored when the list request fails. */
  const MockBeswan := Beswan(Some(1), Some("Test User"), Some("Test"), Some("Laki-laki"),
                             Some("Jakarta"), Some("Islam"))

  const LoadFailedMessage := "Gagal memuat data pendaftar beasiswa"
  const RefreshedMessage := "Data berhasil diperbarui"
  const DetailFailedMessage := "Gagal memuat detail pendaftar"
  const DeletedMessage := "Data pendaftar berhasil dihapus"
  const DeleteFailedMessage := "Gagal menghapus data pendaftar"

  /** A numeric id is falsy when it is missing or zero. */
  predicate HasTruthyId(b: Beswan) {
    b.id.Some? && b.id.value != 0
  }

  // ---------------------------------------------------------------------
  // Filtering

  /** `(field || '').toLowerCase().includes(term.toLowerCase())`. */
  predicate FieldContains(field: Option<string>, term: string) {
    Includes(ToLower(OrEmpty(field)), ToLower(term))
  }

  predicate MatchesSearch(b: Beswan, term: string) {
    FieldContains(b.userName, term) || FieldContains(b.nickname, term) || FieldContains(b.gender, term)
    || FieldContains(b.birthplace, term) || FieldContains(b.religion, term)
  }

  /** `filteredApplicants`: the records matching the term, in list order.
      There is no status parameter: the status selector is never consulted. */
  function FilteredBeswan(items: seq<Beswan>, term: string): (r: seq<Beswan>)
    ensures forall b :: b in r <==> b in items && MatchesSearch(b, term)
    ensures IsSubsequence(r, items)
    ensures forall b :: multiset(r)[b] == if MatchesSearch(b, term) then multiset(items)[b] else 0
  {
    var matches := (b: Beswan) => MatchesSearch(b, term);
    FilterIsSubsequence(items, matches);
    assert forall b :: multiset(Filter(items, matches))[b]
                       == if matches(b) then multiset(items)[b] else 0 by {
      forall b ensures multiset(Filter(items, matches))[b]
                       == if matches(b) then multiset(items)[b] else 0 {
        FilterCount(items, matches, b);
      }
    }
    Filter(items, matches)
  }

  /** An empty term matches every record, missing fields included. */
  lemma EmptyTermKeepsAll(items: seq<Beswan>)
    ensures FilteredBeswan(items, "") == items
  {
    forall b: Beswan ensures MatchesSearch(b, "") {
      IncludesEmpty(ToLower(OrEmpty(b.userName)));
    }
    FilterKeepsAll(items, (b: Beswan) => MatchesSearch(b, ""));
  }

  /** Searching "jakarta" finds the record whose birthplace is "Jakarta". */
  lemma BirthplaceSearchExample()
    ensures FilteredBeswan([MockBeswan], "jakarta") == [MockBeswan]
  {
    var place := ToLower(OrEmpty(MockBeswan.birthplace));
    assert place == "jakarta";
    assert OccursAt(place, ToLower("jakarta"), 0);
    FilterKeepsAll([MockBeswan], (b: Beswan) => MatchesSearch(b, "jakarta"));
  }

  // ---------------------------------------------------------------------
  // API results and the full-page view

  /** What `getBeswanList` resolved with: an array, or any other value. */
  datatype ListResult = ArrayResult(items: seq<Beswan>) | NonArrayResult

  /** `Array.isArray(data) ? data : []`. */
  function SafeData(r: ListResult): (items: seq<Beswan>)
    ensures r.ArrayResult? ==> items == r.items
    ensures r.NonArrayResult? ==> items == []
  {
    if r.ArrayResult? then r.items else []
  }

  datatype PageView = PageLoading | PageError(message: string) | PageMain

  /** The early returns of the render: the full-page spinner, then the error
      panel, then the page itself. A refresh suppresses both early returns. */
  function PageViewOf(isLoading: bool, isRefreshing: bool, error: Option<string>): (v: PageView)
    ensures v == PageLoading <==> isLoading && !isRefreshing
    ensures v.PageError? <==> !isLoading && !isRefreshing && Truthy(error)
    ensures v.PageError? ==> Some(v.message) == error
    ensures isRefreshing ==> v == PageMain
  {
    if isLoading && !isRefreshing then PageLoading
    else if Truthy(error) && !isRefreshing then PageError(error.value)
    else PageMain
  }

  datatype TableView = NoRows(noSearchResults: bool) | Rows(rows: seq<Beswan>)

  /** Inside the page: an empty state, or one row per matching record. */
  function TableViewOf(filtered: seq<Beswan>, searchTerm: string): (v: TableView)
    ensures v.NoRows? <==> filtered == []
    ensures v.NoRows? ==> (v.noSearchResults <==> searchTerm != "")
    ensures v.Rows? ==> v.rows == filtered
  {
    if |filtered| == 0 then NoRows(searchTerm != "") else Rows(filtered)
  }

  // ---------------------------------------------------------------------
  // The page state

  class BackupApplicantListPage {
    var applicants: seq<Beswan>
    var isLoading: bool
    var isRefreshing: bool
    var error: Option<string>
    var searchTerm: string
    var statusFilter: string
    var selectedPeriodId: Option<JsNumber>
    var detailDialog: bool
    var deleteDialog: bool
    var selected: Option<Beswan>
    var statsTotal: nat
    var toast: Toast

    /** Every handler keeps `stats.total` equal to the number of stored
        records, and none of them ever stores an error. */
    predicate Valid()
      reads this
    {
      statsTotal == |applicants| && error == None
    }

    constructor ()
      ensures Valid()
      ensures applicants == [] && isLoading && !isRefreshing
      ensures searchTerm == "" && statusFilter == "all" && selectedPeriodId == None
      ensures !detailDialog && !deleteDialog && selected == None && toast == HiddenToast
    {
      applicants, isLoading, isRefreshing, error := [], true, false, None;
      searchTerm, statusFilter, selectedPeriodId := "", "all", None;
      detailDialog, deleteDialog, selected := false, false, None;
      statsTotal, toast := 0, HiddenToast;
    }

    function Filtered(): seq<Beswan>
      reads this
    {
      FilteredBeswan(applicants, searchTerm)
    }

    function View(): PageView
      reads this
    {
      PageViewOf(isLoading, isRefreshing, error)
    }

    /** In every state the handlers can reach, the error panel never shows. */
    lemma ErrorPanelUnreachable()
      requires Valid()
      ensures !View().PageError?
    {
    }

    method SetSearchTerm(term: string)
      modifies this`searchTerm
      ensures searchTerm == term
    {
      searchTerm := term;
    }

    /** The status selector changes a field the filter never reads. */
    method SetStatusFilter(value: string)
      modifies this`statusFilter
      ensures statusFilter == value
      ensures Filtered() == old(Filtered())
    {
      statusFilter := value;
    }

    /** `fetchApplicants(periodId, isRefresh)` up to its `await`; the
        request it sends carries `periodId`. */
    method BeginFetch(periodId: Option<JsNumber>, isRefresh: bool) returns (requestedPeriod: Option<JsNumber>)
      requires Valid()
      modifies this`isLoading, this`isRefreshing, this`error
      ensures Valid()
      ensures requestedPeriod == periodId
      ensures isRefreshing == (isRefresh || old(isRefreshing))
      ensures isLoading == (!isRefresh || old(isLoading))
      ensures error == None
    {
      if isRefresh {
        isRefreshing := true;
      } else {
        isLoading := true;
      }
      error := None;
      requestedPeriod := periodId;
    }

    /** The list request resolved with `data`; a non-array is stored as `[]`.
        The `finally` block clears both flags. */
    method FetchSucceeded(isRefresh: bool, data: ListResult)
      requires Valid()
      modifies this`applicants, this`statsTotal, this`toast, this`isLoading, this`isRefreshing
      ensures Valid()
      ensures applicants == SafeData(data)
      ensures toast == if isRefresh then Show(RefreshedMessage, SuccessToast) else old(toast)
      ensures !isLoading && !isRefreshing
    {
      applicants := SafeData(data);
      statsTotal := |applicants|;
      if isRefresh {
        toast := Show(RefreshedMessage, SuccessToast);
      }
      isLoading, isRefreshing := false, false;
    }

    /** The list request failed: the inner catch stores the mock record and
        reports nothing, so the error stays null and no toast is shown. */
    method FetchFailed()
      requires Valid()
      modifies this`applicants, this`statsTotal, this`isLoading, this`isRefreshing
      ensures Valid()
      ensures applicants == [MockBeswan]
      ensures !isLoading && !isRefreshing
    {
      applicants := [MockBeswan];
      statsTotal := |applicants|;
      isLoading, isRefreshing := false, false;
    }

    /** `handlePeriodChange(value)`: store the period and fetch it. */
    method HandlePeriodChange(value: string) returns (requestedPeriod: Option<JsNumber>)
      requires Valid()
      modifies this`selectedPeriodId, this`isLoading, this`isRefreshing, this`error
      ensures Valid()
      ensures selectedPeriodId == PeriodIdOf(value) && requestedPeriod == PeriodIdOf(value)
      ensures isLoading && isRefreshing == old(isRefreshing)
    {
      selectedPeriodId := PeriodIdOf(value);
      requestedPeriod := BeginFetch(selectedPeriodId, false);
    }

    /** `handleViewDetail(b)` up to its `await`: the list record is shown at
        once while its detail is requested. */
    method BeginViewDetail(b: Beswan) returns (requestedId: Option<int>)
      modifies this`selected, this`detailDialog
      ensures requestedId == b.id
      ensures selected == Some(b) && detailDialog
    {
      selected := Some(b);
      detailDialog := true;
      requestedId := b.id;
    }

    method DetailSucceeded(detail: Beswan)
      modifies this`selected
      ensures selected == Some(detail)
    {
      selected := Some(detail);
    }

    /** The detail request failed: the list record stays selected and the
        dialog stays open. */
    method DetailFailed()
      modifies this`toast
      ensures toast == Show(DetailFailedMessage, ErrorToast)
    {
      toast := Show(DetailFailedMessage, ErrorToast);
    }

    /** `handleDeleteClick(b)`. */
    method HandleDeleteClick(b: Beswan)
      modifies this`selected, this`deleteDialog
      ensures selected == Some(b) && deleteDialog
    {
      selected := Some(b);
      deleteDialog := true;
    }

    /** `handleDeleteBeswan()` up to its `await`: the id to delete, or
        nothing when there is no selection or its id is falsy. */
    method BeginDelete() returns (requestedId: Option<int>)
      ensures requestedId.Some? <==> selected.Some? && HasTruthyId(selected.value)
      ensures requestedId.Some? ==> requestedId == selected.value.id
    {
      if selected.None? || !HasTruthyId(selected.value) {
        requestedId := None;
      } else {
        requestedId := selected.value.id;
      }
    }

    /** The delete succeeded: the dialog closes and the list is fetched again
        for the selected period; the stored records are not edited here. */
    method DeleteSucceeded() returns (requestedPeriod: Option<JsNumber>)
      requires Valid()
      modifies this`toast, this`deleteDialog, this`isLoading, this`isRefreshing, this`error
      ensures Valid()
      ensures toast == Show(DeletedMessage, SuccessToast) && !deleteDialog
      ensures requestedPeriod == selectedPeriodId
      ensures isLoading && isRefreshing == old(isRefreshing)
    {
      toast := Show(DeletedMessage, SuccessToast);
      deleteDialog := false;
      requestedPeriod := BeginFetch(selectedPeriodId, false);
    }

    /** The delete failed: only the toast changes; the dialog stays open. */
    method DeleteFailed()
      modifies this`toast
      ensures toast == Show(DeleteFailedMessage, ErrorToast)
    {
      toast := Show(DeleteFailedMessage, ErrorToast);
    }
  }

  /** A fresh page whose first load fails shows the main page with the mock
      record, never the error panel. */
  method FailedLoadScenario() returns (view: PageView, rows: seq<Beswan>)
    ensures view == PageMain
    ensures rows == [MockBeswan]
  {
    var page := new BackupApplicantListPage();
    var requested := page.BeginFetch(None, false);
    page.FetchFailed();
    view := page.View();
    EmptyTermKeepsAll(page.applicants);
    rows := page.Filtered();
  }

  /** Deleting a record whose id is 0 sends no request. */
  method ZeroIdDeleteScenario(b: Beswan) returns (requestedId: Option<int>)
    requires b.id == Some(0)
    ensures requestedId == None
  {
    var page := new BackupApplicantListPage();
    page.HandleDeleteClick(b);
    requestedId := page.BeginDelete();
  }
}
