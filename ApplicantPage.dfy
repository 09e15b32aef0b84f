/** The current admin page listing scholarship applicants
    (`PendaftarBeasiswaPage`): its search/status filter, local delete-by-id,
    the table's loading/empty/rows choice, and the page state that its
    handlers update. Each asynchronous handler is split into the method that
    runs up to its `await` and the methods that run when the awaited call
    succeeds or fails. */
module ApplicantPage {
  import opened Wrappers
  import opened JsStrings
  import opened Sequences
  import opened Notifications
  import opened PeriodFilter

  /** The fields of an `Applicant` the page reads: `id`, `status`,
      `personalData.fullName` and `personalData.address`. */
  datatype Applicant = Applicant(id: string, status: string,
                                 fullName: Option<string>, address: Option<string>)

  /** The record used in place of the list when loading fails. */
  const MockApplicant := Applicant("1", "Pending", Some("John Doe"), Some("Jakarta"))

  const LoadFailedMessage := "Gagal memuat data pendaftar beasiswa"
  const RefreshedMessage := "Data berhasil diperbarui"
  const DetailFailedMessage := "Gagal memuat detail pendaftar"
  const DeletedMessage := "Data pendaftar berhasil dihapus"

  // ---------------------------------------------------------------------
  // Filtering

  /** `field?.toLowerCase().includes(term.toLowerCase())`: an absent field never matches. */
  predicate FieldMatches(field: Option<string>, term: string) {
    field.Some? && Includes(ToLower(field.value), ToLower(term))
  }

  predicate MatchesSearch(a: Applicant, term: string) {
    term == "" || FieldMatches(a.fullName, term) || FieldMatches(a.address, term)
  }

  predicate MatchesStatus(a: Applicant, statusFilter: string) {
    statusFilter == "all" || ToLower(a.status) == ToLower(statusFilter)
  }

  predicate IsShown(a: Applicant, term: string, statusFilter: string) {
    MatchesSearch(a, term) && MatchesStatus(a, statusFilter)
  }

  /** `filteredApplicants`: the applicants passing both tests, in list order. */
  function FilteredApplicants(applicants: seq<Applicant>, term: string, statusFilter: string): (r: seq<Applicant>)
    ensures forall a :: a in r <==> a in applicants && IsShown(a, term, statusFilter)
    ensures IsSubsequence(r, applicants)
    ensures forall a :: multiset(r)[a] == if IsShown(a, term, statusFilter) then multiset(applicants)[a] else 0
  {
    var shown := (a: Applicant) => IsShown(a, term, statusFilter);
    FilterIsSubsequence(applicants, shown);
    assert forall a :: multiset(Filter(applicants, shown))[a]
                       == if shown(a) then multiset(applicants)[a] else 0 by {
      forall a ensures multiset(Filter(applicants, shown))[a]
                       == if shown(a) then multiset(applicants)[a] else 0 {
        FilterCount(applicants, shown, a);
      }
    }
    Filter(applicants, shown)
  }

  /** No search term and status "all" show the whole list. */
  lemma ShowAllWithoutFilters(applicants: seq<Applicant>)
    ensures FilteredApplicants(applicants, "", "all") == applicants
  {
    FilterKeepsAll(applicants, (a: Applicant) => IsShown(a, "", "all"));
  }

  /** The search ignores the case of the term. */
  lemma SearchIgnoresTermCase(applicants: seq<Applicant>, term: string, statusFilter: string)
    ensures FilteredApplicants(applicants, ToLower(term), statusFilter)
         == FilteredApplicants(applicants, term, statusFilter)
  {
    ToLowerIdempotent(term);
    FilterAgrees(applicants, (a: Applicant) => IsShown(a, ToLower(term), statusFilter),
                             (a: Applicant) => IsShown(a, term, statusFilter));
  }

  /** A record with neither a name nor an address matches no non-empty term. */
  lemma AbsentFieldsNeverMatch(applicants: seq<Applicant>, a: Applicant, term: string, statusFilter: string)
    requires a.fullName.None? && a.address.None? && term != ""
    ensures a !in FilteredApplicants(applicants, term, statusFilter)
  {
  }

  // ---------------------------------------------------------------------
  // Delete by id

  /** `applicants.filter(item => item.id !== id)`. */
  function RemoveById(applicants: seq<Applicant>, id: string): (r: seq<Applicant>)
    ensures forall a :: a in r <==> a in applicants && a.id != id
    ensures IsSubsequence(r, applicants)
    ensures forall a: Applicant :: a.id != id ==> multiset(r)[a] == multiset(applicants)[a]
  {
    var keep := (a: Applicant) => a.id != id;
    FilterIsSubsequence(applicants, keep);
    assert forall a: Applicant :: a.id != id ==> multiset(Filter(applicants, keep))[a] == multiset(applicants)[a] by {
      forall a: Applicant | a.id != id ensures multiset(Filter(applicants, keep))[a] == multiset(applicants)[a] {
        FilterCount(applicants, keep, a);
      }
    }
    Filter(applicants, keep)
  }

  /** Removing the same id twice removes no more than removing it once. */
  lemma RemoveByIdIdempotent(applicants: seq<Applicant>, id: string)
    ensures RemoveById(RemoveById(applicants, id), id) == RemoveById(applicants, id)
  {
    FilterIdempotent(applicants, (a: Applicant) => a.id != id);
  }

  // ---------------------------------------------------------------------
  // The table area

  datatype TableView = LoadingRows | NoRows(noSearchResults: bool) | Rows(rows: seq<Applicant>)

  /** Spinner while loading, then an empty state, then one row per shown applicant. */
  function TableViewOf(isLoading: bool, filtered: seq<Applicant>, searchTerm: string): (v: TableView)
    ensures v.LoadingRows? <==> isLoading
    ensures v.NoRows? <==> !isLoading && filtered == []
    ensures v.NoRows? ==> (v.noSearchResults <==> searchTerm != "")
    ensures v.Rows? ==> v.rows == filtered && |v.rows| > 0
  {
    if isLoading then LoadingRows
    else if |filtered| == 0 then NoRows(searchTerm != "")
    else Rows(filtered)
  }

  // ---------------------------------------------------------------------
  // The page state

  class ApplicantListPage {
    var applicants: seq<Applicant>
    var isLoading: bool
    var isRefreshing: bool
    var error: Option<string>
    var searchTerm: string
    var statusFilter: string
    var selectedPeriodId: Option<JsNumber>
    var detailDialog: bool
    var deleteDialog: bool
    var selected: Option<Applicant>
    var statsTotal: nat
    var toast: Toast

    /** The state before the mount-time fetch has started. */
    constructor ()
      ensures applicants == [] && isLoading && !isRefreshing && error == None
      ensures searchTerm == "" && statusFilter == "all" && selectedPeriodId == None
      ensures !detailDialog && !deleteDialog && selected == None
      ensures statsTotal == 0 && toast == HiddenToast
    {
      applicants, isLoading, isRefreshing, error := [], true, false, None;
      searchTerm, statusFilter, selectedPeriodId := "", "all", None;
      detailDialog, deleteDialog, selected := false, false, None;
      statsTotal, toast := 0, HiddenToast;
    }

    function Filtered(): seq<Applicant>
      reads this
    {
      FilteredApplicants(applicants, searchTerm, statusFilter)
    }

    function Table(): TableView
      reads this
    {
      TableViewOf(isLoading, Filtered(), searchTerm)
    }

    method SetSearchTerm(term: string)
      modifies this`searchTerm
      ensures searchTerm == term
    {
      searchTerm := term;
    }

    method SetStatusFilter(value: string)
      modifies this`statusFilter
      ensures statusFilter == value
    {
      statusFilter := value;
    }

    /** `fetchApplicants(periodId, isRefresh)` up to its `await`. The request
        it then sends (`getApplicants()`) carries no period, whatever
        `periodId` is. A refresh leaves the table as it was. */
    method BeginFetch(periodId: Option<JsNumber>, isRefresh: bool) returns (requestedPeriod: Option<JsNumber>)
      modifies this`isLoading, this`isRefreshing, this`error
      ensures requestedPeriod == None
      ensures isRefreshing == (isRefresh || old(isRefreshing))
      ensures isLoading == (!isRefresh || old(isLoading))
      ensures error == None
      ensures isRefresh ==> Table() == old(Table())
    {
      if isRefresh {
        isRefreshing := true;
      } else {
        isLoading := true;
      }
      error := None;
      requestedPeriod := None;
    }

    /** The fetch resolved with `response.data`. */
    method FetchSucceeded(isRefresh: bool, data: seq<Applicant>)
      modifies this`applicants, this`statsTotal, this`toast, this`isLoading, this`isRefreshing
      ensures applicants == data && statsTotal == |data|
      ensures toast == if isRefresh then Show(RefreshedMessage, SuccessToast) else old(toast)
      ensures !isLoading && !isRefreshing
    {
      applicants := data;
      statsTotal := |data|;
      if isRefresh {
        toast := Show(RefreshedMessage, SuccessToast);
      }
      isLoading, isRefreshing := false, false;
    }

    /** The fetch failed: the error is recorded and the list is replaced by
        the single mock record. */
    method FetchFailed()
      modifies this`applicants, this`statsTotal, this`toast, this`isLoading, this`isRefreshing, this`error
      ensures error == Some(LoadFailedMessage)
      ensures applicants == [MockApplicant] && statsTotal == 1
      ensures toast == Show(LoadFailedMessage, ErrorToast)
      ensures !isLoading && !isRefreshing
    {
      error := Some(LoadFailedMessage);
      toast := Show(LoadFailedMessage, ErrorToast);
      applicants := [MockApplicant];
      statsTotal := |applicants|;
      isLoading, isRefreshing := false, false;
    }

    /** `handlePeriodChange(value)`: store the period and start a non-refresh fetch. */
    method HandlePeriodChange(value: string) returns (requestedPeriod: Option<JsNumber>)
      modifies this`selectedPeriodId, this`isLoading, this`isRefreshing, this`error
      ensures selectedPeriodId == PeriodIdOf(value) && requestedPeriod == None
      ensures isLoading && isRefreshing == old(isRefreshing) && error == None
    {
      selectedPeriodId := PeriodIdOf(value);
      requestedPeriod := BeginFetch(selectedPeriodId, false);
    }

    /** `handleDetailClick(a)` up to its `await`: the dialog opens empty and
        the detail of `a.id` is requested. */
    method BeginDetail(a: Applicant) returns (requestedId: string)
      modifies this`selected, this`detailDialog
      ensures requestedId == a.id
      ensures selected == None && detailDialog
    {
      selected := None;
      detailDialog := true;
      requestedId := a.id;
    }

    method DetailSucceeded(detail: Applicant)
      modifies this`selected
      ensures selected == Some(detail)
    {
      selected := Some(detail);
    }

    /** The detail request failed: the dialog closes and the selection stays as it was. */
    method DetailFailed()
      modifies this`toast, this`detailDialog
      ensures toast == Show(DetailFailedMessage, ErrorToast) && !detailDialog
    {
      toast := Show(DetailFailedMessage, ErrorToast);
      detailDialog := false;
    }

    /** `handleDeleteClick(a)`. */
    method HandleDeleteClick(a: Applicant)
      modifies this`selected, this`deleteDialog
      ensures selected == Some(a) && deleteDialog
    {
      selected := Some(a);
      deleteDialog := true;
    }

    /** `handleDeleteBeswan()`: removes the selected id from the local list
        (the source applies the same filter twice). Without a selection
        nothing changes. */
    method HandleDeleteBeswan()
      modifies this`applicants, this`toast, this`deleteDialog, this`selected
      ensures old(selected).None? ==>
                applicants == old(applicants) && toast == old(toast)
                && deleteDialog == old(deleteDialog) && selected == None
      ensures old(selected).Some? ==>
                applicants == RemoveById(old(applicants), old(selected).value.id)
                && toast == Show(DeletedMessage, SuccessToast)
                && !deleteDialog && selected == None
    {
      if selected.None? {
        return;
      }
      var id := selected.value.id;
      applicants := RemoveById(applicants, id);
      applicants := RemoveById(applicants, id);
      RemoveByIdIdempotent(old(applicants), id);
      toast := Show(DeletedMessage, SuccessToast);
      deleteDialog := false;
      selected := None;
    }
  }

  /** A detail request that fails right after the click leaves no selection
      and the dialog closed. */
  method DetailFailureScenario(a: Applicant) returns (page: ApplicantListPage)
    ensures page.selected == None && !page.detailDialog
    ensures page.toast == Show(DetailFailedMessage, ErrorToast)
  {
    page := new ApplicantListPage();
    var requested := page.BeginDetail(a);
    page.DetailFailed();
  }

  /** While a refresh is in flight the loaded rows stay on screen; its
      success then shows the new rows. */
  method RefreshScenario(first: seq<Applicant>, second: seq<Applicant>) returns (during: TableView, after: TableView)
    requires first != [] && second != []
    ensures during == Rows(first)
    ensures after == Rows(second)
  {
    var page := new ApplicantListPage();
    var requested := page.BeginFetch(None, false);
    page.FetchSucceeded(false, first);
    ShowAllWithoutFilters(first);
    requested := page.BeginFetch(page.selectedPeriodId, true);
    during := page.Table();
    page.FetchSucceeded(true, second);
    ShowAllWithoutFilters(second);
    after := page.Table();
  }

  /** Choosing a period starts a fetch whose request carries no period. */
  method PeriodChangeScenario(value: string) returns (requestedPeriod: Option<JsNumber>, isLoading: bool)
    ensures requestedPeriod == None && isLoading
  {
    var page := new ApplicantListPage();
    requestedPeriod := page.HandlePeriodChange(value);
    isLoading := page.isLoading;
  }

  /** A failed load shows the mock record in the table. */
  method FailedLoadScenario() returns (view: TableView, error: Option<string>)
    ensures view == Rows([MockApplicant])
    ensures error == Some(LoadFailedMessage)
  {
    var page := new ApplicantListPage();
    var requested := page.BeginFetch(None, false);
    page.FetchFailed();
    ShowAllWithoutFilters([MockApplicant]);
    view := page.Table();
    error := page.error;
  }
}
