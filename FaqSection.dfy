/** The public FAQ section (`Faq`): it fetches the published FAQs once,
    unwraps the response body and renders a loading, error, empty or list
    state. The HTTP exchange is a parameter of `FetchFaqs`. */
module FaqSection {
  import opened Wrappers
  import opened JsStrings

  /** One FAQ as the API returns it: `id`, `pertanyaan`, `jawaban`. */
  datatype Faq = Faq(id: Option<int>, question: string, answer: string)

  /** The value held in the `faqs` state: an array of FAQs, or a value
      without a usable length (an object or a non-string scalar). */
  datatype FaqsValue = FaqList(items: seq<Faq>) | NonList

  /** The `data` member of an object body: an array, a falsy value (absent,
      `null`, `false`, `0`, `""`), or a truthy value that is neither an array
      nor a string (an object, a non-zero number, `true`). */
  datatype DataField = DataList(items: seq<Faq>) | DataFalsy | DataOther

  /** The parsed JSON body. */
  datatype Payload =
    | NullPayload
    | ArrayPayload(items: seq<Faq>)
    | ObjectPayload(data: DataField)
    | ScalarPayload(truthy: bool)

  datatype Body = Unparseable | Parsed(payload: Payload)

  /** How the `fetch` call ended. */
  datatype FaqResponse = NetworkFailure | HttpResponse(ok: bool, body: Body)

  const LoadFailedMessage := "Gagal memuat FAQ"

  /** `result.data || result || []`, or `None` when it throws (reading
      `data` of `null`). An array is truthy even when empty, so it is kept. */
  function Unwrap(p: Payload): (r: Option<FaqsValue>)
    ensures r.None? <==> p.NullPayload?
    ensures p.ArrayPayload? ==> r == Some(FaqList(p.items))
    ensures p.ObjectPayload? && p.data.DataList? ==> r == Some(FaqList(p.data.items))
    // an object whose `data` is falsy falls back to the object itself; a truthy
    // non-array `data` is taken; neither has a usable length
    ensures p.ObjectPayload? && !p.data.DataList? ==> r == Some(NonList)
    // a falsy scalar falls through to `[]`
    ensures p.ScalarPayload? ==> r == Some(if p.truthy then NonList else FaqList([]))
  {
    match p
    case NullPayload => None
    case ArrayPayload(items) => Some(FaqList(items))
    case ObjectPayload(data) =>
      if data.DataList? then Some(FaqList(data.items)) else Some(NonList)
    case ScalarPayload(truthy) => Some(if truthy then NonList else FaqList([]))
  }

  /** The value `fetchFaqs` stores, or `None` when control reaches the
      catch block: a failed request, a non-ok status, a body that is not
      JSON, or a `null` body. */
  function Loaded(r: FaqResponse): (v: Option<FaqsValue>)
    ensures v.Some? <==> r.HttpResponse? && r.ok && r.body.Parsed? && !r.body.payload.NullPayload?
    ensures v.Some? ==> Some(v.value) == Unwrap(r.body.payload)
  {
    if r.NetworkFailure? || !r.ok || r.body.Unparseable? then None
    else Unwrap(r.body.payload)
  }

  /** `faqs.length > 0 ? faqs : []`. */
  function DisplayFaqs(v: FaqsValue): (r: seq<Faq>)
    ensures v.FaqList? ==> r == v.items
    ensures v.NonList? ==> r == []
  {
    if v.FaqList? && |v.items| > 0 then v.items else []
  }

  /** One rendered accordion entry. */
  datatype Entry = Entry(key: int, title: string, content: string)

  /** `faq.id || index`: a missing or zero id falls back to the position. */
  function KeyOf(f: Faq, index: nat): (k: int)
    ensures f.id.Some? && f.id.value != 0 ==> k == f.id.value
    ensures f.id.None? || f.id.value == 0 ==> k == index
  {
    if f.id.Some? && f.id.value != 0 then f.id.value else index
  }

  /** `displayFaqs.map(...)`: one entry per FAQ, in order. */
  function Entries(faqs: seq<Faq>): (r: seq<Entry>)
    ensures |r| == |faqs|
    ensures forall i :: 0 <= i < |faqs| ==>
              r[i].title == faqs[i].question && r[i].content == faqs[i].answer && r[i].key == KeyOf(faqs[i], i)
  {
    seq(|faqs|, i requires 0 <= i < |faqs| => Entry(KeyOf(faqs[i], i), faqs[i].question, faqs[i].answer))
  }

  /** When every FAQ carries a distinct non-zero id, the accordion keys are
      distinct. */
  lemma KeysDistinct(faqs: seq<Faq>)
    requires forall i :: 0 <= i < |faqs| ==> faqs[i].id.Some? && faqs[i].id.value != 0
    requires forall i, j :: 0 <= i < j < |faqs| ==> faqs[i].id != faqs[j].id
    ensures forall i, j :: 0 <= i < j < |faqs| ==> Entries(faqs)[i].key != Entries(faqs)[j].key
  {
  }

  /** The position fallback shares the key space with the ids: a FAQ without
      an id at position 1 gets the same key as a FAQ whose id is 1. */
  lemma KeysMayCollide()
    ensures Entries([Faq(Some(1), "a", "x"), Faq(None, "b", "y")])[0].key
            == Entries([Faq(Some(1), "a", "x"), Faq(None, "b", "y")])[1].key
  {
  }

  datatype FaqView = LoadingView | ErrorView(message: string) | EmptyView | ListView(entries: seq<Entry>)

  /** The early returns of the render: loading, then error, then empty. */
  function ViewOf(isLoading: bool, error: Option<string>, faqs: FaqsValue): (v: FaqView)
    ensures v == LoadingView <==> isLoading
    ensures v.ErrorView? <==> !isLoading && Truthy(error)
    ensures v.ErrorView? ==> Some(v.message) == error
    ensures v == EmptyView <==> !isLoading && !Truthy(error) && DisplayFaqs(faqs) == []
    ensures v.ListView? ==> v.entries == Entries(DisplayFaqs(faqs)) && |v.entries| > 0
  {
    if isLoading then LoadingView
    else if Truthy(error) then ErrorView(error.value)
    else if |DisplayFaqs(faqs)| == 0 then EmptyView
    else ListView(Entries(DisplayFaqs(faqs)))
  }

  /** A value without a usable length renders as the empty state. */
  lemma NonListIsEmpty(error: Option<string>)
    requires !Truthy(error)
    ensures ViewOf(false, error, NonList) == EmptyView
  {
  }

  class FaqSectionState {
    var faqs: FaqsValue
    var isLoading: bool
    var error: Option<string>

    /** The only error the component ever stores is the fixed message. */
    predicate Valid()
      reads this
    {
      error == None || error == Some(LoadFailedMessage)
    }

    constructor ()
      ensures Valid()
      ensures faqs == FaqList([]) && isLoading && error == None
    {
      faqs, isLoading, error := FaqList([]), true, None;
    }

    function View(): FaqView
      reads this
    {
      ViewOf(isLoading, error, faqs)
    }

    /** `fetchFaqs()` with the exchange's outcome `r`. It never clears the
        error and never sets the loading flag again, so a retry after a
        failure keeps showing the error whatever it receives. */
    method FetchFaqs(r: FaqResponse)
      requires Valid()
      modifies this`faqs, this`isLoading, this`error
      ensures Valid()
      ensures !isLoading
      ensures Loaded(r).Some? ==> faqs == Loaded(r).value && error == old(error)
      ensures Loaded(r).None? ==> faqs == old(faqs) && error == Some(LoadFailedMessage)
      ensures old(error).Some? ==> View() == ErrorView(LoadFailedMessage)
    {
      var v := Loaded(r);
      if v.Some? {
        faqs := v.value;
      } else {
        error := Some(LoadFailedMessage);
      }
      isLoading := false;
    }
  }

  /** A first load that fails, then a retry that succeeds, still shows the
      error panel. */
  method RetryAfterFailureScenario(retry: FaqResponse) returns (view: FaqView)
    ensures view == ErrorView(LoadFailedMessage)
  {
    var section := new FaqSectionState();
    section.FetchFaqs(NetworkFailure);
    section.FetchFaqs(retry);
    view := section.View();
  }

  /** A first load whose body wraps a non-empty array in `data` lists it. */
  method WrappedLoadScenario(items: seq<Faq>) returns (view: FaqView)
    requires |items| > 0
    ensures view == ListView(Entries(items))
  {
    var section := new FaqSectionState();
    section.FetchFaqs(HttpResponse(true, Parsed(ObjectPayload(DataList(items)))));
    view := section.View();
  }

  /** A first load whose body is `null` shows the error panel. */
  method NullBodyScenario() returns (view: FaqView)
    ensures view == ErrorView(LoadFailedMessage)
  {
    var section := new FaqSectionState();
    section.FetchFaqs(HttpResponse(true, Parsed(NullPayload)));
    view := section.View();
  }
}
