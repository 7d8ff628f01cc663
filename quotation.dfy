/** The quotation builder of `src/pages/Quotation.js`: a fixed catalog of
    priced services, a selection map that the user toggles, the derived
    subtotal / VAT / total, and the submission of a quotation request. Prices
    are whole dollars; amounts derived from them are exact reals (the page's
    floating-point rounding is not modelled). */
module Quotation {
  import opened Common
  import AiClient

  const VAT_RATE: real := 0.15
  const DEFAULT_PROJECT_NAME := "Custom Project"
  const DEFAULT_SUMMARY_NAME := "Project"
  const NOT_CONFIGURED_ERROR := "Backend connection is not configured yet. Please contact ByteAxis."
  const EMPTY_SELECTION_ERROR := "Select at least one service before submitting."
  const SUBMIT_FAILED_ERROR := "Failed to submit request. Please try again."

  /** A priced line item (the source calls `title` the `label`). */
  datatype CatalogItem = CatalogItem(id: string, title: string, price: nat, category: string)

  const CATALOG: seq<CatalogItem> := [
    CatalogItem("website", "Business website (5-7 pages)", 950, "Websites"),
    CatalogItem("webapp", "Web application MVP", 3500, "Web Apps"),
    CatalogItem("mobile", "Mobile app (iOS + Android)", 4500, "Mobile"),
    CatalogItem("internal", "Internal system / dashboard", 2800, "Internal Systems"),
    CatalogItem("ecommerce", "E-commerce store setup", 3200, "Websites"),
    CatalogItem("branding", "Brand identity starter kit", 220, "Business Setup"),
    CatalogItem("registration", "Business registration pack", 150, "Business Setup"),
    CatalogItem("compliance", "Compliance & opening papers", 200, "Business Setup"),
    CatalogItem("social", "Social media business pages", 120, "Marketing"),
    CatalogItem("ads", "Ads boosting setup", 180, "Marketing"),
    CatalogItem("domain", "Domain registration (annual)", 25, "Hosting"),
    CatalogItem("hosting", "Hosting + SSL + backups (annual)", 180, "Hosting"),
    CatalogItem("email", "Business email hosting (annual)", 120, "Hosting"),
    CatalogItem("maintenance", "Maintenance retainer (monthly)", 250, "Support")
  ]

  /** The sum of all catalog prices. */
  const CATALOG_TOTAL: nat := 16395

  // ---------------------------------------------------------------------------
  // Selection

  /** `selected`: item id to flag; a missing key means "not selected". */
  type Selection = map<string, bool>

  /** `!!selected[id]`. */
  predicate IsSelected(sel: Selection, id: string) {
    id in sel && sel[id]
  }

  /** `toggleItem(id)`: `{ ...prev, [id]: !prev[id] }`. The entry at `id` now
      holds the opposite of its old meaning; every other key is untouched. */
  function Toggle(sel: Selection, id: string): (r: Selection)
    ensures r.Keys == sel.Keys + {id}
    ensures IsSelected(r, id) == !IsSelected(sel, id)
    ensures forall k :: k in sel && k != id ==> r[k] == sel[k]
  {
    sel[id := !IsSelected(sel, id)]
  }

  /** Toggling twice restores what every key means; the map itself comes back
      only when `id` was already a key (otherwise it gains `id: false`). */
  lemma ToggleTwice(sel: Selection, id: string)
    ensures forall k :: IsSelected(Toggle(Toggle(sel, id), id), k) == IsSelected(sel, k)
    ensures id in sel ==> Toggle(Toggle(sel, id), id) == sel
    ensures id !in sel ==> Toggle(Toggle(sel, id), id) == sel[id := false]
  {
  }

  /** `quoteCatalog.filter((item) => selected[item.id])`. */
  function SelectedItems(catalog: seq<CatalogItem>, sel: Selection): (r: seq<CatalogItem>)
    ensures IsSubsequence(r, catalog)
    ensures forall it :: it in r <==> it in catalog && IsSelected(sel, it.id)
  {
    if catalog == [] then []
    else
      var rest := SelectedItems(catalog[1..], sel);
      assert forall it :: it in catalog <==> it == catalog[0] || it in catalog[1..];
      if IsSelected(sel, catalog[0].id) then
        SubsequenceCons(catalog[0], rest, catalog[1..]);
        assert [catalog[0]] + catalog[1..] == catalog;
        [catalog[0]] + rest
      else
        SubsequenceDropHead(rest, catalog);
        rest
  }

  /** Keys that name no catalog item do not affect the selection. */
  lemma {:induction false} UnknownIdsIgnored(catalog: seq<CatalogItem>, sel: Selection, id: string, b: bool)
    requires forall it :: it in catalog ==> it.id != id
    ensures SelectedItems(catalog, sel[id := b]) == SelectedItems(catalog, sel)
  {
    if catalog != [] {
      assert forall it :: it in catalog[1..] ==> it in catalog;
      UnknownIdsIgnored(catalog[1..], sel, id, b);
    }
  }

  // ---------------------------------------------------------------------------
  // Pricing

  /** `selectedItems.reduce((sum, item) => sum + item.price, 0)`. */
  function Subtotal(items: seq<CatalogItem>): nat {
    if items == [] then 0 else items[0].price + Subtotal(items[1..])
  }

  function Vat(subtotal: nat): real {
    subtotal as real * VAT_RATE
  }

  function Total(subtotal: nat): real {
    subtotal as real + Vat(subtotal)
  }

  /** A subsequence costs no more than the sequence it is drawn from. */
  lemma {:induction false} SubtotalOfSubsequence(a: seq<CatalogItem>, b: seq<CatalogItem>)
    requires IsSubsequence(a, b)
    ensures Subtotal(a) <= Subtotal(b)
    decreases |b|
  {
    if a != [] {
      if a[0] == b[0] {
        SubtotalOfSubsequence(a[1..], b[1..]);
      } else {
        SubtotalOfSubsequence(a, b[1..]);
      }
    }
  }

  /** One step of the price sum, at any position. */
  lemma SubtotalStep(items: seq<CatalogItem>, k: nat)
    requires k < |items|
    ensures Subtotal(items[k..]) == items[k].price + Subtotal(items[k + 1..])
  {
    assert items[k..][1..] == items[k + 1..];
  }

  /** The prices of the last seven catalog items add up to 1075. */
  lemma CatalogTailTotal()
    ensures Subtotal(CATALOG[7..]) == 1075
  {
    SubtotalStep(CATALOG, 13);
    SubtotalStep(CATALOG, 12);
    SubtotalStep(CATALOG, 11);
    SubtotalStep(CATALOG, 10);
    SubtotalStep(CATALOG, 9);
    SubtotalStep(CATALOG, 8);
    SubtotalStep(CATALOG, 7);
    assert CATALOG[14..] == [];
  }

  lemma CatalogTotal()
    ensures Subtotal(CATALOG) == CATALOG_TOTAL
  {
    CatalogTailTotal();
    SubtotalStep(CATALOG, 6);
    SubtotalStep(CATALOG, 5);
    SubtotalStep(CATALOG, 4);
    SubtotalStep(CATALOG, 3);
    SubtotalStep(CATALOG, 2);
    SubtotalStep(CATALOG, 1);
    SubtotalStep(CATALOG, 0);
    assert CATALOG[0..] == CATALOG;
  }

  /** Any selection's subtotal lies between 0 and the price of the whole
      catalog. */
  lemma SubtotalBounds(sel: Selection)
    ensures 0 <= Subtotal(SelectedItems(CATALOG, sel)) <= CATALOG_TOTAL
  {
    SubtotalOfSubsequence(SelectedItems(CATALOG, sel), CATALOG);
    CatalogTotal();
  }

  /** A catalog none of whose ids is selected yields no items. */
  lemma {:induction false} NothingSelected(catalog: seq<CatalogItem>, sel: Selection)
    requires forall it :: it in catalog ==> !IsSelected(sel, it.id)
    ensures SelectedItems(catalog, sel) == []
  {
    if catalog != [] {
      assert catalog[0] in catalog;
      assert forall it :: it in catalog[1..] ==> it in catalog;
      NothingSelected(catalog[1..], sel);
    }
  }

  /** Every catalog item has a positive price. */
  lemma CatalogPricesPositive()
    ensures forall it :: it in CATALOG ==> it.price > 0
  {
    assert forall k :: 0 <= k < |CATALOG| ==> CATALOG[k].price > 0;
  }

  /** Nothing selected: subtotal, VAT and total are all 0. */
  lemma EmptySelectionCostsNothing(sel: Selection)
    requires forall id :: !IsSelected(sel, id)
    ensures SelectedItems(CATALOG, sel) == []
    ensures Subtotal(SelectedItems(CATALOG, sel)) == 0 && Vat(0) == 0.0 && Total(0) == 0.0
  {
    NothingSelected(CATALOG, sel);
  }

  /** Every catalog item has a positive price, so the total is 0 exactly when
      nothing is selected. */
  lemma {:induction false} SubtotalZeroIffEmpty(items: seq<CatalogItem>)
    requires forall it :: it in items ==> it.price > 0
    ensures Subtotal(items) == 0 <==> items == []
    ensures Total(Subtotal(items)) == 0.0 <==> items == []
  {
    if items != [] {
      assert items[0] in items;
    }
  }

  /** Neither of the example's ids names an item after the first two. */
  lemma ExampleTailUnselected(sel: Selection)
    requires sel == map["website" := true, "webapp" := true]
    ensures forall k :: 2 <= k < |CATALOG| ==> !IsSelected(sel, CATALOG[k].id)
  {
  }

  /** Selecting exactly the ids of the first two items of a catalog picks
      those two items. */
  lemma {:induction false} FirstTwoSelected(catalog: seq<CatalogItem>, sel: Selection)
    requires |catalog| >= 2 && IsSelected(sel, catalog[0].id) && IsSelected(sel, catalog[1].id)
    requires forall k :: 2 <= k < |catalog| ==> !IsSelected(sel, catalog[k].id)
    ensures SelectedItems(catalog, sel) == catalog[..2]
  {
    assert forall it :: it in catalog[2..] ==> !IsSelected(sel, it.id);
    NothingSelected(catalog[2..], sel);
    assert catalog[1..][1..] == catalog[2..];
    assert SelectedItems(catalog[1..], sel) == [catalog[1]];
  }

  lemma ExampleSelection()
    ensures SelectedItems(CATALOG, map["website" := true, "webapp" := true]) == CATALOG[..2]
  {
    var sel := map["website" := true, "webapp" := true];
    ExampleTailUnselected(sel);
    FirstTwoSelected(CATALOG, sel);
  }

  lemma ExampleSubtotal()
    ensures Subtotal(CATALOG[..2]) == 4450
  {
    var c0, c1 := CATALOG[0], CATALOG[1];
    assert CATALOG[..2] == [c0, c1];
    assert [c0, c1][1..] == [c1];
    assert Subtotal([c1]) == 3500;
  }

  /** Selecting the website and the web application costs 4450, with 667.5
      VAT and 5117.5 in all. */
  lemma WebsiteAndWebappExample()
    ensures var items := SelectedItems(CATALOG, map["website" := true, "webapp" := true]);
      && |items| == 2 && items[0].id == "website" && items[1].id == "webapp"
      && Subtotal(items) == 4450 && Vat(Subtotal(items)) == 667.5 && Total(Subtotal(items)) == 5117.5
  {
    ExampleSelection();
    ExampleSubtotal();
  }

  // ---------------------------------------------------------------------------
  // Categories

  /** Position of the first occurrence of `x` in `xs`. */
  function FirstIndex(xs: seq<string>, x: string): (k: nat)
    requires x in xs
    ensures k < |xs| && xs[k] == x && forall j :: 0 <= j < k ==> xs[j] != x
  {
    if xs[0] == x then 0 else 1 + FirstIndex(xs[1..], x)
  }

  /** `[...new Set(xs)]`: each value once, in order of first occurrence. */
  function Distinct(xs: seq<string>): (r: seq<string>)
    ensures forall x :: x in r <==> x in xs
    ensures forall i, j :: 0 <= i < j < |r| ==> r[i] != r[j]
    ensures forall i, j :: 0 <= i < j < |r| ==> FirstIndex(xs, r[i]) < FirstIndex(xs, r[j])
  {
    if xs == [] then []
    else
      var init := xs[..|xs| - 1];
      var last := xs[|xs| - 1];
      var d := Distinct(init);
      assert xs == init + [last];
      FirstIndexInPrefix(init, last);
      if last in d then d
      else
        assert forall k :: 0 <= k < |d| ==> FirstIndex(xs, d[k]) < |init|;
        d + [last]
  }

  /** Appending an element does not move the first occurrence of anything
      already present. */
  lemma FirstIndexInPrefix(init: seq<string>, last: string)
    ensures forall x :: x in init ==> FirstIndex(init + [last], x) == FirstIndex(init, x)
    ensures last !in init ==> FirstIndex(init + [last], last) == |init|
  {
    forall x | x in init
      ensures FirstIndex(init + [last], x) == FirstIndex(init, x)
    {
      FirstIndexAppend(init, last, x);
    }
    if last !in init {
      assert forall j :: 0 <= j < |init| ==> (init + [last])[j] == init[j];
    }
  }

  lemma {:induction false} FirstIndexAppend(init: seq<string>, last: string, x: string)
    requires x in init
    ensures FirstIndex(init + [last], x) == FirstIndex(init, x)
  {
    if init[0] != x {
      assert (init + [last])[1..] == init[1..] + [last];
      FirstIndexAppend(init[1..], last, x);
    }
  }

  function CategoryColumn(catalog: seq<CatalogItem>): (r: seq<string>)
    ensures |r| == |catalog| && forall k :: 0 <= k < |r| ==> r[k] == catalog[k].category
  {
    if catalog == [] then [] else [catalog[0].category] + CategoryColumn(catalog[1..])
  }

  /** `categories`: the catalog's categories, each once, in first-occurrence
      order. */
  function Categories(catalog: seq<CatalogItem>): (r: seq<string>)
    ensures forall c :: c in r <==> c in CategoryColumn(catalog)
    ensures forall c :: c in r <==> exists it :: it in catalog && it.category == c
    ensures forall i, j :: 0 <= i < j < |r| ==> r[i] != r[j]
    ensures forall i, j :: 0 <= i < j < |r| ==>
      FirstIndex(CategoryColumn(catalog), r[i]) < FirstIndex(CategoryColumn(catalog), r[j])
  {
    var column := CategoryColumn(catalog);
    assert forall c :: c in column <==> exists it :: it in catalog && it.category == c by {
      forall c | c in column ensures exists it :: it in catalog && it.category == c {
        var k :| 0 <= k < |column| && column[k] == c;
        assert catalog[k] in catalog;
      }
      forall c | exists it :: it in catalog && it.category == c ensures c in column {
        var it :| it in catalog && it.category == c;
        var k :| 0 <= k < |catalog| && catalog[k] == it;
        assert column[k] == c;
      }
    }
    Distinct(column)
  }

  // ---------------------------------------------------------------------------
  // Requests

  datatype LineItem = LineItem(title: string, category: string, price: nat)

  datatype QuotationStatus = New | Reviewing | Approved | Completed

  /** The `quotationRequest` document handed to the store's `create`. */
  datatype QuotationRequest = QuotationRequest(
    projectName: string, companyName: string, timeline: string, notes: string,
    subtotal: nat, vat: real, total: real, status: QuotationStatus,
    client: ClientInfo, lineItems: seq<LineItem>, createdAt: string)

  /** The four free-text inputs of the page. */
  datatype QuoteForm = QuoteForm(projectName: string, companyName: string, timeline: string, notes: string)

  /** The navigation state passed to the payment page. */
  datatype QuoteHandoff = QuoteHandoff(projectName: string, companyName: string, total: real, subtotal: nat, vat: real)

  function LineItems(items: seq<CatalogItem>): (r: seq<LineItem>)
    ensures |r| == |items|
    ensures forall k :: 0 <= k < |r| ==>
      r[k] == LineItem(items[k].title, items[k].category, items[k].price)
  {
    if items == [] then [] else [LineItem(items[0].title, items[0].category, items[0].price)] + LineItems(items[1..])
  }

  function LineTotal(lines: seq<LineItem>): nat {
    if lines == [] then 0 else lines[0].price + LineTotal(lines[1..])
  }

  /** The line items carry the same prices as the catalog items they copy. */
  lemma {:induction false} LineTotalMatches(items: seq<CatalogItem>)
    ensures LineTotal(LineItems(items)) == Subtotal(items)
  {
    if items != [] {
      LineTotalMatches(items[1..]);
      assert LineItems(items)[1..] == LineItems(items[1..]);
    }
  }

  /** The document is internally consistent: its subtotal is the sum of its
      line prices, its VAT is 15% of that and its total their sum. */
  predicate Consistent(doc: QuotationRequest) {
    && doc.subtotal == LineTotal(doc.lineItems)
    && doc.vat == doc.subtotal as real * VAT_RATE
    && doc.total == doc.subtotal as real + doc.vat
  }

  /** The `client` block of a request: empty strings stand in for missing
      user data. */
  function QuoteClient(user: Option<User>): ClientInfo {
    ClientInfo(Or(UserId(user), ""), Or(UserFullName(user), ""), Or(UserEmail(user), ""))
  }

  /** The validation and document assembly of `handleSubmitRequest`: a missing
      write client is reported first, then an empty selection; otherwise the
      document has status `new`, a defaulted project name, the computed
      amounts and the selected items' lines in catalog order. */
  function BuildRequest(client: WriteClient, form: QuoteForm, sel: Selection, user: Option<User>,
                        createdAt: string): (r: Result<QuotationRequest>)
    ensures client.Unconfigured? ==> r == Failure(NOT_CONFIGURED_ERROR)
    ensures client.Configured? && SelectedItems(CATALOG, sel) == [] ==> r == Failure(EMPTY_SELECTION_ERROR)
    ensures client.Configured? && SelectedItems(CATALOG, sel) != [] ==> r.Success?
    ensures r.Success? ==>
      var doc := r.value;
      && doc.status == New
      && doc.projectName == OrElse(form.projectName, DEFAULT_PROJECT_NAME)
      && doc.companyName == form.companyName && doc.timeline == form.timeline && doc.notes == form.notes
      && doc.subtotal == Subtotal(SelectedItems(CATALOG, sel))
      && doc.vat == Vat(doc.subtotal) && doc.total == Total(doc.subtotal)
      && doc.lineItems == LineItems(SelectedItems(CATALOG, sel))
      && doc.lineItems != []
      && doc.client == QuoteClient(user)
      && doc.createdAt == createdAt
      && Consistent(doc)
  {
    var items := SelectedItems(CATALOG, sel);
    if client.Unconfigured? then Failure(NOT_CONFIGURED_ERROR)
    else if |items| == 0 then Failure(EMPTY_SELECTION_ERROR)
    else
      var subtotal := Subtotal(items);
      LineTotalMatches(items);
      Success(QuotationRequest(
        OrElse(form.projectName, DEFAULT_PROJECT_NAME), form.companyName, form.timeline, form.notes,
        subtotal, Vat(subtotal), Total(subtotal), New,
        QuoteClient(user), LineItems(items), createdAt))
  }

  /** `handleProceedToPayment`'s navigation state. */
  function Handoff(form: QuoteForm, sel: Selection): (h: QuoteHandoff)
    ensures h.projectName != ""
    ensures h.projectName == OrElse(form.projectName, DEFAULT_PROJECT_NAME) && h.companyName == form.companyName
    ensures h.total == h.subtotal as real + h.vat && h.vat == h.subtotal as real * VAT_RATE
    ensures h.subtotal == Subtotal(SelectedItems(CATALOG, sel))
  {
    var subtotal := Subtotal(SelectedItems(CATALOG, sel));
    QuoteHandoff(OrElse(form.projectName, DEFAULT_PROJECT_NAME), form.companyName, Total(subtotal), subtotal, Vat(subtotal))
  }

  /** "Proceed to Payment" is disabled when the total is 0, which is exactly
      when no item is selected. */
  lemma {:induction false} ProceedEnabledIffSelection(form: QuoteForm, sel: Selection)
    ensures Handoff(form, sel).total != 0.0 <==> SelectedItems(CATALOG, sel) != []
  {
    var items := SelectedItems(CATALOG, sel);
    CatalogPricesPositive();
    SubtotalZeroIffEmpty(items);
  }

  /** The arguments `handleGenerateSummary` passes to the summary generator. */
  function SummaryName(form: QuoteForm): (r: string)
    ensures r != ""
    ensures form.projectName != "" ==> r == form.projectName
    ensures form.projectName == "" && form.companyName != "" ==> r == form.companyName
  {
    OrElse(OrElse(form.projectName, form.companyName), DEFAULT_SUMMARY_NAME)
  }

  /** The arguments of one `generateAiSummary` call. */
  datatype SummaryArgs = SummaryArgs(projectName: string, selectedItems: seq<string>)

  function SelectedLabels(items: seq<CatalogItem>): (r: seq<string>)
    ensures |r| == |items| && forall k :: 0 <= k < |r| ==> r[k] == items[k].title
  {
    if items == [] then [] else [items[0].title] + SelectedLabels(items[1..])
  }

  /** Without a summary endpoint the page still shows a summary, and it
      names the project (or the company, or "Project") and every selected
      service. */
  lemma OfflineSummaryNamesSelection(form: QuoteForm, sel: Selection)
    ensures var items := SelectedItems(CATALOG, sel);
      var c := AiClient.GenerateAiSummary(None, SummaryName(form), SelectedLabels(items), AiClient.Threw);
      && c.result.Some? && IsSubstring(SummaryName(form), c.result.value)
      && forall it :: it in items ==> IsSubstring(it.title, c.result.value)
  {
    var items := SelectedItems(CATALOG, sel);
    var labels := SelectedLabels(items);
    var c := AiClient.GenerateAiSummary(None, SummaryName(form), labels, AiClient.Threw);
    assert OrElse(SummaryName(form), AiClient.DEFAULT_PROJECT) == SummaryName(form);
    forall it | it in items ensures IsSubstring(it.title, c.result.value) {
      var k :| 0 <= k < |items| && items[k] == it;
      assert labels[k] == it.title;
    }
  }

  // ---------------------------------------------------------------------------
  // Page state

  /** The state of the quotation page and its handlers. The two `await`s of
      the page are split into the handler that issues a call and the
      continuation that runs when the call settles. */
  class QuotationPage {
    var form: QuoteForm
    var selected: Selection
    var aiSummary: string
    var loading: bool
    var requestLoading: bool
    var requestError: string
    var requestSuccess: bool

    constructor ()
      ensures form == QuoteForm("", "", "", "") && selected == map[]
      ensures aiSummary == "" && !loading
      ensures !requestLoading && requestError == "" && !requestSuccess
    {
      form := QuoteForm("", "", "", "");
      selected := map[];
      aiSummary := "";
      loading := false;
      requestLoading := false;
      requestError := "";
      requestSuccess := false;
    }

    /** The items currently selected, in catalog order. */
    function Items(): seq<CatalogItem>
      reads this
    {
      SelectedItems(CATALOG, selected)
    }

    method EditForm(newForm: QuoteForm)
      modifies this`form
      ensures form == newForm
    {
      form := newForm;
    }

    method ToggleItem(id: string)
      modifies this`selected
      ensures selected == Toggle(old(selected), id)
    {
      selected := Toggle(selected, id);
    }

    /** `handleSubmitRequest` up to the `create` call. While a request is
        loading the submit button is disabled and nothing happens. Otherwise
        a validation failure sets its message and sends nothing, and a valid
        request sets loading, clears the error and returns the document to
        create. */
    method SubmitRequest(client: WriteClient, user: Option<User>, createdAt: string)
      returns (sent: Option<QuotationRequest>)
      modifies this`requestLoading, this`requestError
      ensures old(requestLoading) ==> sent.None? && requestLoading && requestError == old(requestError)
      ensures !old(requestLoading) ==>
        match BuildRequest(client, form, selected, user, createdAt)
        case Failure(e) => sent.None? && requestError == e && !requestLoading
        case Success(doc) => sent == Some(doc) && requestLoading && requestError == ""
    {
      if requestLoading {
        sent := None;
        return;
      }
      var r := BuildRequest(client, form, selected, user, createdAt);
      match r
      case Failure(e) =>
        requestError := e;
        sent := None;
      case Success(doc) =>
        requestLoading := true;
        requestError := "";
        sent := Some(doc);
    }

    /** The rest of `handleSubmitRequest` once `create` settles: success is
        flagged only when the document was created, and loading is cleared
        either way. */
    method RequestSettled(outcome: CreateOutcome)
      modifies this`requestLoading, this`requestError, this`requestSuccess
      ensures !requestLoading
      ensures outcome.Created? ==> requestSuccess && requestError == old(requestError)
      ensures outcome.CreateFailed? ==> requestError == SUBMIT_FAILED_ERROR && requestSuccess == old(requestSuccess)
    {
      if outcome.Created? {
        requestSuccess := true;
      } else {
        requestError := SUBMIT_FAILED_ERROR;
      }
      requestLoading := false;
    }

    /** `handleGenerateSummary` up to its `await`. While a summary is
        loading the button is disabled and nothing happens; otherwise loading
        is set and the generator's arguments are returned. */
    method GenerateSummary() returns (args: Option<SummaryArgs>)
      modifies this`loading
      ensures loading
      ensures old(loading) ==> args.None?
      ensures !old(loading) ==> args == Some(SummaryArgs(SummaryName(form), SelectedLabels(Items())))
    {
      if loading {
        args := None;
        return;
      }
      loading := true;
      args := Some(SummaryArgs(SummaryName(form), SelectedLabels(Items())));
    }

    /** The continuation: a resolved summary is shown, a rejected call leaves
        the old one; loading is cleared either way. */
    method SummarySettled(result: Option<string>)
      modifies this`loading, this`aiSummary
      ensures !loading
      ensures aiSummary == if result.Some? then result.value else old(aiSummary)
    {
      if result.Some? {
        aiSummary := result.value;
      }
      loading := false;
    }

    /** `handleProceedToPayment`: the state handed to the payment page. The
        button is disabled while the total is 0, which is exactly when
        nothing is selected; a click then does nothing. */
    method ProceedToPayment() returns (h: Option<QuoteHandoff>)
      ensures h.None? <==> Handoff(form, selected).total == 0.0
      ensures h.None? <==> Items() == []
      ensures h.Some? ==> h.value == Handoff(form, selected)
    {
      ProceedEnabledIffSelection(form, selected);
      var handoff := Handoff(form, selected);
      if handoff.total == 0.0 {
        h := None;
      } else {
        h := Some(handoff);
      }
    }
  }

  /** A submission issued from the page carries a non-empty, consistent
      document, or none at all when the first two checks fail. */
  lemma SubmittedDocumentIsConsistent(client: WriteClient, form: QuoteForm, sel: Selection,
                                      user: Option<User>, createdAt: string)
    ensures var r := BuildRequest(client, form, sel, user, createdAt);
      r.Success? ==> Consistent(r.value) && 0 < r.value.subtotal <= CATALOG_TOTAL && r.value.total > 0.0
  {
    var items := SelectedItems(CATALOG, sel);
    SubtotalBounds(sel);
    CatalogPricesPositive();
    SubtotalZeroIffEmpty(items);
  }
}
