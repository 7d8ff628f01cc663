/** The project-summary generator of `src/utils/aiClient.js`: a remote
    text-generation call with a deterministic templated fallback. The remote
    endpoint is not called here; what it does is an input (`FetchOutcome`). */
module AiClient {
  import opened Common

  const SUMMARY_PATH := "/api/ai/summary"
  const DEFAULT_PROJECT := "your project"
  const DEFAULT_SCOPE := "core build"
  const ITEM_SEPARATOR := ", "
  const SUMMARY_LEAD := "AI summary for "
  const SUMMARY_BODY := ": We recommend a discovery workshop, UX prototypes, and a phased build. Included scope: "

  /** What the `fetch` of the summary endpoint does once it is issued: it
      rejects (network error, or a body that is not JSON), or it answers with
      an HTTP status that is ok or not and, for an ok answer, a body whose
      `summary` field may be missing. */
  datatype FetchOutcome = Threw | Responded(ok: bool, summary: Option<string>)

  /** The POST the generator sends: the URL and the two JSON body fields. */
  datatype SummaryRequest = SummaryRequest(url: string, projectName: string, selectedItems: seq<string>)

  /** One call of `generateAiSummary`: the request it issued, if any, and the
      value its promise resolves to (`None` when the promise rejects). */
  datatype SummaryCall = SummaryCall(request: Option<SummaryRequest>, result: Option<string>)

  /** The scope phrase of the fallback: the items joined by `", "`, or
      `"core build"` when there are none. */
  function Scope(selectedItems: seq<string>): (r: string)
    ensures selectedItems == [] ==> r == DEFAULT_SCOPE
    ensures selectedItems != [] ==> r == Join(selectedItems, ITEM_SEPARATOR)
  {
    if |selectedItems| > 0 then Join(selectedItems, ITEM_SEPARATOR) else DEFAULT_SCOPE
  }

  /** `fallbackSummary`: the templated sentence. It names the project (or
      "your project") and contains the scope phrase, hence every selected
      item. */
  function FallbackSummary(projectName: string, selectedItems: seq<string>): (r: string)
    ensures StartsWith(r, SUMMARY_LEAD + OrElse(projectName, DEFAULT_PROJECT) + SUMMARY_BODY)
    ensures IsSubstring(OrElse(projectName, DEFAULT_PROJECT), r)
    ensures IsSubstring(Scope(selectedItems), r)
    ensures forall k :: 0 <= k < |selectedItems| ==> IsSubstring(selectedItems[k], r)
    ensures r[|r| - 1] == '.'
  {
    var name := OrElse(projectName, DEFAULT_PROJECT);
    var head := SUMMARY_LEAD + name + SUMMARY_BODY;
    var scope := Scope(selectedItems);
    var r := head + scope + ".";
    assert r[..|head|] == head;
    assert OccursAt(name, r, |SUMMARY_LEAD|);
    assert OccursAt(scope, r, |head|);
    forall k | 0 <= k < |selectedItems|
      ensures IsSubstring(selectedItems[k], r)
    {
      PartInJoin(selectedItems, ITEM_SEPARATOR, k);
      SubstringOfConcat(selectedItems[k], head, scope);
      SubstringOfConcat(selectedItems[k], ".", head + scope);
    }
    r
  }

  /** `generateAiSummary`: without a (truthy) API base the fallback, and no
      request; otherwise one POST to `<base>/api/ai/summary`, whose rejection
      propagates, whose non-ok answer or falsy `summary` gives the fallback,
      and whose truthy `summary` is returned verbatim. */
  function GenerateAiSummary(apiBase: Option<string>, projectName: string, selectedItems: seq<string>,
                             fetch: FetchOutcome): (c: SummaryCall)
    ensures (apiBase.None? || apiBase.value == "") ==>
      c.request.None? && c.result == Some(FallbackSummary(projectName, selectedItems))
    ensures apiBase.Some? && apiBase.value != "" ==>
      c.request == Some(SummaryRequest(apiBase.value + SUMMARY_PATH, projectName, selectedItems))
    ensures c.result.None? <==> (c.request.Some? && fetch.Threw?)
    ensures c.request.Some? && fetch.Responded? && !fetch.ok ==>
      c.result == Some(FallbackSummary(projectName, selectedItems))
    ensures c.request.Some? && fetch.Responded? && fetch.ok ==>
      c.result == Some(Or(fetch.summary, FallbackSummary(projectName, selectedItems)))
  {
    var fallback := FallbackSummary(projectName, selectedItems);
    match apiBase
    case None => SummaryCall(None, Some(fallback))
    case Some(base) =>
      if base == "" then SummaryCall(None, Some(fallback))
      else
        var request := Some(SummaryRequest(base + SUMMARY_PATH, projectName, selectedItems));
        match fetch
        case Threw => SummaryCall(request, None)
        case Responded(ok, summary) =>
          if !ok then SummaryCall(request, Some(fallback))
          else SummaryCall(request, Some(Or(summary, fallback)))
  }

  /** A resolved summary is either the remote text, verbatim and non-empty,
      or the fallback sentence; the remote text is used only when a request
      was made and answered ok. */
  lemma SummaryIsRemoteOrFallback(apiBase: Option<string>, projectName: string, selectedItems: seq<string>,
                                  fetch: FetchOutcome)
    ensures var c := GenerateAiSummary(apiBase, projectName, selectedItems, fetch);
      c.result.Some? ==>
        || c.result.value == FallbackSummary(projectName, selectedItems)
        || (c.request.Some? && fetch.Responded? && fetch.ok
            && fetch.summary == Some(c.result.value) && c.result.value != "")
  {
  }

  /** With no endpoint, the summary for project "Acme" with the single item
      "Website" names both. */
  lemma FallbackNamesProjectAndItems()
    ensures var c := GenerateAiSummary(None, "Acme", ["Website"], Threw);
      c.result.Some? && IsSubstring("Acme", c.result.value) && IsSubstring("Website", c.result.value)
  {
    var c := GenerateAiSummary(None, "Acme", ["Website"], Threw);
    assert OrElse("Acme", DEFAULT_PROJECT) == "Acme";
    assert ["Website"][0] == "Website";
  }
}
