/** The run (`main` in build_site.py): acquire the sample items, then ask for
    the narrative, then render the page. Writing the page to
    `output/index.html` is left to the caller; the method returns the text
    that would be written, along with the intermediate values. */
module Pipeline {
  import opened News
  import opened Summary
  import opened Render

  /** One run of the pipeline, stage by stage. No stage can stop the run:
      the narrative is text whatever the service did, and the page is built
      from whatever narrative came back. What the page shows of the items
      and the narrative is stated by the `Render` lemmas, which hold for any
      scored items. */
  method RunPipeline(apiKey: Option<string>, post: ChatRequest -> Outcome, t: Template, now: string, strRepr: string -> string)
    returns (news: seq<NewsItem>, call: SummaryCall, page: string)
    ensures |news| == 3 && AllScored(news)
    ensures forall i :: 0 <= i < |news| ==> news[i] == SampleRecords()[i].(score := Some(80 - 10 * i))
    ensures call == CallSummary(apiKey, news, post)
    ensures page == RenderPage(t, news, call.narrative, now, strRepr)
  {
    news := GetMockNews();
    call := CallSummary(apiKey, news, post);
    page := RenderPage(t, news, call.narrative, now, strRepr);
  }
}
