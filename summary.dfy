/** The trend narrative (`call_deepseek_summary` in build_site.py): a prompt
    built from the items, one chat-completion request, and a result that is
    always text. The environment lookup is the `apiKey` argument and the
    HTTP round trip is the `post` argument, which maps the request that
    would be sent to what came of it. */
module Summary {
  import opened Text
  import opened News

  /** What came of the POST: the first choice's message content, or the
      description of the exception raised on the way (transport failure,
      undecodable body, missing `choices[0].message.content`). */
  datatype Outcome = Ok(content: string) | Err(reason: string)

  /** The request the function would send. */
  datatype ChatRequest = ChatRequest(endpoint: string, model: string, apiKey: string, prompt: string)

  /** A call's observable effect: the request it sent, if any, and the
      narrative it returned. */
  datatype SummaryCall = SummaryCall(request: Option<ChatRequest>, narrative: string)

  const Endpoint := "https://api.deepseek.com/v1/chat/completions"
  const ModelName := "deepseek-chat"

  const MissingKeyNotice := "（未配置 DEEPSEEK_API_KEY，暂时无法生成 AI 总结。）"
  const FailurePrefix := "调用 DeepSeek 失败："

  /** The fixed instruction text the item lines follow. */
  const PromptPrefix :=
    "你是一名互联网趋势分析师。下面是今天来自不同平台的热点标题，"
    + "请用中文写一段 150 字左右的《今日趋势解读》，"
    + "要求：1）整体概括今天大家在关心什么；2）指出一个你认为未来几天可能持续发酵的方向：\n\n"

  /** Python's `not api_key`: the variable is unset or empty. */
  predicate KeyMissing(apiKey: Option<string>)
  {
    apiKey == None || apiKey.value == ""
  }

  /** One prompt line: `source：title`. The source and the title can be read
      back on either side of the colon. */
  function PromptLine(n: NewsItem): (line: string)
    ensures |line| == |n.source| + 1 + |n.title|
    ensures line[..|n.source|] == n.source && line[|n.source|] == '：' && line[|n.source| + 1..] == n.title
  {
    n.source + "：" + n.title
  }

  function PromptLines(items: seq<NewsItem>): (lines: seq<string>)
    ensures |lines| == |items|
    ensures forall k {:trigger lines[k]} :: 0 <= k < |items| ==> lines[k] == PromptLine(items[k])
  {
    if items == [] then [] else [PromptLine(items[0])] + PromptLines(items[1..])
  }

  /** The instruction text followed by the item lines joined with newlines. */
  function BuildPrompt(items: seq<NewsItem>): (prompt: string)
    ensures |PromptPrefix| <= |prompt|
    ensures prompt[..|PromptPrefix|] == PromptPrefix
    ensures prompt[|PromptPrefix|..] == Join("\n", PromptLines(items))
  {
    PromptPrefix + Join("\n", PromptLines(items))
  }

  /** `call_deepseek_summary`. Total: every path yields text. */
  function CallSummary(apiKey: Option<string>, items: seq<NewsItem>, post: ChatRequest -> Outcome): (call: SummaryCall)
    ensures call.request.None? <==> KeyMissing(apiKey)
    ensures KeyMissing(apiKey) ==> call.narrative == MissingKeyNotice
    ensures !KeyMissing(apiKey) ==>
      call.request == Some(ChatRequest(Endpoint, ModelName, apiKey.value, BuildPrompt(items)))
    ensures call.request.Some? ==>
      match post(call.request.value)
      case Ok(content) => call.narrative == content
      case Err(reason) => call.narrative == FailurePrefix + reason
  {
    if KeyMissing(apiKey) then
      SummaryCall(None, MissingKeyNotice)
    else
      var request := ChatRequest(Endpoint, ModelName, apiKey.value, BuildPrompt(items));
      var narrative :=
        match post(request)
        case Ok(content) => content
        case Err(reason) => FailurePrefix + reason;
      SummaryCall(Some(request), narrative)
  }

  /** The prompt is the instruction text and then exactly one line per item,
      in item order: split after the instruction text at newlines, it gives
      back `source：title` for each item (as long as no source or title
      itself holds a newline, which would start a line of its own). */
  lemma {:induction false} PromptHasOneLinePerItem(items: seq<NewsItem>)
    requires |items| >= 1
    requires forall k :: 0 <= k < |items| ==> '\n' !in items[k].source && '\n' !in items[k].title
    ensures BuildPrompt(items)[..|PromptPrefix|] == PromptPrefix
    ensures Split(BuildPrompt(items)[|PromptPrefix|..], '\n') == PromptLines(items)
  {
    var lines := PromptLines(items);
    forall k | 0 <= k < |lines| ensures '\n' !in lines[k] {
      assert lines[k] == items[k].source + "：" + items[k].title;
    }
    assert BuildPrompt(items)[|PromptPrefix|..] == Join("\n", lines);
    assert "\n" == ['\n'];
    SplitJoin(lines, '\n');
  }

  /** Each item's line is in the prompt, at its offset after the
      instruction text. */
  lemma {:induction false} PromptLineAt(items: seq<NewsItem>, k: nat)
    requires k < |items|
    ensures OccursAt(BuildPrompt(items), PromptLine(items[k]), |PromptPrefix| + PartStart("\n", PromptLines(items), k))
  {
    PrefixedJoinPart(PromptPrefix, "\n", PromptLines(items), k);
  }

  /** Earlier items' lines come first in the prompt. */
  lemma {:induction false} PromptListsItemsInOrder(items: seq<NewsItem>, j: nat, k: nat)
    requires j < k < |items|
    ensures OccursAt(BuildPrompt(items), PromptLine(items[j]), |PromptPrefix| + PartStart("\n", PromptLines(items), j))
    ensures OccursAt(BuildPrompt(items), PromptLine(items[k]), |PromptPrefix| + PartStart("\n", PromptLines(items), k))
    ensures PartStart("\n", PromptLines(items), j) + |PromptLine(items[j])| < PartStart("\n", PromptLines(items), k)
  {
    PrefixedJoinParts(PromptPrefix, "\n", PromptLines(items), j, k);
  }

  /** Degrade, not fail: a failed request still yields a narrative, which
      begins with the failure notice and then carries the error text whole. */
  lemma {:induction false} FailureKeepsReason(apiKey: Option<string>, items: seq<NewsItem>, post: ChatRequest -> Outcome)
    requires !KeyMissing(apiKey)
    requires post(ChatRequest(Endpoint, ModelName, apiKey.value, BuildPrompt(items))).Err?
    ensures var call := CallSummary(apiKey, items, post);
      && call.request.Some?
      && call.narrative[..|FailurePrefix|] == FailurePrefix
      && call.narrative[|FailurePrefix|..] == post(call.request.value).reason
  {
  }

  /** Without a key the result is the fixed notice whatever the service
      would have answered: no request is made. */
  lemma {:induction false} MissingKeyNeedsNoService(apiKey: Option<string>, items: seq<NewsItem>, post1: ChatRequest -> Outcome, post2: ChatRequest -> Outcome)
    requires KeyMissing(apiKey)
    ensures CallSummary(apiKey, items, post1) == CallSummary(apiKey, items, post2) == SummaryCall(None, MissingKeyNotice)
  {
  }
}
