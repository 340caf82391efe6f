/** The news items of the report and the fixed sample set they come from
    (`get_mock_news` in build_site.py). */
module News {

  datatype Option<T> = None | Some(value: T)

  /** One news record. The source keeps these as dictionaries; `score` is a
      key that is added after the record is built, so it may be absent. */
  datatype NewsItem = NewsItem(
    title: string,
    summary: string,
    source: string,
    url: string,
    score: Option<int>)

  /** Every item carries a score (the renderer looks the key up unguarded). */
  ghost predicate AllScored(items: seq<NewsItem>)
  {
    forall k :: 0 <= k < |items| ==> items[k].score.Some?
  }

  /** The three hard-coded sample records, before any score is attached. */
  function SampleRecords(): (records: seq<NewsItem>)
    ensures |records| == 3
    ensures forall k :: 0 <= k < |records| ==> records[k].score == None
  {
    [
      NewsItem(
        "大模型应用加速落地，AI 工具进入日常工作",
        "越来越多公司在内部接入 AI 助手，用来写文案、写代码、做报表。",
        "知乎热榜",
        "https://www.example.com/ai-tools",
        None),
      NewsItem(
        "互联网公司持续裁员与重组，重点投入 AI 方向",
        "多家厂商宣布组织调整，将更多资源投入到大模型与搜索增强上。",
        "微博热搜",
        "https://www.example.com/reorg",
        None),
      NewsItem(
        "短视频与直播电商依然火爆，但监管持续收紧",
        "平台在加强内容审核，鼓励更加“长效价值”的内容创作。",
        "B 站热门",
        "https://www.example.com/shortvideo",
        None)
    ]
  }

  /** The synthetic heat score the sample generator gives position `i`. */
  function MockScore(i: int): int
  {
    80 - i * 10
  }

  /** `get_mock_news`: builds the sample records, then walks them in order
      and attaches score `80 - 10*i` to the record at position `i`, in place.
      The result keeps the records and their order, changes no other field,
      and its scores fall strictly from 80. */
  method GetMockNews() returns (news: seq<NewsItem>)
    ensures |news| == |SampleRecords()| == 3
    ensures forall i :: 0 <= i < |news| ==>
      && news[i].title == SampleRecords()[i].title
      && news[i].summary == SampleRecords()[i].summary
      && news[i].source == SampleRecords()[i].source
      && news[i].url == SampleRecords()[i].url
      && news[i].score == Some(80 - 10 * i)
    ensures AllScored(news)
    ensures news[0].score == Some(80)
    ensures forall i, j :: 0 <= i < j < |news| ==> news[i].score.value > news[j].score.value
  {
    var records := SampleRecords();
    var a := new NewsItem[|records|](i requires 0 <= i < |records| => records[i]);
    for i := 0 to a.Length
      invariant forall k :: 0 <= k < i ==> a[k] == records[k].(score := Some(MockScore(k)))
      invariant forall k :: i <= k < a.Length ==> a[k] == records[k]
    {
      a[i] := a[i].(score := Some(MockScore(i)));
    }
    news := a[..];
  }
}
