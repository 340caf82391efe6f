/** The report page (`build_html` in build_site.py without its I/O): a pure
    function of the items, the narrative and the timestamp text. The fixed
    HTML, CSS and chart-script text between the inserted values is the
    `Template` argument, and Python's `repr` of a label is the `strRepr`
    argument. */
module Render {
  import opened Text
  import opened News

  /** The fixed text of the page, in the order it surrounds the inserted
      values: timestamp, news panel, narrative, word cloud, chart labels,
      chart scores. */
  datatype Template = Template(
    head: string,
    beforeNews: string,
    beforeNarrative: string,
    beforeCloud: string,
    beforeLabels: string,
    beforeScores: string,
    tail: string)

  /** The three parallel series the page is built from. */
  datatype ChartSeries = ChartSeries(labels: seq<string>, scores: seq<int>, titles: seq<string>)

  /** `labels`, `scores` and `titles`: one entry per item, in item order. */
  function Series(items: seq<NewsItem>): (s: ChartSeries)
    requires AllScored(items)
    ensures |s.labels| == |s.scores| == |s.titles| == |items|
    ensures forall k {:trigger s.labels[k]} :: 0 <= k < |items| ==> s.labels[k] == items[k].source
    ensures forall k {:trigger s.scores[k]} :: 0 <= k < |items| ==> s.scores[k] == items[k].score.value
    ensures forall k {:trigger s.titles[k]} :: 0 <= k < |items| ==> s.titles[k] == items[k].title
  {
    if items == [] then ChartSeries([], [], [])
    else
      var rest := Series(items[1..]);
      ChartSeries(
        [items[0].source] + rest.labels,
        [items[0].score.value] + rest.scores,
        [items[0].title] + rest.titles)
  }

  const TagOpen := "<div class=\"news-item\"><div><span class=\"tag\">"
  const LinkOpen := "</span><strong><a href=\""
  const LinkMid := "\" target=\"_blank\">"
  const SummaryOpen := "</a></strong></div><div style=\"margin-top:4px;font-size:14px;color:#9ca3af;\">"
  const BlockClose := "</div></div>"

  /** The news-panel entry for one item: its source tag, its title linked to
      its url, and its summary. */
  function NewsBlock(n: NewsItem): string
  {
    TagOpen + (n.source + (LinkOpen + (n.url + (LinkMid + (n.title + (SummaryOpen + (n.summary + BlockClose)))))))
  }

  /** Where each field sits inside its block. */
  lemma {:induction false} NewsBlockFields(n: NewsItem)
    ensures OccursAt(NewsBlock(n), n.source, |TagOpen|)
    ensures OccursAt(NewsBlock(n), n.url, |TagOpen| + |n.source| + |LinkOpen|)
    ensures OccursAt(NewsBlock(n), n.title, |TagOpen| + |n.source| + |LinkOpen| + |n.url| + |LinkMid|)
    ensures OccursAt(NewsBlock(n), n.summary,
      |TagOpen| + |n.source| + |LinkOpen| + |n.url| + |LinkMid| + |n.title| + |SummaryOpen|)
  {
    var r := SummaryOpen + (n.summary + BlockClose);
    NestedAt1(TagOpen, n.source, LinkOpen + (n.url + (LinkMid + (n.title + r))));
    NestedAt2(TagOpen, n.source, LinkOpen, n.url, LinkMid + (n.title + r));
    NestedAt3(TagOpen, n.source, LinkOpen, n.url, LinkMid, n.title, r);
    NestedAt4(TagOpen, n.source, LinkOpen, n.url, LinkMid, n.title, SummaryOpen, n.summary, BlockClose);
  }

  function NewsBlocks(items: seq<NewsItem>): (blocks: seq<string>)
    ensures |blocks| == |items|
    ensures forall k {:trigger blocks[k]} :: 0 <= k < |items| ==> blocks[k] == NewsBlock(items[k])
  {
    if items == [] then [] else [NewsBlock(items[0])] + NewsBlocks(items[1..])
  }

  /** The news panel: the blocks of all items, concatenated in order. */
  function NewsPanel(items: seq<NewsItem>): string
  {
    Join("", NewsBlocks(items))
  }

  /** The full-width colon that separates a title's lead-in from its topic. */
  const TopicSeparator: char := '：'

  /** `t.split("：")[-1][:6]`: the text after the title's last full-width
      colon, at most six characters of it. */
  function CloudFragment(title: string): (fragment: string)
  {
    var topic := LastPiece(title, TopicSeparator);
    topic[..if |topic| < 6 then |topic| else 6]
  }

  /** The word-cloud font size for position `i`. */
  function FontSize(i: nat): nat
  {
    20 + i * 4
  }

  const SpanOpen := "<span style=\"font-size:"
  const SpanStyle := "px;margin-right:10px;color:#bfdbfe;\">"
  const SpanClose := "</span>"

  /** The word-cloud entry for the title at position `i`. */
  function CloudSpan(i: nat, title: string): string
  {
    SpanOpen + NatToString(FontSize(i)) + SpanStyle + CloudFragment(title) + SpanClose
  }

  function CloudSpans(titles: seq<string>, first: nat): (spans: seq<string>)
    ensures |spans| == |titles|
    ensures forall k {:trigger spans[k]} :: 0 <= k < |titles| ==> spans[k] == CloudSpan(first + k, titles[k])
  {
    if titles == [] then [] else [CloudSpan(first, titles[0])] + CloudSpans(titles[1..], first + 1)
  }

  /** The word cloud: one span per title, in order, numbered from 0. */
  function WordCloud(titles: seq<string>): string
  {
    Join("", CloudSpans(titles, 0))
  }

  /** Python's `str(list)`: the element texts, comma-separated, in brackets. */
  function ListRepr(elements: seq<string>): string
  {
    "[" + Join(", ", elements) + "]"
  }

  /** Entry `k` of a list literal is found after the bracket, in order. */
  lemma {:induction false} ListReprEntry(elements: seq<string>, k: nat)
    requires k < |elements|
    ensures OccursAt(ListRepr(elements), elements[k], 1 + PartStart(", ", elements, k))
  {
    OccursBetween("[", Join(", ", elements), "]");
    JoinPartWithin(ListRepr(elements), 1, ", ", elements, k);
  }

  function MapRepr(xs: seq<string>, strRepr: string -> string): (r: seq<string>)
    ensures |r| == |xs|
    ensures forall k {:trigger r[k]} :: 0 <= k < |xs| ==> r[k] == strRepr(xs[k])
  {
    if xs == [] then [] else [strRepr(xs[0])] + MapRepr(xs[1..], strRepr)
  }

  function IntsRepr(xs: seq<int>): (r: seq<string>)
    ensures |r| == |xs|
    ensures forall k {:trigger r[k]} :: 0 <= k < |xs| ==> r[k] == IntToString(xs[k])
  {
    if xs == [] then [] else [IntToString(xs[0])] + IntsRepr(xs[1..])
  }

  /** The page as its pieces in document order: the fixed template text
      interleaved with the inserted values (timestamp, news panel,
      narrative, word cloud, chart labels, chart scores). */
  function PageParts(t: Template, items: seq<NewsItem>, narrative: string, now: string, strRepr: string -> string): (parts: seq<string>)
    requires AllScored(items)
    ensures |parts| == 13
  {
    var series := Series(items);
    [ t.head, now,
      t.beforeNews, NewsPanel(items),
      t.beforeNarrative, narrative,
      t.beforeCloud, WordCloud(series.titles),
      t.beforeLabels, ListRepr(MapRepr(series.labels, strRepr)),
      t.beforeScores, ListRepr(IntsRepr(series.scores)),
      t.tail ]
  }

  /** `build_html` minus the file write: the page text. */
  function RenderPage(t: Template, items: seq<NewsItem>, narrative: string, now: string, strRepr: string -> string): string
    requires AllScored(items)
  {
    Join("", PageParts(t, items, narrative, now, strRepr))
  }

  /** Index in the page at which page piece `k` begins. */
  function PieceIndex(t: Template, items: seq<NewsItem>, narrative: string, now: string, strRepr: string -> string, k: nat): nat
    requires AllScored(items)
    requires k < 13
  {
    PartStart("", PageParts(t, items, narrative, now, strRepr), k)
  }

  /** Index in the page at which item `k`'s news block begins. */
  function BlockIndex(t: Template, items: seq<NewsItem>, narrative: string, now: string, strRepr: string -> string, k: nat): nat
    requires AllScored(items)
    requires k < |items|
  {
    PieceIndex(t, items, narrative, now, strRepr, 3) + PartStart("", NewsBlocks(items), k)
  }

  /** The timestamp, the news panel and the narrative appear in the page
      verbatim, in that order. */
  lemma {:induction false} PageShowsTimestampAndNarrative(t: Template, items: seq<NewsItem>, narrative: string, now: string, strRepr: string -> string)
    requires AllScored(items)
    ensures OccursAt(RenderPage(t, items, narrative, now, strRepr), now, PieceIndex(t, items, narrative, now, strRepr, 1))
    ensures OccursAt(RenderPage(t, items, narrative, now, strRepr), NewsPanel(items), PieceIndex(t, items, narrative, now, strRepr, 3))
    ensures OccursAt(RenderPage(t, items, narrative, now, strRepr), narrative, PieceIndex(t, items, narrative, now, strRepr, 5))
    ensures PieceIndex(t, items, narrative, now, strRepr, 1) + |now| <= PieceIndex(t, items, narrative, now, strRepr, 3)
    ensures PieceIndex(t, items, narrative, now, strRepr, 3) + |NewsPanel(items)| <= PieceIndex(t, items, narrative, now, strRepr, 5)
  {
    var parts := PageParts(t, items, narrative, now, strRepr);
    JoinPartAt("", parts, 1);
    JoinPartAt("", parts, 3);
    JoinPartAt("", parts, 5);
    PartsInOrder("", parts, 1, 3);
    PartsInOrder("", parts, 3, 5);
  }

  /** The news panel is piece 3 of the page. A smaller statement than
      `PageShowsTimestampAndNarrative`, so that the block lemmas below stay
      cheap to check. */
  lemma {:induction false} PageShowsPanel(t: Template, items: seq<NewsItem>, narrative: string, now: string, strRepr: string -> string)
    requires AllScored(items)
    ensures OccursAt(RenderPage(t, items, narrative, now, strRepr), Join("", NewsBlocks(items)), PieceIndex(t, items, narrative, now, strRepr, 3))
  {
    JoinPartAt("", PageParts(t, items, narrative, now, strRepr), 3);
  }

  /** Item `k`'s news block is in the page where `BlockIndex` says. */
  lemma {:induction false} PageShowsBlock(t: Template, items: seq<NewsItem>, narrative: string, now: string, strRepr: string -> string, k: nat)
    requires AllScored(items)
    requires k < |items|
    ensures OccursAt(RenderPage(t, items, narrative, now, strRepr), NewsBlock(items[k]), BlockIndex(t, items, narrative, now, strRepr, k))
  {
    PageShowsPanel(t, items, narrative, now, strRepr);
    JoinPartWithin(RenderPage(t, items, narrative, now, strRepr), PieceIndex(t, items, narrative, now, strRepr, 3),
      "", NewsBlocks(items), k);
  }

  /** The news panel shows one block per item, in item order: each block is
      found where `BlockIndex` says, and a block ends before any later one
      begins. */
  lemma {:induction false} PageShowsBlocksInOrder(t: Template, items: seq<NewsItem>, narrative: string, now: string, strRepr: string -> string, j: nat, k: nat)
    requires AllScored(items)
    requires j < k < |items|
    ensures OccursAt(RenderPage(t, items, narrative, now, strRepr), NewsBlock(items[j]), BlockIndex(t, items, narrative, now, strRepr, j))
    ensures OccursAt(RenderPage(t, items, narrative, now, strRepr), NewsBlock(items[k]), BlockIndex(t, items, narrative, now, strRepr, k))
    ensures BlockIndex(t, items, narrative, now, strRepr, j) + |NewsBlock(items[j])| <= BlockIndex(t, items, narrative, now, strRepr, k)
  {
    PageShowsBlock(t, items, narrative, now, strRepr, j);
    PageShowsBlock(t, items, narrative, now, strRepr, k);
    PartsInOrder("", NewsBlocks(items), j, k);
  }

  /** The chart's labels literal lists the labels in order: its `k`-th
      entry is the repr of label `k`. */
  lemma {:induction false} ChartLabelsLiteral(labels: seq<string>, strRepr: string -> string, k: nat)
    requires k < |labels|
    ensures OccursAt(ListRepr(MapRepr(labels, strRepr)), strRepr(labels[k]),
      1 + PartStart(", ", MapRepr(labels, strRepr), k))
  {
    ListReprEntry(MapRepr(labels, strRepr), k);
  }

  /** The chart's scores literal lists the scores in order: its `k`-th entry
      is the decimal text of score `k`. */
  lemma {:induction false} ChartScoresLiteral(scores: seq<int>, k: nat)
    requires k < |scores|
    ensures OccursAt(ListRepr(IntsRepr(scores)), IntToString(scores[k]), 1 + PartStart(", ", IntsRepr(scores), k))
  {
    ListReprEntry(IntsRepr(scores), k);
  }

  /** The page carries both chart literals, labels before scores. */
  lemma {:induction false} PageShowsChartData(t: Template, items: seq<NewsItem>, narrative: string, now: string, strRepr: string -> string)
    requires AllScored(items)
    ensures OccursAt(RenderPage(t, items, narrative, now, strRepr), ListRepr(MapRepr(Series(items).labels, strRepr)),
      PieceIndex(t, items, narrative, now, strRepr, 9))
    ensures OccursAt(RenderPage(t, items, narrative, now, strRepr), ListRepr(IntsRepr(Series(items).scores)),
      PieceIndex(t, items, narrative, now, strRepr, 11))
    ensures PieceIndex(t, items, narrative, now, strRepr, 9) < PieceIndex(t, items, narrative, now, strRepr, 11)
  {
    var parts := PageParts(t, items, narrative, now, strRepr);
    JoinPartAt("", parts, 9);
    JoinPartAt("", parts, 11);
    PartsInOrder("", parts, 9, 11);
  }

  /** The word cloud, built from the titles series, sits between the
      narrative and the chart labels. */
  lemma {:induction false} PageShowsWordCloud(t: Template, items: seq<NewsItem>, narrative: string, now: string, strRepr: string -> string)
    requires AllScored(items)
    ensures OccursAt(RenderPage(t, items, narrative, now, strRepr), WordCloud(Series(items).titles),
      PieceIndex(t, items, narrative, now, strRepr, 7))
    ensures PieceIndex(t, items, narrative, now, strRepr, 5) + |narrative| <= PieceIndex(t, items, narrative, now, strRepr, 7)
    ensures PieceIndex(t, items, narrative, now, strRepr, 7) + |WordCloud(Series(items).titles)| <= PieceIndex(t, items, narrative, now, strRepr, 9)
  {
    var parts := PageParts(t, items, narrative, now, strRepr);
    assert parts[7] == WordCloud(Series(items).titles);
    JoinPartAt("", parts, 7);
    PartsInOrder("", parts, 5, 7);
    PartsInOrder("", parts, 7, 9);
  }

  /** The spans of the word cloud are piece 7 of the page. A smaller
      statement than `PageShowsWordCloud`, so that `PageShowsCloudSpan` stays
      cheap to check. */
  lemma {:induction false} PageShowsCloud(t: Template, items: seq<NewsItem>, narrative: string, now: string, strRepr: string -> string)
    requires AllScored(items)
    ensures OccursAt(RenderPage(t, items, narrative, now, strRepr), Join("", CloudSpans(Series(items).titles, 0)),
      PieceIndex(t, items, narrative, now, strRepr, 7))
  {
    var parts := PageParts(t, items, narrative, now, strRepr);
    assert parts[7] == Join("", CloudSpans(Series(items).titles, 0));
    JoinPartAt("", parts, 7);
  }

  /** Wherever a word cloud is found, each of its spans is too. */
  lemma {:induction false} CloudSpanWithin(page: string, i: int, titles: seq<string>, k: nat)
    requires OccursAt(page, Join("", CloudSpans(titles, 0)), i)
    requires k < |titles|
    ensures OccursAt(page, CloudSpan(k, titles[k]), i + PartStart("", CloudSpans(titles, 0), k))
  {
    JoinPartWithin(page, i, "", CloudSpans(titles, 0), k);
  }

  /** Item `k`'s word-cloud span sits in the page at its join offset after
      the start of the word cloud. */
  lemma {:induction false} PageShowsCloudSpan(t: Template, items: seq<NewsItem>, narrative: string, now: string, strRepr: string -> string, k: nat)
    requires AllScored(items)
    requires k < |items|
    ensures OccursAt(RenderPage(t, items, narrative, now, strRepr), CloudSpan(k, items[k].title),
      PieceIndex(t, items, narrative, now, strRepr, 7) + PartStart("", CloudSpans(Series(items).titles, 0), k))
  {
    var titles := Series(items).titles;
    PageShowsCloud(t, items, narrative, now, strRepr);
    CloudSpanWithin(RenderPage(t, items, narrative, now, strRepr), PieceIndex(t, items, narrative, now, strRepr, 7), titles, k);
    assert titles[k] == items[k].title;
  }

  /** Wherever an item's block is, its four fields are too. */
  lemma {:induction false} BlockFieldsWithin(page: string, b: int, n: NewsItem)
    requires OccursAt(page, NewsBlock(n), b)
    ensures Contains(page, n.source) && Contains(page, n.url)
    ensures Contains(page, n.title) && Contains(page, n.summary)
  {
    NewsBlockFields(n);
    var i1 := |TagOpen|;
    var i2 := i1 + |n.source| + |LinkOpen|;
    var i3 := i2 + |n.url| + |LinkMid|;
    var i4 := i3 + |n.title| + |SummaryOpen|;
    OccursWithin(page, NewsBlock(n), n.source, b, i1);
    OccursWithin(page, NewsBlock(n), n.url, b, i2);
    OccursWithin(page, NewsBlock(n), n.title, b, i3);
    OccursWithin(page, NewsBlock(n), n.summary, b, i4);
  }

  /** Every item's source, url, title and summary appear in the page; in
      particular no title is lost. */
  lemma {:induction false} PageShowsItemFields(t: Template, items: seq<NewsItem>, narrative: string, now: string, strRepr: string -> string, k: nat)
    requires AllScored(items)
    requires k < |items|
    ensures Contains(RenderPage(t, items, narrative, now, strRepr), items[k].source)
    ensures Contains(RenderPage(t, items, narrative, now, strRepr), items[k].url)
    ensures Contains(RenderPage(t, items, narrative, now, strRepr), items[k].title)
    ensures Contains(RenderPage(t, items, narrative, now, strRepr), items[k].summary)
  {
    PageShowsBlock(t, items, narrative, now, strRepr, k);
    BlockFieldsWithin(RenderPage(t, items, narrative, now, strRepr), BlockIndex(t, items, narrative, now, strRepr, k), items[k]);
  }

  /** The word-cloud fragment of a title is the text after its last
      full-width colon (the whole title when it has none), cut to at most six
      characters. */
  lemma {:induction false} CloudFragmentIsTopicPrefix(title: string)
    ensures var topic := LastPiece(title, TopicSeparator);
      && |CloudFragment(title)| == (if |topic| < 6 then |topic| else 6)
      && CloudFragment(title) == topic[..|CloudFragment(title)|]
      && |topic| <= |title|
      && title[|title| - |topic|..] == topic
      && TopicSeparator !in topic
      && (|topic| < |title| ==> title[|title| - |topic| - 1] == TopicSeparator)
      && (TopicSeparator !in title ==> topic == title)
  {
    LastPieceAfterLastSeparator(title, TopicSeparator);
    var topic := LastPiece(title, TopicSeparator);
    if |topic| < |title| {
      var i := |title| - |topic| - 1;
      assert title[i] == TopicSeparator;
      assert TopicSeparator in title;
    } else {
      assert title == title[0..];
    }
  }

  /** Every title's span is in the word cloud, at its join offset. */
  lemma {:induction false} CloudSpanAt(titles: seq<string>, k: nat)
    requires k < |titles|
    ensures OccursAt(WordCloud(titles), CloudSpan(k, titles[k]), PartStart("", CloudSpans(titles, 0), k))
  {
    JoinPartAt("", CloudSpans(titles, 0), k);
  }

  /** A word-cloud entry shows its font size as decimal digits that read
      back as `20 + 4*i`, and then the title's fragment. */
  lemma {:induction false} CloudSpanShows(i: nat, title: string)
    ensures OccursAt(CloudSpan(i, title), NatToString(FontSize(i)), |SpanOpen|)
    ensures OccursAt(CloudSpan(i, title), CloudFragment(title), |SpanOpen| + |NatToString(FontSize(i))| + |SpanStyle|)
    ensures DigitsValue(NatToString(FontSize(i))) == 20 + 4 * i
  {
    var digits := NatToString(FontSize(i));
    var fragment := CloudFragment(title);
    OccursBetween(SpanOpen, digits, SpanStyle + fragment + SpanClose);
    OccursBetween(SpanOpen + digits + SpanStyle, fragment, SpanClose);
    NatToStringRoundTrip(FontSize(i));
  }

  /** The word cloud holds one entry per title, in title order, and a later
      entry has a larger font. */
  lemma {:induction false} WordCloudEntries(titles: seq<string>, j: nat, k: nat)
    requires j < k < |titles|
    ensures OccursAt(WordCloud(titles), CloudSpan(j, titles[j]), PartStart("", CloudSpans(titles, 0), j))
    ensures OccursAt(WordCloud(titles), CloudSpan(k, titles[k]), PartStart("", CloudSpans(titles, 0), k))
    ensures PartStart("", CloudSpans(titles, 0), j) + |CloudSpan(j, titles[j])| <= PartStart("", CloudSpans(titles, 0), k)
    ensures FontSize(j) < FontSize(k)
  {
    var spans := CloudSpans(titles, 0);
    JoinPartAt("", spans, j);
    JoinPartAt("", spans, k);
    PartsInOrder("", spans, j, k);
  }
}
