# TrendRadar site builder, modelled in Dafny

TrendRadar's `build_site.py` makes a one-page daily trend report in three
stages:

- it acquires a list of news items (a fixed sample set whose heat scores are
  attached in place: 80, 70, 60);
- it asks a chat-completion service (DeepSeek) for a short "today's trend
  reading" narrative about their titles;
- it renders one HTML page. The page has a news panel, the narrative, a bar
  chart of scores per source, and a word cloud of title fragments.

This project models those stages:

- `News` holds the news record and the sample generator. The generator is an
  imperative method that scores the records in place in an array.
- `Summary` holds the narrative call. This covers the missing-key path, the
  prompt, the request that would be sent, and the collapse of every failure
  into text.
- `Render` holds the page as a pure function of the items, the narrative and
  the timestamp text. This covers the chart series, the news blocks, the word
  cloud and the chart literals.
- `Pipeline` holds the run: acquire, then summarise, then render.
- `Text` holds the string operations the source relies on: Python's
  `str.join`, `str.split` on one character, and decimal `str(n)`.

Every operation except rendering is total: without a key or with a failing
service, the narrative is still text. Rendering needs every item scored
(`AllScored`).

Behaviour of the code that the model keeps as written:

- **Word cloud size.** Font size grows with position (`20 + 4*i`), so later
  word-cloud entries are larger.
- **Links.** Every title is wrapped in `<a href="{url}">`, even when the url
  is empty.
- **Scores.** Rendering needs every item to carry a score (`AllScored`): the
  code looks `n["score"]` up unguarded.
- **Failures.** Failures are turned into text inside `call_deepseek_summary`
  (`CallSummary`), before rendering.
- **Separator.** Prompt lines and word-cloud splitting use the full-width
  colon `：`.

## Model

| member | source | states |
|---|---|---|
| News.SampleRecords | build_site.py:13-32 | exactly three sample records, none of them scored yet |
| News.MockScore | build_site.py:36 | the score the sample generator gives position `i`: `80 - i*10` (its use is stated by `GetMockNews`) |
| News.GetMockNews | build_site.py:9-37 | three records in the sample order with title, summary, source and url untouched; record `i` gets score `80 - 10*i`, so every record is scored, the first scores 80 and the scores fall strictly (loop invariants over the array updated in place) |
| Summary.CallSummary | build_site.py:40-71 | no request is made exactly when the key is unset or empty, and the result is then the fixed notice. Otherwise the one request goes to the DeepSeek endpoint with model `deepseek-chat`, the key, and the prompt. A successful reply's content is returned as is; any failure returns `调用 DeepSeek 失败：` followed by the error text |
| Summary.KeyMissing | build_site.py:45 | Python's `not api_key`: the key is unset or empty (it decides the notice path of `CallSummary`) |
| Summary.PromptLine | build_site.py:48 | an item's prompt line: the source fills the first `|source|` characters, then `：`, then the title |
| Summary.PromptLines | build_site.py:48 | one `source：title` line per item, in item order |
| Summary.BuildPrompt | build_site.py:48-54 | the prompt is the fixed instruction text followed by the item lines joined with newlines |
| Summary.PromptLineAt | build_site.py:48-54 | every item's line is in the prompt, at its join offset after the instruction text |
| Summary.PromptHasOneLinePerItem | build_site.py:48-54 | the prompt starts with the fixed instruction text. Split at newlines, the remainder gives back exactly the item lines in order |
| Summary.PromptListsItemsInOrder | build_site.py:48-54 | of two items, the earlier item's line ends before the later one's begins, each at its join offset |
| Summary.FailureKeepsReason | build_site.py:66-71 | a failed request still yields a narrative: the failure prefix followed by the whole error text |
| Summary.MissingKeyNeedsNoService | build_site.py:44-46 | without a key the result is the notice, whatever the service would answer |
| Render.Series | build_site.py:78-80 | the labels, scores and titles series have one entry per item, in item order, and each entry is that item's source, score or title |
| Render.NewsBlock | build_site.py:143-146 | one item's block markup (what it shows and where is stated by `NewsBlockFields`) |
| Render.NewsBlocks | build_site.py:142-148 | one news block per item, in item order |
| Render.NewsPanel | build_site.py:142-148 | the blocks of all items concatenated in order (stated by `PageShowsBlocksInOrder`) |
| Render.NewsBlockFields | build_site.py:143-146 | a block shows the source tag, then the url, then the title, then the summary, at fixed offsets |
| Render.RenderPage | build_site.py:74-199 | the page text of `build_html`: template text and inserted values in document order (what it shows is stated by the `PageShows` lemmas) |
| Render.PageShowsTimestampAndNarrative | build_site.py:137-155 | the page holds the timestamp, then the news panel, then the narrative verbatim, in that order |
| Render.PageShowsPanel | build_site.py:140-149 | the page holds the concatenated news blocks |
| Render.PageShowsBlock | build_site.py:142-148 | item `k`'s block is in the page at its computed index |
| Render.PageShowsBlocksInOrder | build_site.py:142-148 | the blocks appear in item order without overlap |
| Render.BlockFieldsWithin | build_site.py:143-146 | wherever a block occurs, its source, url, title and summary occur |
| Render.PageShowsItemFields | build_site.py:142-148 | every item's source, url, title and summary appear in the page |
| Render.PageShowsWordCloud | build_site.py:164-170 | the word cloud built from the titles series sits after the narrative and before the chart labels |
| Render.CloudSpans | build_site.py:166-169 | one word-cloud span per title, in order, numbered from 0 |
| Render.CloudFragment | build_site.py:167 | `t.split("：")[-1][:6]` (characterised by `CloudFragmentIsTopicPrefix`) |
| Render.FontSize | build_site.py:167 | the font size `20 + i*4` of the span at position `i` |
| Render.CloudSpan | build_site.py:167 | one word-cloud span (what it shows is stated by `CloudSpanShows`) |
| Render.WordCloud | build_site.py:166-169 | the spans of all titles concatenated in order (stated by `CloudSpanAt`, `WordCloudEntries` and `PageShowsCloudSpan`) |
| Render.CloudSpanAt | build_site.py:166-169 | every title's span, with font size `20 + 4*k`, is in the word cloud at its join offset |
| Render.PageShowsCloud | build_site.py:164-170 | the page holds the concatenated word-cloud spans |
| Render.PageShowsCloudSpan | build_site.py:166-169 | every item's word-cloud span, built from its title and position, is in the page at its offset within the word cloud |
| Render.CloudFragmentIsTopicPrefix | build_site.py:167 | the fragment is the first `min(6, length)` characters of the text after the title's last `：`. That text is a colon-free suffix of the title, preceded by `：` unless it is the whole title, and it is the whole title when the title has no colon |
| Render.CloudSpanShows | build_site.py:167 | a span shows decimal digits that read back as `20 + 4*i`, then the fragment |
| Render.WordCloudEntries | build_site.py:166-169 | the spans appear in title order, and a later title gets a strictly larger font size |
| Render.MapRepr | build_site.py:178 | the label literal's entries are the reprs of the labels, in order |
| Render.IntsRepr | build_site.py:181 | the score literal's entries are the decimal texts of the scores, in order |
| Render.ListRepr | build_site.py:178-181 | Python's printed list: `[`, the entries joined with `, `, `]` (stated by `ListReprEntry`) |
| Render.ListReprEntry | build_site.py:178-181 | entry `k` of a printed Python list sits after the bracket at its join offset |
| Render.ChartLabelsLiteral | build_site.py:178 | entry `k` of the labels literal is label `k`'s repr |
| Render.ChartScoresLiteral | build_site.py:181 | entry `k` of the scores literal is score `k` in decimal |
| Render.PageShowsChartData | build_site.py:173-196 | the chart script carries the labels literal and then the scores literal |
| Pipeline.RunPipeline | build_site.py:206-209 | one run gives the three sample records in order, each unchanged except for its score `80 - 10*i`, and the narrative `CallSummary` yields for them. The page is exactly the render of those items and that narrative, so everything the `Render` lemmas state about a page holds for it |
| Text.Join | build_site.py:53 | Python's `sep.join(parts)` (its parts and their places are stated by `JoinPartAt` and `PartsInOrder`) |
| Text.Split | build_site.py:167 | `str.split` on one character yields at least one piece |
| Text.JoinSplit | build_site.py:167 | joining the split pieces with the separator gives back the string, and no piece contains the separator |
| Text.SplitJoin | build_site.py:53 | splitting a newline-join of separator-free lines gives back the lines |
| Text.JoinPartAt | build_site.py:142-148 | every part of a `join` is found in it at its offset |
| Text.PartsInOrder | build_site.py:142-148 | the parts of a `join` appear in input order, separated |
| Text.LastPieceAfterLastSeparator | build_site.py:167 | `split(c)[-1]` is a separator-free suffix, preceded by the separator unless it is the whole string |
| Text.LastPiece | build_site.py:167 | Python's `s.split(c)[-1]` (characterised by `LastPieceAfterLastSeparator`) |
| Text.NatToString | build_site.py:167 | `str(n)` for a natural number is nonempty decimal digits without a leading zero |
| Text.NatToStringRoundTrip | build_site.py:167 | reading the digits of `str(n)` back gives `n` |
| Text.IntToString | build_site.py:181 | `str(i)` for an integer starts with `-` exactly when `i` is negative; the digits (after the `-`, if any) read back as the absolute value of `i` |

## Left out

- HTTP: the POST's headers, the 20-second timeout, and JSON decoding of the reply. The `post` argument of `CallSummary` maps the request that would be sent to its outcome. The `Authorization: Bearer` and `Content-Type` headers are not represented. The message role `user` is not represented: the request carries the endpoint, the model, the key and the prompt.
- The environment lookup of `DEEPSEEK_API_KEY` is the `apiKey` argument. `None` stands for unset.
- The clock: the page's timestamp is the `now` argument. Its `%Y-%m-%d %H:%M` format is not modelled.
- File output: creating `output/`, writing `output/index.html` and the confirmation message are not modelled. `RunPipeline` returns the page text instead.
- The page's fixed HTML, CSS and Chart.js text: this is the `Template` argument. Only the inserted values and their order are modelled.
- Python's `repr` of a label string: this is the `strRepr` argument. The brackets and `, ` separators of the printed list are modelled.
- Render.RenderPage: requires every item to have a score, where the source raises `KeyError` for an unscored item. The failing path is not modelled.
- Summary.PromptHasOneLinePerItem: holds only for at least one item and for sources and titles without newlines. With zero items the joined text is empty, and an embedded newline splits one item's line into two.
- Render.PageShowsWordCloud: states the word cloud's place in the page but not a strict gap before the chart labels, since an empty item list gives an empty cloud.
- The records are dictionaries in the source and values in array slots here. No other reference aliases them while scores are attached, so in-place update of a shared dictionary is not modelled.
- A live news source is not part of this model: the builder only has the sample generator.
