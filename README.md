# YouTube GEN AXE market scoring, modelled in Dafny

This project models the core of the YouTube GEN AXE dashboard: the market-data scoring
pipeline of `get_market_data`, the session state of the dashboard, and the rule that picks
the text handed to the AI tools.

- **Scoring** (`metrics.dfy`, `market.dfy`). The platform's answer is the input: a sequence of
  `RawItem`s, one per item of the `videos().list` response. `Metrics.DeriveRecord` is the body
  of the loop. It turns one item into one `Record`:
  - a missing count becomes 0;
  - engagement is 0 without views;
  - earnings are views / 1000 · RPM;
  - raw virality is ½·views + 50·likes + 100·comments;
  - the link is the watch URL followed by the id;
  - the date is the first 10 characters of `publishedAt`;
  - the thumbnail is `maxres`, or `high` when there is no `maxres`;
  - a duration that is missing or does not parse becomes 0.

  `Market.GetMarketData` is the loop itself, written as a `while` loop that appends to the
  rows and to the tag pool. It is proved equal to the specification function
  `Market.MarketData`, which is built from `Records`, `TagPool` and `ViralityScores`. Lemmas
  then state the promised properties of `MarketData`.
- **Session** (`session.dfy`). The class `SessionState` holds `search_done`, `df`, `all_tags`
  and `selected_video_id`. Three handlers change it: the search button, the row click, and
  loading the selected row. Two pure functions model the conditions the search button checks
  in each edition.
- **Prompt context** (`prompts.dfy`). The forensic-audit context uses the transcript cut to
  8000 characters, or falls back to `Title: … Tags: …`. The title generator's input is the
  transcript, or `Title: <title>`, cut to 4000 characters. The Vertex edition's studio tabs
  use the same text cut to 6000 characters.

The three source files repeat one pipeline. `app.py` and `app1.py` use the Gemini API and
`app2.py` uses Vertex AI. Their `get_market_data` bodies differ only in where the `'Tags'`
key sits in the row dictionary, so the model has a single pipeline. The rows below cite the
three files in turn. `ai_forensic_audit` in `app1.py:191-203` is the same as in
`app.py:191-203`.

Three inputs that the code reads from outside are parameters of the model:
- the RPM slider value (`rpm`);
- the result of `isodate.parse_duration(…).total_seconds()`, which is the parameter
  `parse: string -> Option<real>`, where `None` means the call raised;
- the platform's answer, for the session (`fetched`, where `Failure` means the API call raised).

Choices and consequences of the code that the model makes explicit:
- An absent API key or query is the empty string. Python treats `None` and `""` the same way
  in these tests.
- When every raw virality is 0, pandas computes 0/0 and the score column is NaN. The model
  represents this with `Score.NaN`; it does not exclude the case.
- `thumbnails.get('maxres', thumbnails['high'])` evaluates its default first. A missing
  `high` thumbnail therefore raises even when `maxres` is present, and the whole fetch fails.
  `DeriveRecord` returns a `Result` for this reason.
- For 1000 views, 100 likes and 10 comments, `views * 0.5` gives raw virality
  500 + 5000 + 1000 = 6500. `Market.TwoVideoExample` proves this, together with a second
  score of 750/6500·10 for 500 views and 10 likes.
- Ties at the maximum all score 10. The model proves that every score is in [0, 10] and
  that at least one is 10.
- An empty answer gives `pd.DataFrame([])`, which has no columns, so the model's empty table
  has no score column. The aggregate display, which is not modelled, would read a column
  that does not exist.

## Model

| member | source | states |
|---|---|---|
| `Metrics.Engagement` | app2.py:175 | 0 when views = 0; otherwise engagement · views = (likes + comments) · 100; never negative |
| `Metrics.Earnings` | app.py:171 | earnings · 1000 = views · rpm; non-negative when rpm ≥ 0 |
| `Metrics.RawVirality` | app1.py:172 | non-negative; 0 exactly when views, likes and comments are all 0; at least 100·comments, 50·likes and views/2 |
| `Metrics.WatchLink` | app2.py:178 | the link is the watch base URL followed by exactly the id |
| `Metrics.WatchLinkInjective` | app1.py:173 | two ids with the same link are equal |
| `Metrics.DurationMinutes` | app2.py:160-163 | a missing or unparsable duration gives 0; otherwise minutes · 60 = parsed seconds |
| `Metrics.ThumbnailUrl` | app.py:161 | fails exactly when "high" is missing (even with "maxres" present); otherwise the maxres URL when present, else the high URL |
| `Metrics.DeriveRecord` | app2.py:152-181 | one item becomes a record exactly when it has a "high" thumbnail; the error names the item and the key; the record keeps the item's id and title |
| `Metrics.CountsDefaultToZero` | app2.py:154-156 | a missing view/like/comment count is 0 in the record, a present one is kept |
| `Metrics.RecordEngagement` | app.py:170 | a record's engagement is 0 without views, else (likes + comments) / views · 100 |
| `Metrics.RecordEarningsAndVirality` | app1.py:171-172 | a record's earnings are views/1000 · rpm (non-negative for rpm ≥ 0); 2 · raw virality = views + 100·likes + 200·comments, and raw ≥ 0 |
| `Metrics.RecordDurationFallback` | app1.py:156-159 | a missing or unparsable duration still yields a record, with duration 0 |
| `Metrics.RecordPresentationFields` | app.py:163-176 | link = base + id, published = first 10 characters of publishedAt (at most 10), thumbnail maxres-else-high, tags = the item's list or [] |
| `Text.Prefix` | app2.py:179 | Python's `s[:n]`: length min(n, \|s\|) and a prefix of s |
| `Market.Records` | app2.py:150-181 | succeeds exactly when every item has a "high" thumbnail; then one record per item, in item order, each the derivation of its item |
| `Market.RecordsPrefixFailure` | app2.py:151-165 | once an item raises, the loop's result is that error whatever follows |
| `Market.RecordsFirstFailure` | app2.py:165 | a failing loop fails at the first item without "high", with that item's id |
| `Market.TagPoolAppend` | app2.py:157-158 | the pool of a concatenation of item lists is the concatenation of their pools |
| `Market.TagPoolMembership` | app1.py:153-154 | a tag is in the pool exactly when some item carries it |
| `Market.TagPoolLength` | app.py:153-154 | the pool's length is the total number of tags over all items (duplicates kept) |
| `Market.ArgMaxRaw` | app.py:181 | a position whose raw virality is at least every other row's |
| `Market.MaxRaw` | app2.py:185 | at least every raw virality and equal to one of them |
| `Market.ViralityScores` | app2.py:183-185 | no score column exactly for the empty table; otherwise one score per row |
| `Market.ScoresWithinRange` | app2.py:184-185 | with a positive maximum and non-negative raw values, every score is a number in [0, 10] and some row scores exactly 10 |
| `Market.ScoresPreserveRanking` | app.py:179-181 | raw_i ≤ raw_j exactly when score_i ≤ score_j |
| `Market.ScoresProportional` | app2.py:185 | with a positive maximum, each cell is a number with score · max = raw · 10, i.e. raw / max · 10 |
| `Market.ScoresAllNaN` | app1.py:179-181 | a maximum of 0 makes every score NaN |
| `Market.GetMarketData` | app2.py:146-186 | the loop and the column write return exactly `MarketData`: rows, score column and tag pool, or the first error |
| `Market.MarketDataAllOrNothing` | app.py:147-161 | the fetch returns a table exactly when every item has a "high" thumbnail |
| `Market.MarketDataRows` | app2.py:167-180 | when every item has a "high" thumbnail: one record per item, in order, with its id, title, link, date, tags and defaulted counts |
| `Market.MarketDataTags` | app.py:146-154 | when the fetch succeeds, the returned tag list has every tag of every item, and only those, with its length the total tag count |
| `Market.MarketDataEmpty` | app1.py:179-182 | an empty answer gives an empty table without a score column and no tags |
| `Market.MarketDataScores` | app.py:179-181 | when the fetch succeeds and some item has a view, like or comment, every score is in [0, 10] and some score is 10 |
| `Market.MarketDataScoresNaN` | app2.py:183-185 | when the fetch succeeds on a non-empty answer and no item has any view, like or comment, every score is NaN |
| `Market.TwoVideoExample` | app.py:170-172 | 1000/100/10 and 500/10/0 views/likes/comments at RPM 3: engagement 11 and 2, earnings 3 and 1.5, raw 6500 and 750, scores 10 and 750/6500·10 |
| `Prompts.TagListRepr` | app.py:200 | Python's rendering of the tag list: bracketed, and "[]" exactly for no tags |
| `Prompts.QuotedTags` | app1.py:200 | the quoted tag list is empty exactly when there are no tags |
| `Prompts.QuotedTagsAppend` | app.py:200 | a further tag is appended as `, 't'`, so tags appear quoted, in order, separated by ", " |
| `Prompts.QuotedTagsSingle` | app1.py:200 | one tag renders as `'t'`, and its list as `['t']` |
| `Prompts.ForensicContext` | app.py:195-200 | with a non-empty transcript: source "Full Transcript" and its first min(8000, len) characters; otherwise "Title: {title}. Tags: {tags}"; never empty |
| `Prompts.TranscriptOrTitle` | app.py:343 | the transcript when it is non-empty, otherwise "Title: " + title; never empty |
| `Prompts.TitleGeneratorInput` | app.py:208 | at most 4000 characters; the transcript's prefix of min(4000, len) characters; without a transcript it starts with "Title: " and is "Title: " + title when that fits |
| `Prompts.StudioInput` | app2.py:313 | the same with a budget of 6000 characters |
| `Prompts.TitleInputWithinForensicContext` | app.py:195-208 | for one transcript, the title generator's text is a prefix of the forensic context |
| `Session.VertexSearchGate` | app2.py:233-247 | proceeds exactly with a key, a query and an AI account; reports a missing key first, then an offline AI account, then a missing query |
| `Session.GeminiSearchGate` | app.py:247-257 | proceeds exactly with a key and a query; otherwise "keys or query missing" |
| `Session.FirstRowWithId` | app.py:302 | the first row carrying the id, or none exactly when no row does |
| `Session.SessionState.constructor` | app.py:97-100 | a new session has not searched, has an empty table and tag pool, and selects nothing |
| `Session.SessionState.AnalyzeMarket` | app2.py:233-241 | a refused or raising search changes nothing; a successful one replaces table and tags, sets search_done and clears the selection |
| `Session.SessionState.SelectRow` | app.py:292-294 | after a search, a row click selects that row's video id; otherwise the selection is kept |
| `Session.SessionState.LoadSelected` | app.py:299-305 | a selection found in the table yields its first row; one not found is reset to None; a selection that names a row is never reset |
| `Session.SearchClearsSelection` | app2.py:236-239 | selecting a row and then searching again leaves nothing selected |

## Left out

- The platform calls `build`, `search().list` and `videos().list` (app2.py:144-148) are
  network I/O. The model takes the list of returned items as its input. It does not model
  the `.get('items', [])` of a response, the joining of the ids, or the `country_code`
  region filter.
- `st.cache_data` memoisation is not modelled. Its key leaves out the globals `country_code`
  and `rpm`, which the function reads. The model passes `rpm` explicitly.
- `int(...)` on the API's count strings is not modelled: counts arrive as `Option<nat>`. A
  count string that is not a number would raise and abort the fetch, like any other `Failure`.
- `round(..., 2)` on engagement, earnings and duration is not modelled, nor is floating
  point in general. All formulas are exact `real` values before rounding.
- The parsing inside `isodate` is not modelled. It is the opaque parameter `parse`.
- The KeyErrors of fields the API always returns (`statistics`, `snippet`, `contentDetails`,
  `title`, `publishedAt`, `id`, and the `url` of the chosen thumbnail entry) are not modelled:
  `RawItem.thumbnails` maps a resolution name straight to its URL. Only the missing `high`
  thumbnail is.
- `Prompts.TagListRepr`: renders tags as `'t'` and does not model how Python's `repr`
  escapes a tag that contains quotes or backslashes.
- The transcript lookup, the Gemini and Vertex calls, `requests.get` and PIL decoding are
  left out, and so are the prompt templates around the contexts. These are foreign services
  whose output is free-form.
- The Streamlit UI is left out: CSS, sidebar, dialogs, HUD metrics, rendering and `st.stop()`.
  Row clicks are modelled only through `SelectRow`, and its index is required to be a
  displayed row.
- `app2.py` never initialises `all_tags` in the session (app2.py:100-102). The model starts
  it as `[]`. Nothing reads it before the first search.
- `app1.py` is cut off at line 232, so its UI handlers are not part of this model.
