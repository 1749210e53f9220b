/**
 * `get_market_data` after the two platform calls: the loop that builds the rows and
 * the tag pool, and the virality score column written onto the finished table.
 */
module Market {
  import opened Wrappers
  import opened Text
  import opened Metrics

  /** A virality score: a number, or NaN where pandas divides 0 by a maximum of 0. */
  datatype Score = Finite(value: real) | NaN

  /** The market table: its rows and, when it has rows, the 'Virality Score' column. */
  datatype Table = Table(rows: seq<Record>, viralityScore: Option<seq<Score>>)

  /** What `get_market_data` returns: the table and the flattened tag list. */
  datatype MarketResult = MarketResult(df: Table, allTags: seq<string>)

  const ScoreScale := 10.0

  /** The rows of the first `|items|` iterations; the first item the loop cannot derive decides the error. */
  function Records(items: seq<RawItem>, rpm: real, parse: DurationParser): (r: Result<seq<Record>, Error>)
    ensures r.Success? <==> forall i :: 0 <= i < |items| ==> "high" in items[i].thumbnails
    ensures r.Success? ==> |r.value| == |items|
    ensures r.Success? ==> forall i :: 0 <= i < |items| ==> DeriveRecord(items[i], rpm, parse) == Success(r.value[i])
    decreases |items|
  {
    if |items| == 0 then Success([])
    else
      var init := Records(items[..|items| - 1], rpm, parse);
      if init.Failure? then init
      else
        var last := DeriveRecord(items[|items| - 1], rpm, parse);
        if last.Failure? then Failure(last.error)
        else Success(init.value + [last.value])
  }

  /** `all_tags`: every item's tags, in item order, duplicates kept, a missing list contributing nothing. */
  function TagPool(items: seq<RawItem>): seq<string>
    decreases |items|
  {
    if |items| == 0 then [] else TagPool(items[..|items| - 1]) + ItemTags(items[|items| - 1])
  }

  /** The position of a largest raw virality; the earliest one on ties. */
  function ArgMaxRaw(rows: seq<Record>): (k: nat)
    requires |rows| > 0
    ensures k < |rows|
    ensures forall i :: 0 <= i < |rows| ==> rows[i].viralityRaw <= rows[k].viralityRaw
    decreases |rows|
  {
    if |rows| == 1 then 0
    else
      var k := ArgMaxRaw(rows[..|rows| - 1]);
      if rows[|rows| - 1].viralityRaw > rows[k].viralityRaw then |rows| - 1 else k
  }

  /** `df['Virality Raw'].max()`. */
  function MaxRaw(rows: seq<Record>): (m: real)
    requires |rows| > 0
    ensures forall i :: 0 <= i < |rows| ==> rows[i].viralityRaw <= m
    ensures exists i :: 0 <= i < |rows| && rows[i].viralityRaw == m
  {
    rows[ArgMaxRaw(rows)].viralityRaw
  }

  /** One cell of the score column: raw / max * 10, NaN for 0 / 0. */
  function ScoreOf(raw: real, top: real): Score {
    if top == 0.0 then NaN else Finite(raw / top * ScoreScale)
  }

  /** The 'Virality Score' column; absent when the table is empty. */
  function ViralityScores(rows: seq<Record>): (col: Option<seq<Score>>)
    ensures col.None? <==> |rows| == 0
    ensures col.Some? ==> |col.value| == |rows|
  {
    if |rows| == 0 then None
    else
      var top := MaxRaw(rows);
      Some(seq(|rows|, i requires 0 <= i < |rows| => ScoreOf(rows[i].viralityRaw, top)))
  }

  /** Every raw virality of the rows is non-negative, as derived records guarantee. */
  ghost predicate NonNegativeRaw(rows: seq<Record>) {
    forall i :: 0 <= i < |rows| ==> rows[i].viralityRaw >= 0.0
  }

  /** The whole of `get_market_data` once the platform has answered with `items`. */
  function MarketData(items: seq<RawItem>, rpm: real, parse: DurationParser): Result<MarketResult, Error> {
    match Records(items, rpm, parse)
    case Failure(e) => Failure(e)
    case Success(rows) => Success(MarketResult(Table(rows, ViralityScores(rows)), TagPool(items)))
  }

  /** The tag pool of a concatenation is the concatenation of the tag pools. */
  lemma {:induction false} TagPoolAppend(a: seq<RawItem>, b: seq<RawItem>)
    ensures TagPool(a + b) == TagPool(a) + TagPool(b)
    decreases |b|
  {
    if |b| == 0 {
      assert a + b == a;
    } else {
      var b' := b[..|b| - 1];
      assert (a + b)[..|a + b| - 1] == a + b';
      assert (a + b)[|a + b| - 1] == b[|b| - 1];
      TagPoolAppend(a, b');
    }
  }

  /** A tag is in the pool exactly when some item carries it. */
  lemma {:induction false} TagPoolMembership(items: seq<RawItem>, t: string)
    ensures t in TagPool(items) <==> exists i :: 0 <= i < |items| && t in ItemTags(items[i])
    decreases |items|
  {
    if |items| > 0 {
      var init := items[..|items| - 1];
      TagPoolMembership(init, t);
      if t in TagPool(init) {
        var i :| 0 <= i < |init| && t in ItemTags(init[i]);
        assert items[i] == init[i];
      }
      if exists i :: 0 <= i < |items| && t in ItemTags(items[i]) {
        var i :| 0 <= i < |items| && t in ItemTags(items[i]);
        if i < |items| - 1 {
          assert init[i] == items[i];
        }
      }
    }
  }

  /** The pool's length is the total number of tags: nothing is merged or dropped. */
  lemma {:induction false} TagPoolLength(items: seq<RawItem>)
    ensures |TagPool(items)| == TagTotal(items)
    decreases |items|
  {
    if |items| > 0 {
      TagPoolLength(items[..|items| - 1]);
    }
  }

  function TagTotal(items: seq<RawItem>): nat
    decreases |items|
  {
    if |items| == 0 then 0 else TagTotal(items[..|items| - 1]) + |ItemTags(items[|items| - 1])|
  }

  /** When a prefix of the items already fails, the whole loop fails with the same error. */
  lemma {:induction false} RecordsPrefixFailure(items: seq<RawItem>, k: nat, rpm: real, parse: DurationParser)
    requires k <= |items|
    requires Records(items[..k], rpm, parse).Failure?
    ensures Records(items, rpm, parse) == Records(items[..k], rpm, parse)
    decreases |items| - k
  {
    if k < |items| {
      var n := |items|;
      assert items[..n][..n - 1] == items[..n - 1];
      if k < n - 1 {
        assert items[..n - 1][..k] == items[..k];
        RecordsPrefixFailure(items[..n - 1], k, rpm, parse);
      }
      assert items[..n] == items;
    } else {
      assert items[..k] == items;
    }
  }

  /** The loop raises at the first item whose thumbnails lack "high", and only there. */
  lemma {:induction false} RecordsFirstFailure(items: seq<RawItem>, rpm: real, parse: DurationParser)
    requires Records(items, rpm, parse).Failure?
    ensures exists k :: (0 <= k < |items| && "high" !in items[k].thumbnails
      && (forall j :: 0 <= j < k ==> "high" in items[j].thumbnails)
      && Records(items, rpm, parse).error == MissingKey(items[k].id, "high"))
    decreases |items|
  {
    var init := items[..|items| - 1];
    var last := |items| - 1;
    if Records(init, rpm, parse).Failure? {
      RecordsFirstFailure(init, rpm, parse);
      var k :| 0 <= k < |init| && "high" !in init[k].thumbnails
        && (forall j :: 0 <= j < k ==> "high" in init[j].thumbnails)
        && Records(init, rpm, parse).error == MissingKey(init[k].id, "high");
      assert items[k] == init[k];
      assert forall j :: 0 <= j < k ==> items[j] == init[j];
    } else {
      assert forall j :: 0 <= j < last ==> items[j] == init[j];
      assert "high" !in items[last].thumbnails;
    }
  }

  /** With at least one positive raw virality, every score lies in [0, 10] and the top row scores exactly 10. */
  lemma ScoresWithinRange(rows: seq<Record>)
    requires |rows| > 0 && NonNegativeRaw(rows)
    requires MaxRaw(rows) > 0.0
    ensures var col := ViralityScores(rows).value;
      && (forall i :: 0 <= i < |rows| ==> col[i].Finite? && 0.0 <= col[i].value <= ScoreScale)
      && (exists i :: 0 <= i < |rows| && col[i] == Finite(ScoreScale))
  {
    var top := MaxRaw(rows);
    var col := ViralityScores(rows).value;
    forall i | 0 <= i < |rows|
      ensures col[i].Finite? && 0.0 <= col[i].value <= ScoreScale
    {
      QuotientAtMostOne(rows[i].viralityRaw, top);
    }
    var k := ArgMaxRaw(rows);
    assert rows[k].viralityRaw == top;
    assert top / top == 1.0;
    assert col[k] == Finite(ScoreScale);
  }

  lemma QuotientAtMostOne(x: real, top: real)
    requires 0.0 <= x <= top && top > 0.0
    ensures 0.0 <= x / top * ScoreScale <= ScoreScale
  {
    assert x / top <= 1.0;
  }

  /** The score column keeps the order of raw virality, in both directions. */
  lemma ScoresPreserveRanking(rows: seq<Record>, i: nat, j: nat)
    requires i < |rows| && j < |rows|
    requires MaxRaw(rows) > 0.0
    ensures var col := ViralityScores(rows).value;
      rows[i].viralityRaw <= rows[j].viralityRaw <==> col[i].value <= col[j].value
  {
    var top := MaxRaw(rows);
    var a, b := rows[i].viralityRaw, rows[j].viralityRaw;
    assert a / top * ScoreScale <= b / top * ScoreScale <==> a <= b by {
      DivisionMonotone(a, b, top);
    }
  }

  lemma DivisionMonotone(a: real, b: real, top: real)
    requires top > 0.0
    ensures a / top * ScoreScale <= b / top * ScoreScale <==> a <= b
  {
    assert a / top * ScoreScale * top == a * ScoreScale;
    assert b / top * ScoreScale * top == b * ScoreScale;
  }

  /** Each score is the row's raw virality over the maximum, times 10: score · max = raw · 10. */
  lemma ScoresProportional(rows: seq<Record>, i: nat)
    requires i < |rows| && MaxRaw(rows) > 0.0
    ensures ViralityScores(rows).value[i].Finite?
    ensures ViralityScores(rows).value[i].value * MaxRaw(rows) == rows[i].viralityRaw * ScoreScale
  {
    var top, raw := MaxRaw(rows), rows[i].viralityRaw;
    assert raw / top * ScoreScale * top == raw * ScoreScale;
  }

  /** When no row has any virality (all counts zero), every cell is NaN: pandas divides 0 by 0. */
  lemma ScoresAllNaN(rows: seq<Record>)
    requires |rows| > 0
    requires MaxRaw(rows) == 0.0
    ensures forall i :: 0 <= i < |rows| ==> ViralityScores(rows).value[i] == NaN
  {
  }

  /**
   * `get_market_data` from the loop on: builds the rows and the tag pool item by item,
   * then writes the score column onto a non-empty table. A missing "high" thumbnail
   * raises out of the loop, and nothing built so far is returned.
   */
  method GetMarketData(items: seq<RawItem>, rpm: real, parse: DurationParser) returns (res: Result<MarketResult, Error>)
    ensures res == MarketData(items, rpm, parse)
  {
    var data: seq<Record> := [];
    var allTags: seq<string> := [];
    var i := 0;
    while i < |items|
      invariant 0 <= i <= |items|
      invariant Records(items[..i], rpm, parse) == Success(data)
      invariant allTags == TagPool(items[..i])
    {
      var item := items[i];
      assert items[..i + 1][..i] == items[..i] && items[..i + 1][i] == item;
      var views := item.viewCount.GetOr(0);
      var likes := item.likeCount.GetOr(0);
      var comments := item.commentCount.GetOr(0);
      var tags := ItemTags(item);
      if tags != [] {
        allTags := allTags + tags;
      }
      var duration := DurationMinutes(item.duration, parse);
      var thumb := ThumbnailUrl(item.id, item.thumbnails);
      if thumb.Failure? {
        RecordsPrefixFailure(items, i + 1, rpm, parse);
        return Failure(thumb.error);
      }
      data := data + [Record(
        videoId := item.id,
        thumbnail := thumb.value,
        title := item.title,
        views := views,
        likes := likes,
        comments := comments,
        tags := tags,
        engagement := Engagement(views, likes, comments),
        earnings := Earnings(views, rpm),
        viralityRaw := RawVirality(views, likes, comments),
        link := WatchLink(item.id),
        published := Prefix(item.publishedAt, PublishedDateLength),
        duration := duration)];
      i := i + 1;
    }
    assert items[..|items|] == items;
    var df := Table(data, None);
    if |data| > 0 {
      df := df.(viralityScore := ViralityScores(data));
    }
    res := Success(MarketResult(df, allTags));
  }

  /** All or nothing: the fetch returns a table exactly when every item has a "high" thumbnail. */
  lemma MarketDataAllOrNothing(items: seq<RawItem>, rpm: real, parse: DurationParser)
    ensures MarketData(items, rpm, parse).Success? <==> forall i :: 0 <= i < |items| ==> "high" in items[i].thumbnails
  {
  }

  /** One record per item, in item order, with the item's id, link, date, tags and counts. */
  lemma MarketDataRows(items: seq<RawItem>, rpm: real, parse: DurationParser)
    requires forall i :: 0 <= i < |items| ==> "high" in items[i].thumbnails
    ensures var rows := MarketData(items, rpm, parse).value.df.rows;
      && |rows| == |items|
      && forall i :: 0 <= i < |items| ==>
        && rows[i].videoId == items[i].id
        && rows[i].title == items[i].title
        && rows[i].link == WatchBase + items[i].id
        && rows[i].published == Prefix(items[i].publishedAt, PublishedDateLength)
        && rows[i].tags == ItemTags(items[i])
        && rows[i].views == items[i].viewCount.GetOr(0)
        && rows[i].likes == items[i].likeCount.GetOr(0)
        && rows[i].comments == items[i].commentCount.GetOr(0)
  {
  }

  /** The returned tag list is the pool of all items' tags. */
  lemma MarketDataTags(items: seq<RawItem>, rpm: real, parse: DurationParser)
    requires forall i :: 0 <= i < |items| ==> "high" in items[i].thumbnails
    ensures var tags := MarketData(items, rpm, parse).value.allTags;
      && |tags| == TagTotal(items)
      && forall t :: t in tags <==> exists i :: 0 <= i < |items| && t in ItemTags(items[i])
  {
    TagPoolLength(items);
    forall t ensures t in TagPool(items) <==> exists i :: 0 <= i < |items| && t in ItemTags(items[i]) {
      TagPoolMembership(items, t);
    }
  }

  /** An empty answer gives an empty table without a score column and no tags. */
  lemma MarketDataEmpty(rpm: real, parse: DurationParser)
    ensures MarketData([], rpm, parse) == Success(MarketResult(Table([], None), []))
  {
  }

  /** Some view, like or comment in the answer. */
  predicate HasActivity(item: RawItem) {
    item.viewCount.GetOr(0) > 0 || item.likeCount.GetOr(0) > 0 || item.commentCount.GetOr(0) > 0
  }

  /**
   * When some item has a view, like or comment, every score is a number in [0, 10]
   * and some row scores exactly 10.
   */
  lemma MarketDataScores(items: seq<RawItem>, rpm: real, parse: DurationParser, active: nat)
    requires forall i :: 0 <= i < |items| ==> "high" in items[i].thumbnails
    requires active < |items| && HasActivity(items[active])
    ensures var df := MarketData(items, rpm, parse).value.df;
      && df.viralityScore.Some?
      && (forall i :: 0 <= i < |df.rows| ==>
            df.viralityScore.value[i].Finite? && 0.0 <= df.viralityScore.value[i].value <= ScoreScale)
      && (exists i :: 0 <= i < |df.rows| && df.viralityScore.value[i] == Finite(ScoreScale))
  {
    var rows := Records(items, rpm, parse).value;
    assert rows[active].viralityRaw > 0.0;
    assert MaxRaw(rows) > 0.0;
    ScoresWithinRange(rows);
  }

  /** When no item has a view, like or comment, every score is NaN. */
  lemma MarketDataScoresNaN(items: seq<RawItem>, rpm: real, parse: DurationParser)
    requires forall i :: 0 <= i < |items| ==> "high" in items[i].thumbnails
    requires |items| > 0 && forall i :: 0 <= i < |items| ==> !HasActivity(items[i])
    ensures var df := MarketData(items, rpm, parse).value.df;
      df.viralityScore.Some? && forall i :: 0 <= i < |df.rows| ==> df.viralityScore.value[i] == NaN
  {
    var rows := Records(items, rpm, parse).value;
    assert rows[ArgMaxRaw(rows)].viralityRaw == 0.0;
    ScoresAllNaN(rows);
  }

  /**
   * A worked example: 1000 views, 100 likes, 10 comments and 500 views, 10 likes,
   * no comments, at an RPM of 3.
   */
  const ExampleA := RawItem("a", "A", "2024-01-01T00:00:00Z", Some(1000), Some(100), Some(10), None, None, map["high" := "h"])
  const ExampleB := RawItem("b", "B", "2024-01-02T00:00:00Z", Some(500), Some(10), None, None, None, map["high" := "h"])

  lemma TwoVideoExample(parse: DurationParser)
    ensures MarketData([ExampleA, ExampleB], 3.0, parse).Success?
    ensures var df := MarketData([ExampleA, ExampleB], 3.0, parse).value.df;
      && df.rows[0].engagement == 11.0 && df.rows[1].engagement == 2.0
      && df.rows[0].earnings == 3.0 && df.rows[1].earnings == 1.5
      && df.rows[0].viralityRaw == 6500.0 && df.rows[1].viralityRaw == 750.0
      && df.rows[0].published == "2024-01-01"
      && df.viralityScore == Some([Finite(10.0), Finite(750.0 / 6500.0 * 10.0)])
  {
    var items := [ExampleA, ExampleB];
    var ra := DeriveRecord(ExampleA, 3.0, parse).value;
    var rb := DeriveRecord(ExampleB, 3.0, parse).value;
    var r := Records(items, 3.0, parse);
    assert "high" in items[0].thumbnails && "high" in items[1].thumbnails;
    assert r.value[0] == ra && r.value[1] == rb;
    assert r.value == [ra, rb];
    assert ra.viralityRaw == 6500.0 && rb.viralityRaw == 750.0;
    assert ra.engagement == 11.0 && rb.engagement == 2.0;
    assert [ra, rb][..1] == [ra];
    assert ArgMaxRaw([ra, rb]) == 0;
    assert 6500.0 / 6500.0 * 10.0 == 10.0;
    var col := ViralityScores([ra, rb]).value;
    assert MaxRaw([ra, rb]) == 6500.0;
    assert col[0] == Finite(10.0) && col[1] == Finite(750.0 / 6500.0 * 10.0);
    assert col == [Finite(10.0), Finite(750.0 / 6500.0 * 10.0)];
    assert ra.published == "2024-01-01";
  }
}
