/**
 * The per-video part of `get_market_data`: how one item of the metadata batch
 * response becomes one row of the market table.
 */
module Metrics {
  import opened Wrappers
  import opened Text

  /**
   * One item of the `videos().list` response, reduced to the fields the loop reads.
   * A statistic or the tag list that the response leaves out is `None`; so is a
   * missing `contentDetails.duration`. `thumbnails` maps a resolution name
   * ("default", "high", "maxres", ...) to its URL.
   */
  datatype RawItem = RawItem(
    id: string,
    title: string,
    publishedAt: string,
    viewCount: Option<nat>,
    likeCount: Option<nat>,
    commentCount: Option<nat>,
    tags: Option<seq<string>>,
    duration: Option<string>,
    thumbnails: map<string, string>)

  /** One row of the market table, before the virality score column is added. */
  datatype Record = Record(
    videoId: string,
    thumbnail: string,
    title: string,
    views: nat,
    likes: nat,
    comments: nat,
    tags: seq<string>,
    engagement: real,
    earnings: real,
    viralityRaw: real,
    link: string,
    published: string,
    duration: real)

  /** Why a fetch raised: a dictionary key the loop indexes was missing, or the platform call failed. */
  datatype Error = MissingKey(videoId: string, key: string) | Upstream(message: string)

  /**
   * `isodate.parse_duration(s).total_seconds()`: the total number of seconds of an
   * ISO-8601 duration, or `None` where parsing (or `total_seconds`) raises.
   */
  type DurationParser = string -> Option<real>

  const WatchBase := "https://www.youtube.com/watch?v="
  const PublishedDateLength := 10

  /** Engagement percent: likes and comments per view, times 100; zero when nobody viewed. */
  function Engagement(views: nat, likes: nat, comments: nat): (e: real)
    ensures views == 0 ==> e == 0.0
    ensures views > 0 ==> e * views as real == ((likes + comments) * 100) as real
    ensures e >= 0.0
  {
    if views > 0 then (likes + comments) as real / views as real * 100.0 else 0.0
  }

  /** Estimated earnings: `rpm` currency units per thousand views. */
  function Earnings(views: nat, rpm: real): (r: real)
    ensures r * 1000.0 == views as real * rpm
    ensures rpm >= 0.0 ==> r >= 0.0
  {
    views as real / 1000.0 * rpm
  }

  /** Raw virality: half a point per view, 50 per like, 100 per comment. */
  function RawVirality(views: nat, likes: nat, comments: nat): (r: real)
    ensures r >= 0.0
    ensures r == 0.0 <==> views == 0 && likes == 0 && comments == 0
    ensures r >= 100.0 * comments as real && r >= 50.0 * likes as real && 2.0 * r >= views as real
  {
    views as real * 0.5 + likes as real * 50.0 + comments as real * 100.0
  }

  /** The watch page of a video: the fixed base URL followed by the id. */
  function WatchLink(id: string): (link: string)
    ensures |link| == |WatchBase| + |id|
    ensures link[..|WatchBase|] == WatchBase && link[|WatchBase|..] == id
  {
    WatchBase + id
  }

  /** Different videos get different links. */
  lemma WatchLinkInjective(a: string, b: string)
    requires WatchLink(a) == WatchLink(b)
    ensures a == b
  {
    assert a == WatchLink(a)[|WatchBase|..];
  }

  /**
   * Duration in minutes; a missing duration, or one the parser rejects, gives 0.
   * (Rounding to two decimals is not modelled.)
   */
  function DurationMinutes(duration: Option<string>, parse: DurationParser): (m: real)
    ensures (duration.None? || parse(duration.value).None?) ==> m == 0.0
    ensures duration.Some? && parse(duration.value).Some? ==> m * 60.0 == parse(duration.value).value
  {
    match duration
    case None => 0.0
    case Some(d) =>
      match parse(d)
      case None => 0.0
      case Some(seconds) => seconds / 60.0
  }

  /**
   * `thumbnails.get('maxres', thumbnails['high'])`: the default is evaluated first,
   * so a missing "high" raises even when "maxres" is present.
   */
  function ThumbnailUrl(id: string, thumbnails: map<string, string>): (r: Result<string, Error>)
    ensures r.Failure? <==> "high" !in thumbnails
    ensures r.Failure? ==> r.error == MissingKey(id, "high")
    ensures r.Success? && "maxres" in thumbnails ==> r.value == thumbnails["maxres"]
    ensures r.Success? && "maxres" !in thumbnails ==> r.value == thumbnails["high"]
  {
    if "high" !in thumbnails then Failure(MissingKey(id, "high"))
    else if "maxres" in thumbnails then Success(thumbnails["maxres"])
    else Success(thumbnails["high"])
  }

  /** The tag list of an item, empty when the snippet has none. */
  function ItemTags(item: RawItem): seq<string> {
    item.tags.GetOr([])
  }

  /** The body of the loop in `get_market_data`: one item becomes one record, or the loop raises. */
  function DeriveRecord(item: RawItem, rpm: real, parse: DurationParser): (r: Result<Record, Error>)
    ensures r.Success? <==> "high" in item.thumbnails
    ensures r.Failure? ==> r.error == MissingKey(item.id, "high")
    ensures r.Success? ==> r.value.videoId == item.id && r.value.title == item.title
  {
    var views := item.viewCount.GetOr(0);
    var likes := item.likeCount.GetOr(0);
    var comments := item.commentCount.GetOr(0);
    var thumb := ThumbnailUrl(item.id, item.thumbnails);
    if thumb.Failure? then Failure(thumb.error)
    else
      Success(Record(
        videoId := item.id,
        thumbnail := thumb.value,
        title := item.title,
        views := views,
        likes := likes,
        comments := comments,
        tags := ItemTags(item),
        engagement := Engagement(views, likes, comments),
        earnings := Earnings(views, rpm),
        viralityRaw := RawVirality(views, likes, comments),
        link := WatchLink(item.id),
        published := Prefix(item.publishedAt, PublishedDateLength),
        duration := DurationMinutes(item.duration, parse)))
  }

  /** A missing view, like or comment count is read as 0; a present one is kept. */
  lemma CountsDefaultToZero(item: RawItem, rpm: real, parse: DurationParser)
    requires "high" in item.thumbnails
    ensures var rec := DeriveRecord(item, rpm, parse).value;
      && (item.viewCount.None? ==> rec.views == 0)
      && (item.likeCount.None? ==> rec.likes == 0)
      && (item.commentCount.None? ==> rec.comments == 0)
      && (item.viewCount.Some? ==> rec.views == item.viewCount.value)
      && (item.likeCount.Some? ==> rec.likes == item.likeCount.value)
      && (item.commentCount.Some? ==> rec.comments == item.commentCount.value)
  {
  }

  /** Engagement of a derived record: 0 without views, otherwise (likes + comments) / views * 100. */
  lemma RecordEngagement(item: RawItem, rpm: real, parse: DurationParser)
    requires "high" in item.thumbnails
    ensures var rec := DeriveRecord(item, rpm, parse).value;
      && (rec.views == 0 ==> rec.engagement == 0.0)
      && (rec.views > 0 ==> rec.engagement * rec.views as real == ((rec.likes + rec.comments) * 100) as real)
  {
  }

  /** Earnings and raw virality of a derived record, in terms of its counts. */
  lemma RecordEarningsAndVirality(item: RawItem, rpm: real, parse: DurationParser)
    requires "high" in item.thumbnails
    ensures var rec := DeriveRecord(item, rpm, parse).value;
      && rec.earnings * 1000.0 == rec.views as real * rpm
      && (rpm >= 0.0 ==> rec.earnings >= 0.0)
      && 2.0 * rec.viralityRaw == (rec.views + 100 * rec.likes + 200 * rec.comments) as real
      && rec.viralityRaw >= 0.0
  {
  }

  /** A duration that is missing or does not parse becomes 0 minutes; the derivation still succeeds. */
  lemma RecordDurationFallback(item: RawItem, rpm: real, parse: DurationParser)
    requires "high" in item.thumbnails
    requires item.duration.None? || parse(item.duration.value).None?
    ensures DeriveRecord(item, rpm, parse).Success?
    ensures DeriveRecord(item, rpm, parse).value.duration == 0.0
  {
  }

  /** Link, publication date, thumbnail and tags of a derived record. */
  lemma RecordPresentationFields(item: RawItem, rpm: real, parse: DurationParser)
    requires "high" in item.thumbnails
    ensures var rec := DeriveRecord(item, rpm, parse).value;
      && rec.link == WatchBase + item.id
      && rec.published == Prefix(item.publishedAt, 10)
      && |rec.published| <= 10
      && rec.thumbnail == (if "maxres" in item.thumbnails then item.thumbnails["maxres"] else item.thumbnails["high"])
      && rec.tags == (if item.tags.Some? then item.tags.value else [])
  {
  }
}
