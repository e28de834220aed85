/** `RSSService` (app/services/rss_service.py): fetch a fixed list of feeds, keep at most five
    entries of each, skip the feeds that fail, and return the twenty articles with the greatest
    `published_date` strings. The HTTP GET and feedparser are one oracle per URL. */
module RssService {
  import opened Wrappers
  import opened Errors
  import opened Text
  import opened StableSort

  /** A feedparser entry; each key may be absent. */
  datatype Entry = Entry(title: Option<string>, summary: Option<string>, link: Option<string>, published: Option<string>)

  /** The record built for one entry, including the raw entry itself. */
  datatype Article = Article(headline: string, summary: string, url: string, publishedDate: string,
                             source: string, rawEntry: Entry)

  /** What fetching one URL gives: a response with its status and the parsed entries, or the
      exception the request raised (timeout, connection error, ...). */
  datatype FeedResponse = Response(status: int, entries: seq<Entry>) | Threw(message: string)

  datatype Feed = Feed(name: string, url: string)

  /** The configured feeds, in the order they are fetched. */
  const Feeds: seq<Feed> := [
    Feed("yahoo_finance", "https://feeds.yahoo.com/rss/markets"),
    Feed("marketwatch", "https://feeds.marketwatch.com/marketwatch/topstories/"),
    Feed("dnb_news", "https://www.dnb.nl/en/rss/"),
    Feed("afm_news", "https://www.afm.nl/en/rss"),
    Feed("ecb_press", "https://www.ecb.europa.eu/press/pressreleases/rss.xml"),
    Feed("fd_banking", "https://fd.nl/rss/banking")
  ]

  /** Entries kept per feed. */
  const PerFeed: nat := 5

  /** Articles kept in all. */
  const MaxArticles: nat := 20

  function ToArticle(e: Entry, source: string): Article {
    Article(e.title.GetOr(""), e.summary.GetOr(""), e.link.GetOr(""), e.published.GetOr(""), source, e)
  }

  /** `_fetch_single_feed`: the records of the first five entries of a 200 response, none for any
      other status; a raised exception propagates. */
  function FetchSingleFeed(response: FeedResponse, source: string): (r: Result<seq<Article>, Error>)
    ensures r.Failure? <==> response.Threw?
    ensures response.Response? && response.status != 200 ==> r == Success([])
    ensures response.Response? && response.status == 200 ==>
      && |r.value| == (if |response.entries| < PerFeed then |response.entries| else PerFeed)
      && forall i :: 0 <= i < |r.value| ==>
           var a, e := r.value[i], response.entries[i];
           && a.source == source && a.rawEntry == e
           && a.headline == e.title.GetOr("") && a.summary == e.summary.GetOr("")
           && a.url == e.link.GetOr("") && a.publishedDate == e.published.GetOr("")
  {
    match response
    case Threw(message) => Failure(Raised(message))
    case Response(status, entries) =>
      if status == 200 then
        var kept := Take(entries, PerFeed);
        Success(seq(|kept|, i requires 0 <= i < |kept| => ToArticle(kept[i], source)))
      else Success([])
  }

  /** What one feed adds to the merged list: its records, or nothing when fetching raised. */
  function Contribution(fetch: string -> FeedResponse, f: Feed): seq<Article> {
    match FetchSingleFeed(fetch(f.url), f.name)
    case Success(articles) => articles
    case Failure(_) => []
  }

  /** The loop of `fetch_all_feeds`: every feed in order, its records appended. */
  function Gather(feeds: seq<Feed>, fetch: string -> FeedResponse): seq<Article> {
    if |feeds| == 0 then []
    else Gather(feeds[..|feeds| - 1], fetch) + Contribution(fetch, feeds[|feeds| - 1])
  }

  function PublishedDate(a: Article): string {
    a.publishedDate
  }

  function SourceName(a: Article): string {
    a.source
  }

  /** `fetch_all_feeds`: the merged records sorted newest-string-first, cut to twenty. */
  function FetchAllFeeds(fetch: string -> FeedResponse): (r: seq<Article>)
    ensures var all := Gather(Feeds, fetch);
      && |r| == (if |all| < MaxArticles then |all| else MaxArticles)
      && multiset(r) <= multiset(all)
      && SortedDesc(r, PublishedDate, LexGe)
      && (forall i, b :: 0 <= i < |r| && b in multiset(all) - multiset(r) ==>
            LexLe(b.publishedDate, r[i].publishedDate))
      && (forall d :: WithKey(r, PublishedDate, d) <= WithKey(all, PublishedDate, d))
  {
    var all := Gather(Feeds, fetch);
    LatestFacts(all);
    Latest(all)
  }

  lemma LatestFacts(all: seq<Article>)
    ensures var r := Latest(all);
      && |r| == (if |all| < MaxArticles then |all| else MaxArticles)
      && multiset(r) <= multiset(all)
      && SortedDesc(r, PublishedDate, LexGe)
      && (forall i, b :: 0 <= i < |r| && b in multiset(all) - multiset(r) ==>
            LexLe(b.publishedDate, r[i].publishedDate))
      && (forall d :: WithKey(r, PublishedDate, d) <= WithKey(all, PublishedDate, d))
  {
    LexGeTotalPreorder();
    TopOfSort(all, MaxArticles, PublishedDate, LexGe);
    var r := Latest(all);
    forall i, b | 0 <= i < |r| && b in multiset(all) - multiset(r)
      ensures LexLe(b.publishedDate, r[i].publishedDate)
    {
      assert LexGe(PublishedDate(r[i]), PublishedDate(b));
    }
  }

  /** The twenty records with the greatest dates, in the order the stable sort leaves them. */
  function Latest(all: seq<Article>): seq<Article> {
    Take(Sort(all, PublishedDate, LexGe), MaxArticles)
  }

  lemma LexGeTotalPreorder()
    ensures TotalPreorder(LexGe)
    ensures forall a :: LexGe(a, a)
  {
    forall a, b ensures LexGe(a, b) || LexGe(b, a) {
      LexLeTotal(a, b);
    }
    forall a, b, c | LexGe(a, b) && LexGe(b, c) ensures LexGe(a, c) {
      LexLeTransitive(c, b, a);
    }
    forall a ensures LexGe(a, a) {
      LexLeTotal(a, a);
    }
  }

  // ---------------------------------------------------------------------------------------
  // Properties of the merge
  // ---------------------------------------------------------------------------------------

  lemma {:induction false} GatherAppend(a: seq<Feed>, b: seq<Feed>, fetch: string -> FeedResponse)
    ensures Gather(a + b, fetch) == Gather(a, fetch) + Gather(b, fetch)
    decreases |b|
  {
    if |b| == 0 {
      assert a + b == a;
    } else {
      var b', f := b[..|b| - 1], b[|b| - 1];
      var c := Contribution(fetch, f);
      calc {
        Gather(a + b, fetch);
        { assert (a + b)[..|a + b| - 1] == a + b' && (a + b)[|a + b| - 1] == f; }
        Gather(a + b', fetch) + c;
        { GatherAppend(a, b', fetch); }
        (Gather(a, fetch) + Gather(b', fetch)) + c;
        Gather(a, fetch) + (Gather(b', fetch) + c);
        Gather(a, fetch) + Gather(b, fetch);
      }
    }
  }

  /** A feed whose request raises, or whose status is not 200, leaves the merged list exactly
      as if it were not configured: the feeds after it are still fetched. */
  lemma SilentFeedSkipped(before: seq<Feed>, f: Feed, after: seq<Feed>, fetch: string -> FeedResponse)
    requires fetch(f.url).Threw? || fetch(f.url).status != 200
    ensures Gather(before + [f] + after, fetch) == Gather(before + after, fetch)
  {
    GatherAppend(before + [f], after, fetch);
    GatherAppend(before, [f], fetch);
    GatherAppend(before, after, fetch);
    GatherSingle(f, fetch);
    assert Gather(before + [f], fetch) == Gather(before, fetch);
  }

  /** The merge of one feed is that feed's contribution. */
  lemma GatherSingle(f: Feed, fetch: string -> FeedResponse)
    ensures Gather([f], fetch) == Contribution(fetch, f)
  {
    assert [f][..0] == [];
  }

  /** How many configured feeds carry the name `n`. */
  function Occurrences(feeds: seq<Feed>, n: string): nat {
    if |feeds| == 0 then 0
    else Occurrences(feeds[..|feeds| - 1], n) + (if feeds[|feeds| - 1].name == n then 1 else 0)
  }

  lemma ContributionShare(fetch: string -> FeedResponse, f: Feed, n: string)
    ensures |WithKey(Contribution(fetch, f), SourceName, n)| <= (if f.name == n then PerFeed else 0)
  {
    var c := Contribution(fetch, f);
    assert forall i :: 0 <= i < |c| ==> c[i].source == f.name;
    WithKeyBound(c, n);
    if f.name != n {
      WithKeyNone(c, n);
    }
  }

  lemma {:induction false} WithKeyBound(c: seq<Article>, n: string)
    ensures |WithKey(c, SourceName, n)| <= |c|
  {
    if |c| > 0 {
      WithKeyBound(c[1..], n);
    }
  }

  lemma {:induction false} WithKeyNone(c: seq<Article>, n: string)
    requires forall i :: 0 <= i < |c| ==> c[i].source != n
    ensures WithKey(c, SourceName, n) == []
  {
    if |c| > 0 {
      WithKeyNone(c[1..], n);
    }
  }

  lemma {:induction false} GatherShare(feeds: seq<Feed>, fetch: string -> FeedResponse, n: string)
    ensures |WithKey(Gather(feeds, fetch), SourceName, n)| <= PerFeed * Occurrences(feeds, n)
    decreases |feeds|
  {
    if |feeds| > 0 {
      var init, f := feeds[..|feeds| - 1], feeds[|feeds| - 1];
      GatherShare(init, fetch, n);
      WithKeyAppend(Gather(init, fetch), Contribution(fetch, f), SourceName, n);
      ContributionShare(fetch, f, n);
    }
  }

  /** Each configured feed has at most five articles in the result. */
  lemma AtMostFivePerFeed(fetch: string -> FeedResponse, i: nat)
    requires i < |Feeds|
    ensures |WithKey(FetchAllFeeds(fetch), SourceName, Feeds[i].name)| <= PerFeed
  {
    var n := Feeds[i].name;
    var all := Gather(Feeds, fetch);
    var sorted := Sort(all, PublishedDate, LexGe);
    FeedNamesUnique(i);
    GatherShare(Feeds, fetch, n);
    SortKeepsCount(all, PublishedDate, LexGe, SourceName, n);
    WithKeyOfPrefix(sorted, |Latest(all)|, SourceName, n);
  }

  lemma FeedNamesUnique(i: nat)
    requires i < |Feeds|
    ensures Occurrences(Feeds, Feeds[i].name) == 1
  {
    assert forall j :: 0 <= j < |Feeds| && j != i ==> Feeds[j].name != Feeds[i].name;
    OccursOnce(Feeds, i);
  }

  lemma {:induction false} OccursOnce(feeds: seq<Feed>, i: nat)
    requires i < |feeds|
    requires forall j :: 0 <= j < |feeds| && j != i ==> feeds[j].name != feeds[i].name
    ensures Occurrences(feeds, feeds[i].name) == 1
    decreases |feeds|
  {
    var n := feeds[i].name;
    if i < |feeds| - 1 {
      OccursOnce(feeds[..|feeds| - 1], i);
    } else {
      OccursNever(feeds[..|feeds| - 1], n);
    }
  }

  lemma {:induction false} OccursNever(feeds: seq<Feed>, n: string)
    requires forall j :: 0 <= j < |feeds| ==> feeds[j].name != n
    ensures Occurrences(feeds, n) == 0
    decreases |feeds|
  {
    if |feeds| > 0 {
      OccursNever(feeds[..|feeds| - 1], n);
    }
  }

  /** Every article comes from a configured feed that answered with status 200. */
  lemma {:induction false} GatherFromAnsweringFeeds(feeds: seq<Feed>, fetch: string -> FeedResponse, a: Article)
    requires a in Gather(feeds, fetch)
    ensures exists f :: f in feeds && a.source == f.name && fetch(f.url).Response? && fetch(f.url).status == 200
    decreases |feeds|
  {
    var init, f := feeds[..|feeds| - 1], feeds[|feeds| - 1];
    if a in Gather(init, fetch) {
      GatherFromAnsweringFeeds(init, fetch, a);
      var g :| g in init && a.source == g.name && fetch(g.url).Response? && fetch(g.url).status == 200;
      assert g in feeds;
    } else {
      assert a in Contribution(fetch, f);
      assert f in feeds;
    }
  }

  lemma ResultFromAnsweringFeeds(fetch: string -> FeedResponse, a: Article)
    requires a in FetchAllFeeds(fetch)
    ensures exists f :: f in Feeds && a.source == f.name && fetch(f.url).Response? && fetch(f.url).status == 200
  {
    assert a in multiset(FetchAllFeeds(fetch));
    assert a in Gather(Feeds, fetch);
    GatherFromAnsweringFeeds(Feeds, fetch, a);
  }

  /** Dates are compared as text, not as instants: an RFC 822 date of a Wednesday sorts ahead of
      a later Tuesday. */
  lemma DatesCompareAsText()
    ensures var older, newer := "Wed, 02 Oct 2024 09:00:00 GMT", "Tue, 15 Oct 2024 09:00:00 GMT";
      LexGe(older, newer) && !LexGe(newer, older)
  {
  }
}
