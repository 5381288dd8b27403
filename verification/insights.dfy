/**
 * The insights page: the first six technology headlines from a news feed
 * become insight cards, with fixed texts filling in missing fields, and a
 * category filter over them. The feed is a parameter; a source name,
 * description or image that is absent or empty is "".
 */
module Insights {
  import opened Seqs
  import opened Text
  import opened Listing

  const Cap := 6
  const DefaultCategory := "Tech News"
  const DefaultDescription := "No description available."
  const DefaultImage := "/insights/placeholder.jpg"
  const LoadErrorText := "Whoops, couldn’t load the latest news! Try again later. 😅"

  datatype Article = Article(
    title: string,
    sourceName: string,
    description: string,
    urlToImage: string,
    url: string)

  datatype Insight = Insight(
    id: int,
    title: string,
    category: string,
    description: string,
    image: string,
    url: string)

  /** One card; `index` is the article's position in the feed. */
  function ToInsight(a: Article, index: nat): (c: Insight)
    ensures c.id == index + 1 && c.title == a.title && c.url == a.url
    ensures a.sourceName == "" ==> c.category == DefaultCategory
    ensures a.sourceName != "" ==> c.category == a.sourceName
    ensures a.description == "" ==> c.description == DefaultDescription
    ensures a.description != "" ==> c.description == a.description
    ensures a.urlToImage == "" ==> c.image == DefaultImage
    ensures a.urlToImage != "" ==> c.image == a.urlToImage
  {
    Insight(index + 1, a.title, OrElse(a.sourceName, DefaultCategory),
            OrElse(a.description, DefaultDescription), OrElse(a.urlToImage, DefaultImage), a.url)
  }

  /** `articles.slice(0, 6).map(...)`. */
  function Transform(articles: seq<Article>): (r: seq<Insight>)
    ensures |r| <= Cap
    ensures |r| == if |articles| < Cap then |articles| else Cap
    ensures forall i :: 0 <= i < |r| ==> r[i] == ToInsight(articles[i], i)
  {
    var n := if |articles| < Cap then |articles| else Cap;
    seq(n, i requires 0 <= i < n => ToInsight(articles[i], i))
  }

  /** Cards are numbered 1, 2, ... in feed order, and every card has a category, description and image. */
  lemma TransformIdsAndDefaults(articles: seq<Article>)
    ensures forall i :: 0 <= i < |Transform(articles)| ==>
      var c := Transform(articles)[i];
      c.id == i + 1 && c.category != "" && c.description != "" && c.image != ""
  {
  }

  /** Only the first six articles matter. */
  lemma TransformIgnoresTail(articles: seq<Article>, more: seq<Article>)
    requires |articles| >= Cap
    ensures Transform(articles + more) == Transform(articles)
  {
    var a := Transform(articles + more);
    var b := Transform(articles);
    assert |a| == |b|;
    forall i | 0 <= i < |a| ensures a[i] == b[i] {
      assert (articles + more)[i] == articles[i];
    }
  }

  /** What the feed request produced: the article list, or a failure of any kind. */
  datatype Feed = Articles(articles: seq<Article>) | FeedFailed

  datatype PageState = PageState(insights: seq<Insight>, loading: bool, error: Option<string>)

  const Initial := PageState([], true, None)

  /** The mount effect: cards on success, the error text on failure; loading ends either way. */
  function Fetch(feed: Feed): (s: PageState)
    ensures !s.loading
    ensures feed.FeedFailed? <==> s.error.Some?
    ensures feed.FeedFailed? ==> s.insights == [] && s.error == Some(LoadErrorText)
    ensures feed.Articles? ==> |s.insights| <= Cap
    ensures feed.Articles? ==> s.insights == Transform(feed.articles)
  {
    match feed
    case FeedFailed => Initial.(loading := false, error := Some(LoadErrorText))
    case Articles(articles) => Initial.(insights := Transform(articles), loading := false)
  }

  /** A feed longer than six articles shows the same page as its first six. */
  lemma FetchIgnoresTail(articles: seq<Article>, more: seq<Article>)
    requires |articles| >= Cap
    ensures Fetch(Articles(articles + more)) == Fetch(Articles(articles))
  {
    TransformIgnoresTail(articles, more);
  }

  function InsightCategories(insights: seq<Insight>): seq<string> {
    seq(|insights|, i requires 0 <= i < |insights| => insights[i].category)
  }

  /** The tabs: "All" then each card category once. */
  function Categories(insights: seq<Insight>): (r: seq<string>)
    ensures |r| >= 1 && r[0] == AllTab
    ensures forall i :: 0 <= i < |insights| ==> insights[i].category in r
    ensures NoDup(r[1..])
    ensures forall c :: c in r[1..] ==> exists i :: 0 <= i < |insights| && insights[i].category == c
  {
    var cats := InsightCategories(insights);
    var r := CategoryTabs(cats);
    assert forall i :: 0 <= i < |insights| ==> insights[i].category in r by {
      forall i | 0 <= i < |insights| ensures insights[i].category in r {
        assert cats[i] in cats;
        assert cats[i] in r[1..];
      }
    }
    r
  }

  /** `filteredInsights`: every card for "All", else the cards whose category equals the tab. */
  function Filtered(insights: seq<Insight>, selected: string): (r: seq<Insight>)
    ensures selected == AllTab ==> r == insights
    ensures forall c :: c in r <==> c in insights && Shown(selected, c.category)
    ensures Subseq(r, insights)
  {
    var keep := (c: Insight) => c.category == selected;
    FilterIsSubseq(insights, keep);
    assert forall c :: c in Filter(insights, keep) <==> c in insights && keep(c) by {
      forall c ensures c in Filter(insights, keep) <==> c in insights && keep(c) {
        FilterMembership(insights, keep, c);
      }
    }
    if selected == AllTab then
      SubseqRefl(insights);
      insights
    else Filter(insights, keep)
  }

  /** A card with an empty source name is listed under the "Tech News" tab. */
  lemma UnnamedSourceUnderTechNews(articles: seq<Article>, i: nat)
    requires i < |articles| && i < Cap && articles[i].sourceName == ""
    ensures ToInsight(articles[i], i) in Filtered(Transform(articles), DefaultCategory)
  {
    assert Transform(articles)[i] == ToInsight(articles[i], i);
  }
}
