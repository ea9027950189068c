/**
 * The news page: three provider responses are mapped to articles, merged
 * in a fixed order, de-duplicated by URL keeping the first occurrence, and
 * their image URLs normalised; the page then filters them by a search query,
 * keeps a list of favourite ids and labels publication times.
 */
module News {
  import opened Optional
  import opened Text
  import opened Lists

  datatype ApiSource = Apitube | NewsData | GNews

  /** The id prefix each provider's mapper puts in front of the article URL. */
  function IdPrefix(api: ApiSource): string
  {
    match api
    case Apitube => "apitube_"
    case NewsData => "newsdata_"
    case GNews => "gnews_"
  }

  /** Providers in the order their lists are concatenated. */
  function Rank(api: ApiSource): nat
  {
    match api
    case Apitube => 0
    case NewsData => 1
    case GNews => 2
  }

  datatype Article = Article(
    id: string,
    title: Option<string>,
    description: Option<string>,
    url: string,
    image: string,
    source: Option<string>,
    publishedAt: Option<string>,
    category: string,
    apiSource: ApiSource)

  /**
   * One article as a provider sends it. Each provider uses some of these
   * fields (Apitube and GNews `url`, NewsData `link`, and so on); a field
   * the provider leaves out is None (the mappers copy `title` and
   * `description` as they are, so a missing one stays missing). `media` holds the `url` of each media
   * entry, in order.
   */
  datatype RawArticle = RawArticle(
    url: string,
    link: string,
    title: Option<string>,
    description: Option<string>,
    urlToImage: Option<string>,
    image: Option<string>,
    imageUrl: Option<string>,
    media: seq<Option<string>>,
    sourceName: Option<string>,
    sourceId: Option<string>,
    publishedAt: Option<string>,
    pubDate: Option<string>)

  /** What a fetcher gets: an exception (network or decoding), or a body whose article array may be absent. */
  datatype Response = Threw | Body(list: Option<seq<RawArticle>>)

  const PLACEHOLDER_SVG: string := "PHN2ZyB3aWR0aD0iNDAwIiBoZWlnaHQ9IjIwMCIgdmlld0JveD0iMCAwIDQwMCAyMDAiIGZpbGw9Im5vbmUiIHhtbG5zPSJodHRwOi8vd3d3LnczLm9yZy8yMDAwL3N2ZyI+CjxyZWN0IHdpZHRoPSI0MDAiIGhlaWdodD0iMjAwIiBmaWxsPSJ1cmwoI2dyYWRpZW50KSIvPgo8ZGVmcz4KPGxpbmVhckdyYWRpZW50IGlkPSJncmFkaWVudCIgeDE9IjAiIHkxPSIwIiB4Mj0iNDAwIiB5Mj0iMjAwIiBncmFkaWVudFVuaXRzPSJ1c2VyU3BhY2VPblVzZSI+CjxzdG9wIG9mZnNldD0iMCUiIHN0eWxlPSJzdG9wLWNvbG9yOiNmZmZmZmY7c3RvcC1vcGFjaXR5OjEiLz4KPHN0b3Agb2Zmc2V0PSIxMDAlIiBzdHlsZT0ic3RvcC1jb2xvcjojZmZmZmZmO3N0b3Atb3BhY2l0eTowIi8+CjwvbGluZWFyR3JhZGllbnQ+CjwvZGVmcz4KPC9zdmc+"

  /** The inline SVG every missing or unusable image is replaced by. */
  const PLACEHOLDER: string := "data:image/svg+xml;base64," + PLACEHOLDER_SVG

  /** The search term sent to a provider: `'sports'` for the `'all'` category, the category otherwise. */
  function Query(category: string): (q: string)
    ensures q != "all"
    ensures q == "sports" <==> category == "all" || category == "sports"
    ensures category != "all" ==> q == category
  {
    if category == "all" then "sports" else category
  }

  /** `article.media?.[0]?.url`. */
  function FirstMediaUrl(media: seq<Option<string>>): Option<string>
  {
    if media == [] then None else media[0]
  }

  /** `c[0] || c[1] || ... || fallback` on string operands. */
  function FirstTruthy(c: seq<Option<string>>, fallback: string): (r: string)
    ensures (forall i :: 0 <= i < |c| ==> !Truthy(c[i])) ==> r == fallback
    ensures forall i :: 0 <= i < |c| && Truthy(c[i]) && (forall j :: 0 <= j < i ==> !Truthy(c[j])) ==> r == c[i].value
    ensures fallback != "" ==> r != ""
  {
    if c == [] then fallback
    else if Truthy(c[0]) then c[0].value
    else
      var r := FirstTruthy(c[1..], fallback);
      assert forall i :: 1 <= i < |c| ==> c[i] == c[1..][i - 1];
      r
  }

  function MapArticle(api: ApiSource, a: RawArticle, category: string): (r: Article)
    ensures r.id == IdPrefix(api) + r.url && r.apiSource == api && r.category == category
    ensures r.image != ""
  {
    match api
    case Apitube =>
      Article("apitube_" + a.url, a.title, a.description, a.url,
              FirstTruthy([a.urlToImage, a.image, FirstMediaUrl(a.media)], PLACEHOLDER),
              Some(OrElse(a.sourceName, "Sports News")), a.publishedAt, category, Apitube)
    case NewsData =>
      Article("newsdata_" + a.link, a.title, a.description, a.link,
              FirstTruthy([a.imageUrl, a.image, FirstMediaUrl(a.media)], PLACEHOLDER),
              a.sourceId, a.pubDate, category, NewsData)
    case GNews =>
      Article("gnews_" + a.url, a.title, a.description, a.url,
              FirstTruthy([a.image, a.urlToImage, FirstMediaUrl(a.media)], PLACEHOLDER),
              Some(OrElse(a.sourceName, "Sports News")), a.publishedAt, category, GNews)
  }

  /** The id is the provider prefix followed by the URL. */
  predicate WellFormed(a: Article)
  {
    a.id == IdPrefix(a.apiSource) + a.url
  }

  /** One fetcher: an exception or a missing article array gives no articles, otherwise every raw article is mapped. */
  function FetchSource(api: ApiSource, resp: Response, category: string): (r: seq<Article>)
    ensures resp.Threw? || resp.list.None? ==> r == []
    ensures resp.Body? && resp.list.Some? ==> |r| == |resp.list.value|
    ensures forall i :: 0 <= i < |r| ==> WellFormed(r[i]) && r[i].apiSource == api && r[i].category == category
  {
    match resp
    case Threw => []
    case Body(None) => []
    case Body(Some(list)) => seq(|list|, i requires 0 <= i < |list| => MapArticle(api, list[i], category))
  }

  /** `[...apitubeNews, ...newsDataNews, ...gnewsNews]`. */
  function Merge(ra: Response, rn: Response, rg: Response, category: string): seq<Article>
  {
    FetchSource(Apitube, ra, category) + FetchSource(NewsData, rn, category) + FetchSource(GNews, rg, category)
  }

  /** The merged list holds Apitube's articles, then NewsData's, then GNews's, each in the provider's order. */
  lemma MergeOrder(ra: Response, rn: Response, rg: Response, category: string)
    ensures forall i, j :: 0 <= i < j < |Merge(ra, rn, rg, category)| ==>
              Rank(Merge(ra, rn, rg, category)[i].apiSource) <= Rank(Merge(ra, rn, rg, category)[j].apiSource)
    ensures forall x | x in Merge(ra, rn, rg, category) :: WellFormed(x) && x.category == category
  {
    var a, n, g := FetchSource(Apitube, ra, category), FetchSource(NewsData, rn, category), FetchSource(GNews, rg, category);
    ConcatRanked(a, n, g);
    MergeWellFormed(ra, rn, rg, category);
  }

  /** Every merged article is well formed and carries the requested category. */
  lemma MergeWellFormed(ra: Response, rn: Response, rg: Response, category: string)
    ensures forall x | x in Merge(ra, rn, rg, category) :: WellFormed(x) && x.category == category
  {
    var a, n, g := FetchSource(Apitube, ra, category), FetchSource(NewsData, rn, category), FetchSource(GNews, rg, category);
    assert forall x | x in a + n + g :: x in a || x in n || x in g;
  }

  lemma ConcatRanked(a: seq<Article>, n: seq<Article>, g: seq<Article>)
    requires forall i :: 0 <= i < |a| ==> a[i].apiSource == Apitube
    requires forall i :: 0 <= i < |n| ==> n[i].apiSource == NewsData
    requires forall i :: 0 <= i < |g| ==> g[i].apiSource == GNews
    ensures forall i, j :: 0 <= i < j < |a + n + g| ==> Rank((a + n + g)[i].apiSource) <= Rank((a + n + g)[j].apiSource)
  {
    var m := a + n + g;
    forall i, j | 0 <= i < j < |m| ensures Rank(m[i].apiSource) <= Rank(m[j].apiSource) {
      if j < |a| {
        assert m[i] == a[i] && m[j] == a[j];
      } else if j < |a| + |n| {
        assert m[j] == n[j - |a|];
        if i >= |a| {
          assert m[i] == n[i - |a|];
        } else {
          assert m[i] == a[i];
        }
      } else {
        assert m[j] == g[j - |a| - |n|];
      }
    }
  }

  /** Filtering the merged list by provider gives back that provider's list. */
  lemma MergeSplitsBySource(ra: Response, rn: Response, rg: Response, category: string)
    ensures Filter(Merge(ra, rn, rg, category), (x: Article) => x.apiSource == NewsData) == FetchSource(NewsData, rn, category)
  {
    var a, n, g := FetchSource(Apitube, ra, category), FetchSource(NewsData, rn, category), FetchSource(GNews, rg, category);
    FilterMiddle(a, n, g, (x: Article) => x.apiSource == NewsData);
  }

  // ---------------------------------------------------------------------
  // De-duplication: `all.filter((x, i, self) => i === self.findIndex(a => a.url === x.url))`.

  /** `self.findIndex(a => a.url === url)`: the first position holding that URL, or -1. */
  function FindUrl(s: seq<Article>, url: string): (k: int)
    ensures -1 <= k < |s|
    ensures k >= 0 ==> s[k].url == url && forall j :: 0 <= j < k ==> s[j].url != url
    ensures k == -1 ==> forall j :: 0 <= j < |s| ==> s[j].url != url
  {
    if s == [] then -1
    else if s[0].url == url then 0
    else
      var k := FindUrl(s[1..], url);
      assert forall j :: 1 <= j < |s| ==> s[j] == s[1..][j - 1];
      if k == -1 then -1 else k + 1
  }

  /** The filter's test for position `i`. */
  predicate IsFirst(s: seq<Article>, i: nat)
    requires i < |s|
  {
    FindUrl(s, s[i].url) == i
  }

  /** The filter applied to the first `n` positions. */
  function DedupeUpTo(s: seq<Article>, n: nat): (r: seq<Article>)
    requires n <= |s|
    ensures |r| <= n
    ensures forall x | x in r :: x in s[..n]
  {
    if n == 0 then []
    else
      var r := DedupeUpTo(s, n - 1);
      assert forall x | x in r :: x in s[..n] by {
        assert s[..n - 1] <= s[..n];
      }
      r + (if IsFirst(s, n - 1) then [s[n - 1]] else [])
  }

  predicate UrlsDistinct(s: seq<Article>)
  {
    forall i, j :: 0 <= i < j < |s| ==> s[i].url != s[j].url
  }

  /** The first article of its URL, which always exists for the URL of an article of `s`. */
  function FirstWithUrl(s: seq<Article>, x: Article): (f: Article)
    requires x in s
    ensures f in s && f.url == x.url
  {
    s[FindUrl(s, x.url)]
  }

  /** What the filter over the first `n` positions keeps: exactly the first article of each URL seen so far. */
  ghost predicate DedupedUpTo(s: seq<Article>, n: nat, r: seq<Article>)
    requires n <= |s|
  {
    UrlsDistinct(r) &&
    (forall x | x in r :: x in s && FirstWithUrl(s, x) == x) &&
    (forall i | 0 <= i < n :: FirstWithUrl(s, s[i]) in r)
  }

  lemma {:induction false} DedupeUpToSound(s: seq<Article>, n: nat)
    requires n <= |s|
    ensures DedupedUpTo(s, n, DedupeUpTo(s, n))
  {
    if n > 0 {
      DedupeUpToSound(s, n - 1);
      if IsFirst(s, n - 1) {
        DedupeStepKeeps(s, n);
      } else {
        DedupeStepDrops(s, n);
      }
    }
  }

  lemma DedupeStepKeeps(s: seq<Article>, n: nat)
    requires 0 < n <= |s| && IsFirst(s, n - 1)
    requires DedupedUpTo(s, n - 1, DedupeUpTo(s, n - 1))
    ensures DedupedUpTo(s, n, DedupeUpTo(s, n))
  {
    var r0 := DedupeUpTo(s, n - 1);
    var y := s[n - 1];
    var r := r0 + [y];
    assert r == DedupeUpTo(s, n);
    forall i | 0 <= i < |r0| ensures r0[i].url != y.url {
      assert r0[i] in r0;
      var j :| 0 <= j < n - 1 && s[..n - 1][j] == r0[i];
      assert s[j] == r0[i];
    }
    assert FirstWithUrl(s, y) == y;
    forall i | 0 <= i < n ensures FirstWithUrl(s, s[i]) in r {
      if i < n - 1 {
        assert FirstWithUrl(s, s[i]) in r0;
      }
    }
  }

  lemma DedupeStepDrops(s: seq<Article>, n: nat)
    requires 0 < n <= |s| && !IsFirst(s, n - 1)
    requires DedupedUpTo(s, n - 1, DedupeUpTo(s, n - 1))
    ensures DedupedUpTo(s, n, DedupeUpTo(s, n))
  {
    var r0 := DedupeUpTo(s, n - 1);
    assert DedupeUpTo(s, n) == r0;
    forall i | 0 <= i < n ensures FirstWithUrl(s, s[i]) in r0 {
      if i == n - 1 {
        var k := FindUrl(s, s[i].url);
        assert 0 <= k < n - 1 && s[k].url == s[i].url;
        assert FirstWithUrl(s, s[i]) == FirstWithUrl(s, s[k]);
        assert FirstWithUrl(s, s[k]) in r0;
      }
    }
  }

  lemma {:induction false} DedupeUpToOrder(s: seq<Article>, n: nat)
    requires n <= |s|
    ensures Subsequence(DedupeUpTo(s, n), s[..n])
  {
    if n > 0 {
      DedupeUpToOrder(s, n - 1);
      assert s[..n] == s[..n - 1] + [s[n - 1]];
      if IsFirst(s, n - 1) {
        SubsequenceAppendBoth(DedupeUpTo(s, n - 1), s[..n - 1], s[n - 1]);
      } else {
        assert DedupeUpTo(s, n) == DedupeUpTo(s, n - 1);
        SubsequenceAppendRight(DedupeUpTo(s, n - 1), s[..n - 1], s[n - 1]);
      }
    }
  }

  /**
   * Keeps exactly the first article of each URL: the URLs left are pairwise
   * distinct, each kept article is the first of its URL, the first article
   * of every URL is kept, and the kept articles are in their original order.
   */
  function Dedupe(s: seq<Article>): (r: seq<Article>)
    ensures UrlsDistinct(r)
    ensures forall x | x in r :: x in s && FirstWithUrl(s, x) == x
    ensures forall x | x in s :: FirstWithUrl(s, x) in r
    ensures Subsequence(r, s)
  {
    DedupeUpToSound(s, |s|);
    DedupeUpToOrder(s, |s|);
    assert s[..|s|] == s;
    DedupeUpTo(s, |s|)
  }

  lemma {:induction false} DedupeUpToDistinct(s: seq<Article>, n: nat)
    requires n <= |s| && UrlsDistinct(s)
    ensures DedupeUpTo(s, n) == s[..n]
  {
    if n > 0 {
      DedupeUpToDistinct(s, n - 1);
      assert IsFirst(s, n - 1);
      assert s[..n] == s[..n - 1] + [s[n - 1]];
    }
  }

  /** A list whose URLs are already distinct is left as it is. */
  lemma DedupeDistinct(s: seq<Article>)
    requires UrlsDistinct(s)
    ensures Dedupe(s) == s
  {
    DedupeUpToDistinct(s, |s|);
    assert s[..|s|] == s;
  }

  /** De-duplicating twice is de-duplicating once. */
  lemma DedupeIdempotent(s: seq<Article>)
    ensures Dedupe(Dedupe(s)) == Dedupe(s)
  {
    DedupeDistinct(Dedupe(s));
  }

  /** Once the URLs are distinct, so are the ids the mappers built from them. */
  lemma DedupedIdsDistinct(s: seq<Article>)
    requires forall x | x in s :: WellFormed(x)
    ensures forall i, j :: 0 <= i < j < |Dedupe(s)| ==> Dedupe(s)[i].id != Dedupe(s)[j].id
  {
    var r := Dedupe(s);
    forall i, j | 0 <= i < j < |r| ensures r[i].id != r[j].id {
      assert r[i] in s && r[j] in s;
      DistinctUrlsDistinctIds(r[i], r[j]);
    }
  }

  lemma DistinctUrlsDistinctIds(a: Article, b: Article)
    requires WellFormed(a) && WellFormed(b) && a.url != b.url
    ensures a.id != b.id
  {
    var p, q := IdPrefix(a.apiSource), IdPrefix(b.apiSource);
    if a.apiSource == b.apiSource {
      assert a.id[|p|..] == a.url && b.id[|q|..] == b.url;
    } else {
      assert a.id[0] == p[0] && b.id[0] == q[0];
    }
  }

  // ---------------------------------------------------------------------
  // Image normalisation.

  /** Falsy, the strings `'null'` / `'undefined'`, or containing `placeholder`. */
  predicate IsMissingImage(image: string)
  {
    image == "" || image == "null" || image == "undefined" || Contains(image, "placeholder")
  }

  predicate IsUsableImage(image: string)
  {
    StartsWith(image, "http") || StartsWith(image, "data:")
  }

  /** The image an article ends up with: its own when present and usable, the placeholder otherwise. */
  function ValidImage(image: string): string
  {
    if !IsMissingImage(image) && IsUsableImage(image) then image else PLACEHOLDER
  }

  lemma PlaceholderUsable()
    ensures IsUsableImage(PLACEHOLDER)
  {
    assert PLACEHOLDER[..5] == "data:";
  }

  /**
   * The per-article body of the validation map: replace a missing image by
   * the placeholder (the three per-provider branches assign the same
   * string), then replace anything that is neither `http…` nor `data:…`.
   */
  method NormaliseImage(image: string) returns (imageUrl: string)
    ensures imageUrl == ValidImage(image)
    ensures IsUsableImage(imageUrl)
    ensures IsMissingImage(image) ==> imageUrl == PLACEHOLDER
    ensures !IsMissingImage(image) && IsUsableImage(image) ==> imageUrl == image
  {
    PlaceholderUsable();
    imageUrl := image;
    if IsMissingImage(imageUrl) {
      imageUrl := PLACEHOLDER;
    }
    if !StartsWith(imageUrl, "http") && !StartsWith(imageUrl, "data:") {
      imageUrl := PLACEHOLDER;
    }
  }

  /** Every article with its image validated; nothing else changes. */
  function Validated(s: seq<Article>): (r: seq<Article>)
    ensures |r| == |s|
    ensures forall i :: 0 <= i < |r| ==> IsUsableImage(r[i].image)
  {
    PlaceholderUsable();
    seq(|s|, i requires 0 <= i < |s| => s[i].(image := ValidImage(s[i].image)))
  }

  /** `uniqueNews.map(...)`: one pass normalising each article's image. */
  method ValidateImages(unique: seq<Article>) returns (validated: seq<Article>)
    ensures validated == Validated(unique)
  {
    validated := [];
    var i := 0;
    while i < |unique|
      invariant 0 <= i <= |unique|
      invariant |validated| == i
      invariant forall k :: 0 <= k < i ==> validated[k] == unique[k].(image := ValidImage(unique[k].image))
    {
      var imageUrl := NormaliseImage(unique[i].image);
      validated := validated + [unique[i].(image := imageUrl)];
      i := i + 1;
    }
    ValidatedKeepsOtherFields(unique);
  }

  /** The articles the page shows after a fetch. */
  function Aggregate(ra: Response, rn: Response, rg: Response, category: string): seq<Article>
  {
    Validated(Dedupe(Merge(ra, rn, rg, category)))
  }

  lemma ValidatedKeepsOtherFields(s: seq<Article>)
    ensures forall i :: 0 <= i < |s| ==> Validated(s)[i] == s[i].(image := ValidImage(s[i].image))
  {
  }

  /** Validation changes only the image, so the aggregated URLs and ids stay pairwise distinct. */
  lemma AggregateDistinct(ra: Response, rn: Response, rg: Response, category: string)
    ensures UrlsDistinct(Aggregate(ra, rn, rg, category))
    ensures forall i, j :: 0 <= i < j < |Aggregate(ra, rn, rg, category)| ==>
              Aggregate(ra, rn, rg, category)[i].id != Aggregate(ra, rn, rg, category)[j].id
  {
    var m := Merge(ra, rn, rg, category);
    MergeWellFormed(ra, rn, rg, category);
    DedupedIdsDistinct(m);
    ValidatedKeepsKeys(Dedupe(m));
  }

  /** Validation keeps every article's URL and id, so keeps them pairwise distinct. */
  lemma ValidatedKeepsKeys(d: seq<Article>)
    requires UrlsDistinct(d)
    requires forall i, j :: 0 <= i < j < |d| ==> d[i].id != d[j].id
    ensures UrlsDistinct(Validated(d))
    ensures forall i, j :: 0 <= i < j < |Validated(d)| ==> Validated(d)[i].id != Validated(d)[j].id
  {
    ValidatedKeepsOtherFields(d);
    var r := Validated(d);
    assert forall i :: 0 <= i < |r| ==> r[i].url == d[i].url && r[i].id == d[i].id;
  }

  // ---------------------------------------------------------------------
  // Search, favourites and dates.

  /**
   * The search test on one article, as `filteredArticles` evaluates it:
   * `article.title.toLowerCase()` first, and `article.description.toLowerCase()`
   * only when the title misses the query. Calling `toLowerCase` on a missing
   * field throws a TypeError; None stands for that error.
   */
  function SearchTest(a: Article, query: string): Option<bool>
  {
    match a.title
    case None => None
    case Some(t) =>
      if ContainsIgnoreCase(t, query) then Some(true)
      else match a.description
        case None => None
        case Some(d) => Some(ContainsIgnoreCase(d, query))
  }

  /** The article passes the search without an error. */
  predicate MatchesQuery(a: Article, query: string)
  {
    SearchTest(a, query) == Some(true)
  }

  /**
   * `articles.filter(...)` during rendering: None when the test throws on
   * some article (the render fails with a TypeError), otherwise the
   * articles that match, in order.
   */
  function FilteredArticles(articles: seq<Article>, query: string): (r: Option<seq<Article>>)
    ensures r.Some? ==> forall x | x in r.value :: x in articles && MatchesQuery(x, query)
    ensures r.Some? ==> forall x | x in articles && MatchesQuery(x, query) :: x in r.value
    ensures r.Some? ==> Subsequence(r.value, articles)
  {
    if exists i :: 0 <= i < |articles| && SearchTest(articles[i], query).None? then None
    else
      var test := (a: Article) => MatchesQuery(a, query);
      FilterMembers(articles, test);
      FilterIsSubsequence(articles, test);
      Some(Filter(articles, test))
  }

  /**
   * The search fails exactly when some article has no title, or has a
   * title that misses the query and no description. A missing title
   * breaks the page even for the empty query.
   */
  lemma SearchThrowsIff(articles: seq<Article>, query: string)
    ensures FilteredArticles(articles, query).None? <==>
              exists i :: 0 <= i < |articles| &&
                (articles[i].title.None? ||
                 (!ContainsIgnoreCase(articles[i].title.value, query) && articles[i].description.None?))
  {
    if FilteredArticles(articles, query).None? {
      var i :| 0 <= i < |articles| && SearchTest(articles[i], query).None?;
      assert articles[i].title.None? ||
             (!ContainsIgnoreCase(articles[i].title.value, query) && articles[i].description.None?);
    } else {
      forall i | 0 <= i < |articles|
        ensures articles[i].title.Some? &&
                (ContainsIgnoreCase(articles[i].title.value, query) || articles[i].description.Some?)
      {
        assert SearchTest(articles[i], query).Some?;
      }
    }
  }

  /** Articles that carry both a title and a description never make the search fail. */
  lemma CompleteArticlesSearchable(articles: seq<Article>, query: string)
    requires forall i :: 0 <= i < |articles| ==> articles[i].title.Some? && articles[i].description.Some?
    ensures FilteredArticles(articles, query).Some?
  {
    SearchThrowsIff(articles, query);
  }

  /** The empty query keeps every article in order once every article has a title; a description is never read. */
  lemma EmptyQueryKeepsAll(articles: seq<Article>)
    requires forall i :: 0 <= i < |articles| ==> articles[i].title.Some?
    ensures FilteredArticles(articles, "") == Some(articles)
  {
    forall i | 0 <= i < |articles| ensures MatchesQuery(articles[i], "") {
      EmptyQueryMatches(articles[i].title.value);
    }
    FilterKeepsAll(articles, (a: Article) => MatchesQuery(a, ""));
  }

  const MS_PER_HOUR: nat := 1000 * 60 * 60

  /** `Math.floor((now - published) / 3600000)`; Dafny's division by a positive divisor already rounds down. */
  function HoursSince(published: int, now: int): (h: int)
    ensures h * MS_PER_HOUR <= now - published < (h + 1) * MS_PER_HOUR
  {
    (now - published) / MS_PER_HOUR
  }

  /**
   * The relative-time label. `published` is None when the date string does
   * not parse (the hour difference is then NaN and both tests fail);
   * `localeDate` is what `toLocaleDateString` returns.
   */
  function FormatDate(published: Option<int>, now: int, localeDate: string): string
  {
    if published.None? then localeDate
    else
      var h := HoursSince(published.value, now);
      if h < 1 then "Just now"
      else if h < 24 then NatToString(h) + "h ago"
      else localeDate
  }

  /** Under an hour old (or dated in the future) reads "Just now"; 1 to 23 hours reads "<h>h ago", whose number parses back to h. */
  lemma FormatDateLabels(published: int, now: int, localeDate: string)
    ensures now - published < MS_PER_HOUR ==> FormatDate(Some(published), now, localeDate) == "Just now"
    ensures MS_PER_HOUR <= now - published < 24 * MS_PER_HOUR ==>
              var r := FormatDate(Some(published), now, localeDate);
              var h := (now - published) / MS_PER_HOUR;
              1 <= h < 24 && r == NatToString(h) + "h ago" && ParseInt(r) == Num(h)
    ensures now - published >= 24 * MS_PER_HOUR ==> FormatDate(Some(published), now, localeDate) == localeDate
  {
    var h := HoursSince(published, now);
    if 1 <= h < 24 {
      ParseIntRoundTrip(h, "h ago");
    }
  }

  // ---------------------------------------------------------------------
  // Page state.

  class NewsPage {
    var articles: seq<Article>
    var loading: bool
    var selectedCategory: string
    var searchQuery: string
    var favorites: seq<string>

    ghost predicate Valid()
      reads this
    {
      NoDuplicates(favorites) && UrlsDistinct(articles)
    }

    constructor ()
      ensures Valid()
      ensures articles == [] && loading && selectedCategory == "all" && searchQuery == "" && favorites == []
    {
      articles := [];
      loading := true;
      selectedCategory := "all";
      searchQuery := "";
      favorites := [];
    }

    /** A category button: the category is selected and a fetch for it starts. */
    method SelectCategory(category: string)
      requires Valid()
      modifies this
      ensures Valid()
      ensures selectedCategory == category && loading
      ensures articles == old(articles) && searchQuery == old(searchQuery) && favorites == old(favorites)
    {
      selectedCategory := category;
      loading := true;
    }

    /** The three responses have arrived: merge, de-duplicate, validate each image, publish, stop loading. */
    method CompleteFetch(ra: Response, rn: Response, rg: Response, category: string)
      requires Valid()
      modifies this
      ensures Valid()
      ensures articles == Aggregate(ra, rn, rg, category) && !loading
      ensures selectedCategory == old(selectedCategory) && searchQuery == old(searchQuery) && favorites == old(favorites)
    {
      var all := Merge(ra, rn, rg, category);
      var unique := Dedupe(all);
      var validated := ValidateImages(unique);
      AggregateDistinct(ra, rn, rg, category);
      articles := validated;
      loading := false;
    }

    method SetSearchQuery(query: string)
      requires Valid()
      modifies this
      ensures Valid()
      ensures searchQuery == query
      ensures articles == old(articles) && loading == old(loading)
      ensures selectedCategory == old(selectedCategory) && favorites == old(favorites)
    {
      searchQuery := query;
    }

    /** The articles on screen, or None when rendering them throws. */
    function Shown(): Option<seq<Article>>
      reads this
    {
      FilteredArticles(articles, searchQuery)
    }

    /** Removes the id when it is a favourite, appends it otherwise. */
    method ToggleFavorite(articleId: string)
      requires Valid()
      modifies this
      ensures Valid()
      ensures favorites == Toggle(old(favorites), articleId)
      ensures articleId in favorites <==> articleId !in old(favorites)
      ensures articles == old(articles) && loading == old(loading)
      ensures selectedCategory == old(selectedCategory) && searchQuery == old(searchQuery)
    {
      ToggleKeepsNoDuplicates(favorites, articleId);
      favorites := Toggle(favorites, articleId);
    }
  }
}
