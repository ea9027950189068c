# SportsVita page logic in Dafny

This project models the behaviour behind the pages and effects of SportsVita, a sports portal built with React. Rendering and animation are not modelled.

The model covers:

- the shop's search → category → sort pipeline, with its cart and wish list;
- the news aggregator: three providers, URL de-duplication, image normalisation, search, favourites and relative dates;
- live scores: provider fallback chain, demo data, sport filter, simulated score ticks;
- the blog and portfolio filters and their cards;
- the chat assistant widget;
- the contact form lifecycle;
- the start-up loader;
- the two click-ripple overlays;
- the page-transition hook;
- the home page's rotating counters.

The model follows the shape of the code:

- Code that only computes becomes functions, with lemmas about them.
- A component whose state changes over time becomes a class. Each event handler becomes a method with a `modifies` clause.
- Each timer callback (`setTimeout`, `setInterval`) becomes a method of its own. The class counts the callbacks still scheduled, so a callback can only run after it was scheduled.
- Randomness, the clock, locale-dependent text and network results are parameters.

Conventions:

- Strings are sequences of characters. JavaScript's `toLowerCase` is modelled on ASCII letters (`Text.Lower`). `trim` uses JavaScript's white-space set (`Text.Trim`).
- Ratings are held in tenths (4.8 becomes 48).
- `Array.prototype.sort` is a stable sort (ECMAScript 2019 onward). Every comparator in the shop has the form `key(a) - key(b)`, so it is modelled as a stable insertion sort by an integer key (`Lists.SortBy`).

Shared modules:

- `Optional`: an `Option` type.
- `Text`: lower-casing, substring search, trimming, `Number(...)`, `parseInt` and decimal rendering of naturals.
- `Lists`: filtering, subsequences, stable sorting, toggling and "+n more" chip truncation.

## Model

Paths are relative to the repository root `lovably-animated-portfolio-main/src/`, written out in full.

| member | source | states |
|---|---|---|
| Shop.Catalogue | lovably-animated-portfolio-main/src/pages/Shop.tsx:51-167 | the page's product list holds exactly eight products, as declared (a missing `isNew`/`isTrending` flag is false) |
| Shop.SearchStep | lovably-animated-portfolio-main/src/pages/Shop.tsx:203-209 | the empty term skips the step; otherwise a product is kept iff the lower-cased term occurs in its lower-cased name, brand or category; order is kept |
| Shop.CategoryStep | lovably-animated-portfolio-main/src/pages/Shop.tsx:212-214 | `'all'` keeps everything; any other id keeps exactly the products of that category, in order |
| Shop.FilteredProducts | lovably-animated-portfolio-main/src/pages/Shop.tsx:199-235 | the sorted result is a permutation of the products that pass both filter steps |
| Shop.FilteredProductsMembers | lovably-animated-portfolio-main/src/pages/Shop.tsx:199-235 | a product is shown iff it is loaded and passes the search and category tests, whatever the sort order |
| Shop.FilteredProductsPermutes | lovably-animated-portfolio-main/src/pages/Shop.tsx:217-232 | sorting neither adds nor drops products, and it never shows a product more often than the catalogue holds it |
| Shop.PriceLowSorted | lovably-animated-portfolio-main/src/pages/Shop.tsx:217-219 | `'price-low'` gives non-decreasing prices |
| Shop.PriceHighSorted | lovably-animated-portfolio-main/src/pages/Shop.tsx:220-222 | `'price-high'` gives non-increasing prices |
| Shop.RatingSorted | lovably-animated-portfolio-main/src/pages/Shop.tsx:223-225 | `'rating'` gives non-increasing ratings |
| Shop.NewestPartitions | lovably-animated-portfolio-main/src/pages/Shop.tsx:226-228 | `'newest'` lists every new product before every other one, each group in its filtered order |
| Shop.FeaturedPartitions | lovably-animated-portfolio-main/src/pages/Shop.tsx:229-230 | any other sort value lists trending products first, each group in its filtered order |
| Shop.InitialViewIsTrendingFirst | lovably-animated-portfolio-main/src/pages/Shop.tsx:199-234 | with no term, `'all'` and `'featured'` every product is shown, trending ones first |
| Shop.ShopPage.constructor | lovably-animated-portfolio-main/src/pages/Shop.tsx:23-31 | the initial page: loading, nothing loaded, empty term, `'all'`, `'featured'`, empty cart and wish list |
| Shop.ShopPage.FinishLoading | lovably-animated-portfolio-main/src/pages/Shop.tsx:189-197 | the start-up timer loads the products, stops loading and the visible list is the pipeline's output |
| Shop.ShopPage.SetSearchTerm | lovably-animated-portfolio-main/src/pages/Shop.tsx:199-235 | a new term reruns the pipeline; products, cart and wish list are untouched |
| Shop.ShopPage.SetCategory | lovably-animated-portfolio-main/src/pages/Shop.tsx:199-235 | a new category reruns the pipeline; nothing else changes |
| Shop.ShopPage.SetSortBy | lovably-animated-portfolio-main/src/pages/Shop.tsx:199-235 | a new sort order reruns the pipeline; nothing else changes |
| Shop.ShopPage.AddToCart | lovably-animated-portfolio-main/src/pages/Shop.tsx:237-239 | appends exactly the given product, duplicates allowed; earlier entries and all else unchanged |
| Shop.ShopPage.ToggleWishlist | lovably-animated-portfolio-main/src/pages/Shop.tsx:241-247 | removes the id if present, else appends it; the id's membership flips and the list stays duplicate-free |
| Lists.SortBySorted | lovably-animated-portfolio-main/src/pages/Shop.tsx:217-232 | the insertion sort orders by its key |
| Lists.SortByStable | lovably-animated-portfolio-main/src/pages/Shop.tsx:217-232 | elements with equal keys keep their relative order |
| Lists.SortByFlagPartitions | lovably-animated-portfolio-main/src/pages/Shop.tsx:226-230 | sorting by a 0/−1 flag key puts the flagged elements first, each group in order |
| Lists.InsertPermutes | lovably-animated-portfolio-main/src/pages/Shop.tsx:217-232 | one insertion step adds exactly that element |
| Lists.ToggleTwiceSameMembers | lovably-animated-portfolio-main/src/pages/Shop.tsx:241-247 | toggling an id twice restores the membership of every id |
| Lists.ToggleKeepsNoDuplicates | lovably-animated-portfolio-main/src/pages/Shop.tsx:241-247 | toggling keeps a duplicate-free list duplicate-free |
| Lists.ToggleTwiceAbsent | lovably-animated-portfolio-main/src/pages/Shop.tsx:241-247 | adding an absent id and removing it again gives back the very same list |
| Lists.MoreLabelAnnounces | lovably-animated-portfolio-main/src/pages/Blog.tsx:341-343 | the number a "+n more" chip reads back is n |
| Lists.TruncateChipsAccountsForAll | lovably-animated-portfolio-main/src/pages/Blog.tsx:335-344 | the chips shown plus the number announced by "+n more" equal the number of items |
| Text.TrimEmptyIffBlank | lovably-animated-portfolio-main/src/components/AIChatbot.tsx:62 | `trim()` gives the empty string exactly for text made only of white space |
| Text.ParseIntRoundTrip | lovably-animated-portfolio-main/src/pages/LiveScore.tsx:498-499 | `parseInt` of a rendered number followed by non-digits gives back that number |
| Text.ToNumberRoundTrip | lovably-animated-portfolio-main/src/pages/LiveScore.tsx:484 | `Number` of a rendered number gives back that number |
| Text.NatToStringRoundTrip | lovably-animated-portfolio-main/src/pages/LiveScore.tsx:491 | reading the decimal digits of a rendered number gives back the number |
| Text.NatToStringInjective | lovably-animated-portfolio-main/src/pages/LiveScore.tsx:479-494 | different numbers render to different decimal strings |
| News.Query | lovably-animated-portfolio-main/src/pages/NewsPage.tsx:63 | each fetcher asks for `'sports'` when the category is `'all'`, and for the category otherwise |
| News.FirstTruthy | lovably-animated-portfolio-main/src/pages/NewsPage.tsx:70 | `a \|\| b \|\| c \|\| fallback` yields the first non-empty operand, or the fallback when none is |
| News.MapArticle | lovably-animated-portfolio-main/src/pages/NewsPage.tsx:66-76 | an article's id is the provider prefix followed by its URL; it carries the provider and category; its image is never empty |
| News.FetchSource | lovably-animated-portfolio-main/src/pages/NewsPage.tsx:61-125 | a thrown error or a missing article array gives no articles; otherwise one well-formed article per raw article |
| News.MergeOrder | lovably-animated-portfolio-main/src/pages/NewsPage.tsx:137 | the merged list holds Apitube's articles, then NewsData's, then GNews's |
| News.MergeSplitsBySource | lovably-animated-portfolio-main/src/pages/NewsPage.tsx:137 | filtering the merged list for NewsData gives back exactly NewsData's list: the providers' blocks do not mix |
| News.FindUrl | lovably-animated-portfolio-main/src/pages/NewsPage.tsx:139 | `findIndex` finds the first position holding the URL, or −1 when there is none |
| News.Dedupe | lovably-animated-portfolio-main/src/pages/NewsPage.tsx:138-140 | kept URLs are pairwise distinct; each kept article is the first of its URL; every URL's first article survives; order is kept |
| News.DedupeIdempotent | lovably-animated-portfolio-main/src/pages/NewsPage.tsx:138-140 | de-duplicating twice equals de-duplicating once |
| News.DedupeDistinct | lovably-animated-portfolio-main/src/pages/NewsPage.tsx:138-140 | a list with distinct URLs is left unchanged |
| News.DedupedIdsDistinct | lovably-animated-portfolio-main/src/pages/NewsPage.tsx:138-140 | after de-duplication the article ids are pairwise distinct too |
| News.NormaliseImage | lovably-animated-portfolio-main/src/pages/NewsPage.tsx:144-161 | the image ends up starting with "http" or "data:"; a missing, "null", "undefined" or placeholder image becomes the placeholder; a usable image is kept |
| News.PlaceholderUsable | lovably-animated-portfolio-main/src/pages/NewsPage.tsx:146-161 | the placeholder image itself passes the usability test, so validation never replaces it again |
| News.Validated | lovably-animated-portfolio-main/src/pages/NewsPage.tsx:143-167 | validation keeps the length and makes every image usable |
| News.ValidateImages | lovably-animated-portfolio-main/src/pages/NewsPage.tsx:143-167 | the loop over the articles yields exactly the validated list |
| News.ValidatedKeepsOtherFields | lovably-animated-portfolio-main/src/pages/NewsPage.tsx:163-166 | validation changes only the image field, position by position |
| News.AggregateDistinct | lovably-animated-portfolio-main/src/pages/NewsPage.tsx:127-175 | the articles published after a fetch have distinct URLs and distinct ids |
| News.FilteredArticles | lovably-animated-portfolio-main/src/pages/NewsPage.tsx:181-185 | when the search does not throw, an article is kept iff its title, or else its description, contains the query ignoring case; order is kept |
| News.SearchThrowsIff | lovably-animated-portfolio-main/src/pages/NewsPage.tsx:182-183 | the search throws (a TypeError during rendering) iff some article has no title, or has a title that misses the query and no description |
| News.CompleteArticlesSearchable | lovably-animated-portfolio-main/src/pages/NewsPage.tsx:181-185 | articles that all carry a title and a description never make the search throw |
| News.EmptyQueryKeepsAll | lovably-animated-portfolio-main/src/pages/NewsPage.tsx:181-185 | once every article has a title, the empty query keeps every article; descriptions are never read |
| News.HoursSince | lovably-animated-portfolio-main/src/pages/NewsPage.tsx:198 | the hour count is the floor of the elapsed milliseconds over 3,600,000 |
| News.FormatDateLabels | lovably-animated-portfolio-main/src/pages/NewsPage.tsx:195-203 | under an hour reads "Just now"; 1 to 23 hours reads "<h>h ago", whose number is h; older reads the locale date |
| News.NewsPage.constructor | lovably-animated-portfolio-main/src/pages/NewsPage.tsx:39-44 | no articles, loading, category `'all'`, empty query, no favourites |
| News.NewsPage.SelectCategory | lovably-animated-portfolio-main/src/pages/NewsPage.tsx:300-303 | the category is selected and loading starts |
| News.NewsPage.CompleteFetch | lovably-animated-portfolio-main/src/pages/NewsPage.tsx:127-175 | the published articles are the merged, de-duplicated, validated list; loading stops; URLs stay distinct |
| News.NewsPage.SetSearchQuery | lovably-animated-portfolio-main/src/pages/NewsPage.tsx:277 | only the query changes |
| News.NewsPage.ToggleFavorite | lovably-animated-portfolio-main/src/pages/NewsPage.tsx:187-193 | the id's favourite membership flips; the list stays duplicate-free |
| LiveScore.MockMatches | lovably-animated-portfolio-main/src/pages/LiveScore.tsx:75-299 | the eight demo matches |
| LiveScore.MockRefreshed | lovably-animated-portfolio-main/src/pages/LiveScore.tsx:426-441 | the fallback is every demo match, in order, with only `date` and `time` replaced by today and now |
| LiveScore.StatusOf | lovably-animated-portfolio-main/src/pages/LiveScore.tsx:336-337 | 'Match not started' → upcoming, 'Match finished' → ended, anything else (missing included) → live, each iff |
| LiveScore.MapCricket | lovably-animated-portfolio-main/src/pages/LiveScore.tsx:331-358 | a cricket match is typed "T20", has no highlights and takes its status from the status mapping |
| LiveScore.MapCricketAll | lovably-animated-portfolio-main/src/pages/LiveScore.tsx:331-358 | one mapped match per provider entry, in order |
| LiveScore.Before | lovably-animated-portfolio-main/src/pages/LiveScore.tsx:481 | `split(c)[0]` is the prefix before the first `c`, or the whole text |
| LiveScore.MapFootball | lovably-animated-portfolio-main/src/pages/LiveScore.tsx:362-387 | the mapper succeeds iff every field it dereferences is present; then the match is live Football |
| LiveScore.MapFootballAll | lovably-animated-portfolio-main/src/pages/LiveScore.tsx:362-387 | the list maps iff every entry maps, one match per entry in order |
| LiveScore.Classify | lovably-animated-portfolio-main/src/pages/LiveScore.tsx:329-389 | a `data` array always takes the cricket branch, so the basketball branch can never be chosen |
| LiveScore.FirstYield | lovably-animated-portfolio-main/src/pages/LiveScore.tsx:315-424 | no result iff no provider yields |
| LiveScore.FirstYieldIsFirstSuccess | lovably-animated-portfolio-main/src/pages/LiveScore.tsx:315-424 | a result comes from some provider, and every provider tried before it yielded nothing |
| LiveScore.FetchLiveScores | lovably-animated-portfolio-main/src/pages/LiveScore.tsx:302-442 | the loop over the providers returns the first yield, or the refreshed demo list |
| LiveScore.FallbackIsMock | lovably-animated-portfolio-main/src/pages/LiveScore.tsx:426-441 | when nothing yields the page gets eight matches equal to the demo ones except date and time |
| LiveScore.CricketPayloadWins | lovably-animated-portfolio-main/src/pages/LiveScore.tsx:329-359 | an ok first response with a `data` array decides the result, even an empty one |
| LiveScore.FailedAttemptFallsThrough | lovably-animated-portfolio-main/src/pages/LiveScore.tsx:419-423 | a failing or unrecognised provider hands over to the rest |
| LiveScore.FilteredMatches | lovably-animated-portfolio-main/src/pages/LiveScore.tsx:545-547 | `'all'` keeps every match; otherwise a match is kept iff its lower-cased type contains the sport id; order kept |
| LiveScore.CricketTabMissesTestAndT20 | lovably-animated-portfolio-main/src/pages/LiveScore.tsx:545-547 | the cricket tab never shows a Test or T20 match |
| LiveScore.DisplayedHighlights | lovably-animated-portfolio-main/src/pages/LiveScore.tsx:884 | at most the first two highlights are shown |
| LiveScore.CricketScoreRoundTrip | lovably-animated-portfolio-main/src/pages/LiveScore.tsx:480-489 | splitting a rendered "runs/wickets" score gives back its runs and wickets |
| LiveScore.SimulateScoreUpdate | lovably-animated-portfolio-main/src/pages/LiveScore.tsx:468-530 | the copy keeps every match but the drawn one, which becomes its updated version |
| LiveScore.CricketUpdateAddsRuns | lovably-animated-portfolio-main/src/pages/LiveScore.tsx:479-494 | a live Cricket/ODI/Test match under 300 runs gains the drawn 1 to 5 runs, keeps its wickets and nothing else changes |
| LiveScore.FootballUpdateAddsGoals | lovably-animated-portfolio-main/src/pages/LiveScore.tsx:495-510 | a firing football update adds 0 or 1 goal to each side and changes nothing else in the match (names and flags included); a draw that does not fire leaves the match as it was |
| LiveScore.BasketballUpdateAddsPoints | lovably-animated-portfolio-main/src/pages/LiveScore.tsx:511-527 | a firing basketball update adds the drawn points to each side and changes nothing else in the match; a draw that does not fire leaves the match as it was |
| LiveScore.ApiCricketNeverSimulated | lovably-animated-portfolio-main/src/pages/LiveScore.tsx:340 | matches from the cricket provider (typed "T20") are never changed by the simulation |
| LiveScore.LiveScorePage.constructor | lovably-animated-portfolio-main/src/pages/LiveScore.tsx:446-453 | before the first fetch the demo list is shown, with sport `'all'` |
| LiveScore.LiveScorePage.Refetched | lovably-animated-portfolio-main/src/pages/LiveScore.tsx:453-458 | a completed query shows the fetched scores |
| LiveScore.LiveScorePage.SelectSport | lovably-animated-portfolio-main/src/pages/LiveScore.tsx:704 | only the selected sport changes |
| LiveScore.LiveScorePage.ScoreUpdateTick | lovably-animated-portfolio-main/src/pages/LiveScore.tsx:465-534 | the tick computes an updated copy and changes no page state, so the shown matches stay as they were |
| Blog.BlogPosts | lovably-animated-portfolio-main/src/pages/Blog.tsx:36-121 | the six posts |
| Blog.SomeTagMatchesIff | lovably-animated-portfolio-main/src/pages/Blog.tsx:128 | `tags.some(...)` holds iff some tag contains the term, ignoring case |
| Blog.FilteredPosts | lovably-animated-portfolio-main/src/pages/Blog.tsx:125-131 | a post is kept iff it matches the term (title, excerpt or a tag) and the category is `'all'` or its own; order kept |
| Blog.UnfilteredKeepsAll | lovably-animated-portfolio-main/src/pages/Blog.tsx:125-131 | an empty term with `'all'` keeps every post in order |
| Blog.EmptyTermFiltersByCategory | lovably-animated-portfolio-main/src/pages/Blog.tsx:125-131 | with an empty term only the category decides |
| Blog.GridAsWritten | lovably-animated-portfolio-main/src/pages/Blog.tsx:298 | the grid as written: the filtered posts minus the first one, whichever it is |
| Blog.Grid | lovably-animated-portfolio-main/src/pages/Blog.tsx:298 | the corrected grid: exactly the filtered posts other than the featured one, in order |
| Blog.BlogView | lovably-animated-portfolio-main/src/pages/Blog.tsx:123-131 | the featured post is always the first declared post; a post is in the grid iff it is filtered in and is not the featured one |
| Blog.GridAgreesWhenFeaturedFirst | lovably-animated-portfolio-main/src/pages/Blog.tsx:298 | when the filtered list starts with the featured post, the code's grid and the corrected grid agree |
| Blog.LoneMatchHidden | lovably-animated-portfolio-main/src/pages/Blog.tsx:298 | a category holding a single post that is not the featured one shows an empty grid as written |
| Blog.JavascriptPostHidden | lovably-animated-portfolio-main/src/pages/Blog.tsx:298 | with category 'javascript' and no term the written grid is empty; the corrected grid shows the post |
| Blog.CardTags | lovably-animated-portfolio-main/src/pages/Blog.tsx:335-344 | at most two tags, "+(n−2) more" exactly when n > 2, together accounting for every tag |
| Portfolio.Projects | lovably-animated-portfolio-main/src/pages/Portfolio.tsx:35-150 | the six projects |
| Portfolio.FilteredProjects | lovably-animated-portfolio-main/src/pages/Portfolio.tsx:152-154 | `'all'` returns every project in order; any other filter returns exactly the projects of that category, in order |
| Portfolio.FilterIdempotent | lovably-animated-portfolio-main/src/pages/Portfolio.tsx:152-154 | filtering a filtered list again changes nothing |
| Portfolio.CategoriesDisjoint | lovably-animated-portfolio-main/src/pages/Portfolio.tsx:152-154 | two different categories share no project |
| Portfolio.CardTechnologies | lovably-animated-portfolio-main/src/pages/Portfolio.tsx:257-266 | at most three technologies, "+(n−3) more" exactly when n > 3, together accounting for every technology |
| Portfolio.PortfolioPage.constructor | lovably-animated-portfolio-main/src/pages/Portfolio.tsx:24-25 | filter `'all'`, no dialog open |
| Portfolio.PortfolioPage.SetFilter | lovably-animated-portfolio-main/src/pages/Portfolio.tsx:199 | only the filter changes |
| Portfolio.PortfolioPage.OpenProject | lovably-animated-portfolio-main/src/pages/Portfolio.tsx:156-158 | the dialog shows the clicked project |
| Portfolio.PortfolioPage.CloseProject | lovably-animated-portfolio-main/src/pages/Portfolio.tsx:160-162 | the dialog closes |
| Chatbot.Greeting | lovably-animated-portfolio-main/src/components/AIChatbot.tsx:37-44 | the greeting is a bot message with id '1' and the fixed text |
| Chatbot.BotResponses | lovably-animated-portfolio-main/src/components/AIChatbot.tsx:77-88 | the ten canned replies |
| Chatbot.SendableIffNotBlank | lovably-animated-portfolio-main/src/components/AIChatbot.tsx:431 | the send guard and the disabled button both hold exactly for blank input |
| Chatbot.ChatWidget.constructor | lovably-animated-portfolio-main/src/components/AIChatbot.tsx:37-47 | the conversation is just the greeting; empty input; not typing or listening |
| Chatbot.ChatWidget.Send | lovably-animated-portfolio-main/src/components/AIChatbot.tsx:61-102 | blank input changes nothing; otherwise one user message with the untrimmed input is appended, the input clears, typing starts and one reply is scheduled |
| Chatbot.ChatWidget.ReplyArrives | lovably-animated-portfolio-main/src/components/AIChatbot.tsx:76-101 | exactly one bot message with one of the ten replies is appended and typing stops |
| Chatbot.ChatWidget.KeyPress | lovably-animated-portfolio-main/src/components/AIChatbot.tsx:104-109 | Enter without Shift on non-blank input appends the user message, clears the input, starts typing and schedules one reply; any other key, or blank input, changes nothing |
| Chatbot.ChatWidget.SendDisabled | lovably-animated-portfolio-main/src/components/AIChatbot.tsx:431 | the send button is disabled exactly while the input is blank after trimming |
| Chatbot.ChatWidget.ToggleListening | lovably-animated-portfolio-main/src/components/AIChatbot.tsx:111-119 | listening flips; only switching it on schedules the voice input |
| Chatbot.ChatWidget.VoiceArrives | lovably-animated-portfolio-main/src/components/AIChatbot.tsx:115-117 | the voice callback fills the input with the fixed text |
| Chatbot.ChatWidget.ResetChat | lovably-animated-portfolio-main/src/components/AIChatbot.tsx:121-128 | exactly one message is left: the greeting with id '1' |
| Chatbot.VoiceTextSendable | lovably-animated-portfolio-main/src/components/AIChatbot.tsx:116 | the voice text is not blank, so it can be sent |
| Contact.WithField | lovably-animated-portfolio-main/src/pages/Contact.tsx:54-60 | the named field takes the value and the other three keep theirs |
| Contact.SameFieldsSameForm | lovably-animated-portfolio-main/src/pages/Contact.tsx:45-50 | the form state is exactly its four fields: forms that agree on every field are equal |
| Contact.LastEditWins | lovably-animated-portfolio-main/src/pages/Contact.tsx:54-60 | typing into a field twice keeps only the last value |
| Contact.EditsCommute | lovably-animated-portfolio-main/src/pages/Contact.tsx:54-60 | edits to different fields commute |
| Contact.EditSameValue | lovably-animated-portfolio-main/src/pages/Contact.tsx:54-60 | writing a field's own value back changes nothing |
| Contact.ContactPage.constructor | lovably-animated-portfolio-main/src/pages/Contact.tsx:45-52 | empty form, not submitting, not submitted |
| Contact.ContactPage.Edit | lovably-animated-portfolio-main/src/pages/Contact.tsx:54-60 | only the named field changes |
| Contact.ContactPage.Submit | lovably-animated-portfolio-main/src/pages/Contact.tsx:62-66 | only the visible, enabled form whose four fields are all non-empty can submit (no thank-you panel, button not disabled, the inputs' `required` check passed); submitting starts; the form is kept; the two flags are never both on |
| Contact.ContactPage.SubmissionCompletes | lovably-animated-portfolio-main/src/pages/Contact.tsx:67-70 | the delay ends: not submitting, submitted, the thank-you panel shows |
| Contact.ContactPage.ResetCompletes | lovably-animated-portfolio-main/src/pages/Contact.tsx:73-81 | the reset delay ends: not submitted and all four fields are empty |
| Contact.ContactPage.ShowsThankYou | lovably-animated-portfolio-main/src/pages/Contact.tsx:463 | the thank-you panel replaces the form exactly while the form is submitted |
| Contact.ContactPage.SubmitDisabled | lovably-animated-portfolio-main/src/pages/Contact.tsx:553 | the submit button is disabled exactly while submitting |
| Contact.AllFilled | lovably-animated-portfolio-main/src/pages/Contact.tsx:492-544 | the four inputs are `required`: the browser lets the submit event through only when no field is empty |
| Contact.FilledAfterEdit | lovably-animated-portfolio-main/src/pages/Contact.tsx:492-544 | after an edit the form passes the `required` check iff the typed value and the three other fields are non-empty |
| Contact.SubmitRoundTrip | lovably-animated-portfolio-main/src/pages/Contact.tsx:62-81 | a whole submission from a filled-in form ends with an empty form and both flags off, so the `required` check blocks the next one until all four fields are typed again |
| Loader.ProgressAfter | lovably-animated-portfolio-main/src/components/Loader.tsx:15-23 | progress after k ticks is 2k up to 100, so it is even and within 0..100 |
| Loader.ProgressMonotone | lovably-animated-portfolio-main/src/components/Loader.tsx:16-21 | progress never decreases |
| Loader.CaptionAfter | lovably-animated-portfolio-main/src/components/Loader.tsx:27-35 | counting the typing ticks since the effect last ran, the caption is always a prefix of the full text, and the whole text after enough ticks |
| Loader.CaptionGrowsByOne | lovably-animated-portfolio-main/src/components/Loader.tsx:29-31 | within one run of the effect, each typing tick after the first adds exactly the next character |
| Loader.LoaderView.constructor | lovably-animated-portfolio-main/src/components/Loader.tsx:9-11 | progress 0, empty caption, both intervals running, the effect run once |
| Loader.LoaderView.ProgressTick | lovably-animated-portfolio-main/src/components/Loader.tsx:15-24 | below 100 progress grows by 2; at 100 the interval stops and one more completion callback is scheduled; while the effect has run only once, completion is scheduled exactly once |
| Loader.LoaderView.TextTick | lovably-animated-portfolio-main/src/components/Loader.tsx:27-35 | the caption shows `textIndex` characters and `textIndex` moves on, or typing stops after the full text; the caption stays a prefix of the text and grows, except on the first tick after the effect ran again |
| Loader.LoaderView.EffectRestart | lovably-animated-portfolio-main/src/components/Loader.tsx:37-41 | a new `onLoadingComplete` closure tears the effect down and runs it again: both intervals run, `textIndex` is 0, progress, caption and completions already scheduled are kept |
| Loader.RestartBlanksCaption | lovably-animated-portfolio-main/src/components/Loader.tsx:27-35 | after the effect runs again, the next typing tick empties the caption whatever it showed |
| Loader.RestartSchedulesCompletionAgain | lovably-animated-portfolio-main/src/components/Loader.tsx:15-24 | an effect run after completion was scheduled makes the next progress tick schedule completion a second time |
| NeonRipple.Charged | lovably-animated-portfolio-main/src/components/NeonRipple.tsx:39 | a click sets energy to min(e + 10, 100) |
| NeonRipple.Drained | lovably-animated-portfolio-main/src/components/NeonRipple.tsx:81 | a decay tick sets energy to max(e − 1, 0) |
| NeonRipple.DrainedByFormula | lovably-animated-portfolio-main/src/components/NeonRipple.tsx:79-85 | k decay ticks leave max(e − k, 0) |
| Lists.WithoutId | lovably-animated-portfolio-main/src/components/NeonRipple.tsx:53-55 | a clean-up `filter(r => r.id !== id)` removes exactly the elements with that id and keeps the rest in order (both ripple overlays) |
| Lists.IdsTrackedAppend | lovably-animated-portfolio-main/src/components/NeonRipple.tsx:42-55 | a click's ripple takes the counter's next id and schedules its clean-up, so ids stay unique, increasing and each with a pending clean-up |
| Lists.IdsTrackedRemove | lovably-animated-portfolio-main/src/components/UltraModernRipple.tsx:81-83 | a clean-up timer removing its id keeps the remaining ids increasing, each still with a pending clean-up |
| NeonRipple.NeonRippleView.constructor | lovably-animated-portfolio-main/src/components/NeonRipple.tsx:15-20 | no ripples, no clicks, no energy, id counter 0 |
| NeonRipple.NeonRippleView.Click | lovably-animated-portfolio-main/src/components/NeonRipple.tsx:33-56 | one more click; energy charged; one ripple appended with the next id; its clean-up scheduled; ids stay increasing; energy stays within 0..100 |
| NeonRipple.NeonRippleView.RemoveRipple | lovably-animated-portfolio-main/src/components/NeonRipple.tsx:53-55 | the clean-up removes only that ripple |
| NeonRipple.NeonRippleView.DrainTick | lovably-animated-portfolio-main/src/components/NeonRipple.tsx:79-85 | energy drains by one, never below 0; nothing else changes |
| NeonRipple.NeonRippleView.EnergyBadgeShown | lovably-animated-portfolio-main/src/components/NeonRipple.tsx:169 | the energy badge shows exactly while energy is above 0 |
| NeonRipple.NeonRippleView.ClicksBadgeShown | lovably-animated-portfolio-main/src/components/NeonRipple.tsx:181 | the click counter shows once there has been a click |
| NeonRipple.NeonRippleView.GlowShown | lovably-animated-portfolio-main/src/components/NeonRipple.tsx:193 | the background glow shows exactly while energy is above 20 |
| UltraRipple.Pick | lovably-animated-portfolio-main/src/components/UltraModernRipple.tsx:52 | `Math.floor(Math.random() * n)` is an index below n |
| UltraRipple.MakeParticle | lovably-animated-portfolio-main/src/components/UltraModernRipple.tsx:70-74 | a particle lies within 50 px of the click on each axis and has a size in [1, 4) |
| UltraRipple.Burst | lovably-animated-portfolio-main/src/components/UltraModernRipple.tsx:69-75 | a click makes eight particles with ids `particleId` to `particleId + 7` |
| UltraRipple.BurstIds | lovably-animated-portfolio-main/src/components/UltraModernRipple.tsx:69-75 | an id belongs to a burst iff it lies in that burst's eight-id range |
| UltraRipple.WithoutBurstMatchesSome | lovably-animated-portfolio-main/src/components/UltraModernRipple.tsx:85-87 | removing by the burst's id range removes the same particles as the `some` test |
| UltraRipple.WithoutBurst | lovably-animated-portfolio-main/src/components/UltraModernRipple.tsx:85-87 | the particle clean-up removes exactly that burst, others kept in order |
| UltraRipple.UltraRippleView.constructor | lovably-animated-portfolio-main/src/components/UltraModernRipple.tsx:22-26 | nothing on screen, all counters 0 |
| UltraRipple.UltraRippleView.CreateRipple | lovably-animated-portfolio-main/src/components/UltraModernRipple.tsx:51-89 | one ripple with id `rippleId` and eight particles are appended; click count and ripple id go up by 1, particle id by 8; both clean-ups are scheduled |
| UltraRipple.UltraRippleView.RippleCleanup | lovably-animated-portfolio-main/src/components/UltraModernRipple.tsx:81-83 | the ripple timer removes only its ripple |
| UltraRipple.UltraRippleView.BurstCleanup | lovably-animated-portfolio-main/src/components/UltraModernRipple.tsx:85-87 | the particle timer removes exactly its click's eight particles |
| PageTransition.TransitionHook.constructor | lovably-animated-portfolio-main/src/hooks/usePageTransition.ts:12-13 | not transitioning, direction 'in' |
| PageTransition.TransitionHook.StartTransition | lovably-animated-portfolio-main/src/hooks/usePageTransition.ts:16-19 | sets the direction and starts transitioning |
| PageTransition.TransitionHook.NavigateWithTransition | lovably-animated-portfolio-main/src/hooks/usePageTransition.ts:21-23 | the exit phase starts ('out', transitioning) and nothing is navigated yet |
| PageTransition.TransitionHook.ExitTimerFires | lovably-animated-portfolio-main/src/hooks/usePageTransition.ts:26-27 | the exit timer navigates once to its path and sets the entrance timer |
| PageTransition.TransitionHook.EnterTimerFires | lovably-animated-portfolio-main/src/hooks/usePageTransition.ts:29-31 | the entrance phase starts ('in', transitioning) |
| PageTransition.TransitionHook.EndTimerFires | lovably-animated-portfolio-main/src/hooks/usePageTransition.ts:33-35 | the transition ends |
| PageTransition.NavigateThrough | lovably-animated-portfolio-main/src/hooks/usePageTransition.ts:21-38 | a navigation runs 'out' → navigate once → 'in' → done, and ends idle with direction 'in' |
| HomeCarousel.Highlights | lovably-animated-portfolio-main/src/pages/Index.tsx:139-161 | the three match highlights |
| HomeCarousel.BackgroundImages | lovably-animated-portfolio-main/src/pages/Index.tsx:87 | the six background pictures |
| HomeCarousel.Advance | lovably-animated-portfolio-main/src/pages/Index.tsx:96 | `(prev + 1) % n` is a valid index that steps by one and wraps to 0 |
| HomeCarousel.AdvanceWithinRound | lovably-animated-portfolio-main/src/pages/Index.tsx:94-99 | within one round, k ticks move a counter k places, wrapping once at most |
| HomeCarousel.FullCycleReturns | lovably-animated-portfolio-main/src/pages/Index.tsx:102-107 | after `length` ticks a counter is back at its start, and not before |
| HomeCarousel.ExactlyOneLit | lovably-animated-portfolio-main/src/pages/Index.tsx:641-647 | exactly one indicator dot is lit, the current one |
| HomeCarousel.HomePage.constructor | lovably-animated-portfolio-main/src/pages/Index.tsx:66-68 | the highlight starts at 0 and the background at 1 |
| HomeCarousel.HomePage.HighlightTick | lovably-animated-portfolio-main/src/pages/Index.tsx:94-99 | the highlight advances by one modulo 3 and stays a valid index |
| HomeCarousel.HomePage.BackgroundTick | lovably-animated-portfolio-main/src/pages/Index.tsx:102-107 | the background advances by one modulo 6 and stays a valid index |
| HomeCarousel.HomePage.SelectIndicator | lovably-animated-portfolio-main/src/pages/Index.tsx:644-646 | clicking dot i shows picture i, and exactly one dot is lit |

## Left out

- Rendering, styling and animation (JSX, Tailwind, framer-motion, GSAP, Three.js), mouse tracking and hover state: presentation only.
- Network I/O: the `fetch` calls, `response.json()` and the `Promise.all` fan-out become input values (`Response`, `Attempt`). The real order and timing of the replies is not modelled.
- Timers and polling: each `setTimeout`/`setInterval` callback is a step method, and the real delays are not modelled. React Query's 15-second refetch and the background-image and highlight intervals become explicit steps.
- `Math.random`, `Date.now()`/`new Date()`, `toLocaleTimeString`/`toLocaleDateString` and `Date` parsing are parameters (`Env`, `Draws`, `ParticleDraw`, `now`, `localeDate`).
- Shop.ShopPage.FinishLoading: takes the loaded list as a parameter. The start-up timer always passes `Catalogue()`. 
- Text.Lower: lower-cases ASCII letters only. Unicode case mapping and Unicode white space are not modelled.
- Text.ToNumber and Text.ParseInt cover unsigned decimal digits only. Signs, decimals, exponents and `Infinity` are not modelled; anything else reads as NaN.
- JavaScript `undefined` on an optional field the code tests (`||`, `?.`, the live-score fields) and on a news article's `title` and `description` is an `Option`. A missing nested object, such as `match.teams` being undefined, is modelled as an empty list or a missing value, as the mappers use them.
- News.MapArticle: a provider article is assumed to carry its `url` (NewsData: `link`). Without one the code builds the id `apitube_undefined` and de-duplication treats every URL-less article as one URL; that case is not modelled.
- LiveScore: the basketball branch of `fetchLiveScores` is kept in the model (`Classify`) but can never be chosen, because its guard repeats the cricket guard. Its mapper is therefore not modelled.
- LiveScore.LiveScorePage.ScoreUpdateTick: the simulation computes a new list and then drops it. The effect never writes it back, so the model does not change the page.
- Chatbot: the widget's open/closed state, the mute toggle and the connection-status badge are UI toggles without logic. They are not modelled.
- NeonRipple and UltraRipple: click coordinates, particle offsets and sizes are reals or integers as given. The colour picks are indices drawn from the palettes. The ripple `size` and `delay` fields are carried but not used.
- UltraRipple.UltraRippleView.CreateRipple: assumes every click sees the counters of the previous click. `createRipple` reads `rippleId`/`particleId` from the render that created it, so two clicks handled before React re-renders would reuse ids. That interleaving is not modelled.
- Contact.ContactPage.Submit: of the browser's form validation, only the `required` check is modelled (`Contact.AllFilled`: no field is empty). The `type="email"` syntax check on the email input is not modelled, so the model also lets a filled-in form with a malformed address submit.
- Loader.LoaderView: when the parent re-renders is not modelled. Index.tsx passes a new `handleLoadingComplete` closure on every render, for example after each mouse move, so `EffectRestart` may happen between any two callbacks. The model lets it happen at any point. A restart does not cancel a completion callback that is already scheduled.
- HomeCarousel: `currentHighlight` is advanced by its interval but never read when rendering. It is modelled as written.
- Blog's `formatDate` and the shop's `formatPrice` are locale formatting by the host library and are not part of this model.
- Long literal texts (post bodies, descriptions, the placeholder SVG) are held as named constants with the same content.
- The static or toggle-only components (About, Services, Footer, marquees, stats boards, navigation) and the float-only computations (percentages, tilt math) are outside this model.

## Findings

| source | as written | input that shows it | evidently intended | confidence | as-written member | corrected member |
|---|---|---|---|---|---|---|
| lovably-animated-portfolio-main/src/pages/Blog.tsx:298 | the grid renders `filteredPosts.slice(1)`, dropping the first filtered post whatever it is | category 'javascript' with an empty search term: only post 2 matches, so the featured section shows post 1 and the grid is empty; post 2 is shown nowhere | the grid shows every filtered post except the featured one | high (not executed) | Blog.GridAsWritten (with Blog.JavascriptPostHidden, Blog.LoneMatchHidden) | Blog.Grid (used by Blog.BlogView) |
