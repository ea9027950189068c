/**
 * The blog page: the six built-in posts, the search and category filter,
 * the featured post, the grid of further posts and the tag chips on a card.
 */
module Blog {
  import opened Optional
  import opened Text
  import opened Lists

  datatype Post = Post(
    id: nat,
    title: string,
    excerpt: string,
    content: string,
    image: string,
    category: string,
    author: string,
    date: string,
    readTime: string,
    views: nat,
    likes: nat,
    tags: seq<string>)

  const TITLE_1: string := "Building Modern Web Applications with React 18"
  const EXCERPT_1: string :=
    "Learn how to leverage the latest features in React 18 to build faster, more efficient web applications with improved performance and user experience."
  const CONTENT_1: string :=
    "React 18 introduces several groundbreaking features that revolutionize how we build web applications. From concurrent rendering to automatic batching, these improvements make our apps faster and more responsive..."

  function Post1(): Post
  {
    Post(1, TITLE_1, EXCERPT_1, CONTENT_1,
         "/src/assets/portfolio-1.jpg", "react", "Daksh Gupta", "2024-01-15", "8 min read", 1247, 89,
         ["React", "JavaScript", "Web Development"])
  }

  const TITLE_2: string := "The Complete Guide to TypeScript for Beginners"
  const EXCERPT_2: string :=
    "Master TypeScript from the ground up with this comprehensive guide covering types, interfaces, generics, and advanced patterns."
  const CONTENT_2: string :=
    "TypeScript has become an essential tool in modern web development. It provides static typing to JavaScript, making our code more reliable and easier to maintain..."

  function Post2(): Post
  {
    Post(2, TITLE_2, EXCERPT_2, CONTENT_2,
         "/src/assets/portfolio-2.jpg", "javascript", "Daksh Gupta", "2024-01-10", "12 min read", 2156, 156,
         ["TypeScript", "JavaScript", "Programming"])
  }

  const TITLE_3: string := "10 Performance Optimization Techniques for Web Apps"
  const EXCERPT_3: string :=
    "Discover proven strategies to improve your web application performance and deliver a better user experience."
  const CONTENT_3: string :=
    "Performance is crucial for user experience and SEO. In this comprehensive guide, we'll explore various techniques to optimize your web applications..."

  function Post3(): Post
  {
    Post(3, TITLE_3, EXCERPT_3, CONTENT_3,
         "/src/assets/portfolio-3.jpg", "tips", "Daksh Gupta", "2024-01-05", "10 min read", 1893, 234,
         ["Performance", "Optimization", "Web Development"])
  }

  const TITLE_4: string := "Creating Responsive Designs with Tailwind CSS"
  const EXCERPT_4: string :=
    "Master the art of responsive web design using Tailwind CSS utility-first approach and modern design principles."
  const CONTENT_4: string :=
    "Tailwind CSS has revolutionized how we approach styling in web development. Its utility-first methodology allows for rapid development and consistent design..."

  function Post4(): Post
  {
    Post(4, TITLE_4, EXCERPT_4, CONTENT_4,
         "/src/assets/portfolio-1.jpg", "web-development", "Daksh Gupta", "2023-12-28", "15 min read", 3421, 298,
         ["CSS", "Tailwind", "Design"])
  }

  const TITLE_5: string := "State Management in React: Redux vs Context API"
  const EXCERPT_5: string :=
    "Compare different state management solutions in React and learn when to use each approach for optimal application architecture."
  const CONTENT_5: string :=
    "State management is a critical aspect of React applications. Choosing the right solution can significantly impact your app's performance and maintainability..."

  function Post5(): Post
  {
    Post(5, TITLE_5, EXCERPT_5, CONTENT_5,
         "/src/assets/portfolio-2.jpg", "react", "Daksh Gupta", "2023-12-20", "14 min read", 2765, 187,
         ["React", "Redux", "State Management"])
  }

  const TITLE_6: string := "Building REST APIs with Node.js and Express"
  const EXCERPT_6: string :=
    "Step-by-step tutorial on creating robust REST APIs using Node.js, Express, and best practices for production deployment."
  const CONTENT_6: string :=
    "REST APIs are the backbone of modern web applications. In this tutorial, we'll build a complete API from scratch using Node.js and Express..."

  function Post6(): Post
  {
    Post(6, TITLE_6, EXCERPT_6, CONTENT_6,
         "/src/assets/portfolio-3.jpg", "tutorial", "Daksh Gupta", "2023-12-15", "20 min read", 3987, 345,
         ["Node.js", "Express", "API"])
  }

  /** The posts in declaration order. */
  function BlogPosts(): (r: seq<Post>)
    ensures |r| == 6
  {
    [Post1(), Post2(), Post3(), Post4(), Post5(), Post6()]
  }

  /** `tags.some(tag => tag.toLowerCase().includes(term.toLowerCase()))`. */
  predicate SomeTagMatches(tags: seq<string>, term: string)
  {
    tags != [] && (ContainsIgnoreCase(tags[0], term) || SomeTagMatches(tags[1..], term))
  }

  lemma {:induction false} SomeTagMatchesIff(tags: seq<string>, term: string)
    ensures SomeTagMatches(tags, term) <==> exists i :: 0 <= i < |tags| && ContainsIgnoreCase(tags[i], term)
  {
    if tags != [] {
      SomeTagMatchesIff(tags[1..], term);
      assert forall i :: 1 <= i < |tags| ==> tags[i] == tags[1..][i - 1];
      if exists i :: 0 <= i < |tags| && ContainsIgnoreCase(tags[i], term) {
        var i :| 0 <= i < |tags| && ContainsIgnoreCase(tags[i], term);
        if i > 0 {
          assert ContainsIgnoreCase(tags[1..][i - 1], term);
        }
      }
    }
  }

  predicate MatchesSearch(p: Post, term: string)
  {
    ContainsIgnoreCase(p.title, term) || ContainsIgnoreCase(p.excerpt, term) || SomeTagMatches(p.tags, term)
  }

  predicate MatchesCategory(p: Post, category: string)
  {
    category == "all" || p.category == category
  }

  function PostTest(term: string, category: string): Post -> bool
  {
    (p: Post) => MatchesSearch(p, term) && MatchesCategory(p, category)
  }

  /** `filteredPosts`: the posts that match both the search term and the category, in their order. */
  function FilteredPosts(posts: seq<Post>, term: string, category: string): (r: seq<Post>)
    ensures forall x | x in r :: x in posts && MatchesSearch(x, term) && MatchesCategory(x, category)
    ensures forall x | x in posts && MatchesSearch(x, term) && MatchesCategory(x, category) :: x in r
    ensures Subsequence(r, posts)
  {
    FilterMembers(posts, PostTest(term, category));
    FilterIsSubsequence(posts, PostTest(term, category));
    Filter(posts, PostTest(term, category))
  }

  /** With no search term and the "all" category every post is listed, in declaration order. */
  lemma UnfilteredKeepsAll(posts: seq<Post>)
    ensures FilteredPosts(posts, "", "all") == posts
  {
    forall i | 0 <= i < |posts|
      ensures PostTest("", "all")(posts[i])
    {
      EmptyQueryMatches(posts[i].title);
    }
    FilterKeepsAll(posts, PostTest("", "all"));
  }

  /** With no search term the filter is the category test alone. */
  lemma EmptyTermFiltersByCategory(posts: seq<Post>, category: string)
    ensures FilteredPosts(posts, "", category) == Filter(posts, (p: Post) => MatchesCategory(p, category))
  {
    forall i | 0 <= i < |posts|
      ensures PostTest("", category)(posts[i]) == MatchesCategory(posts[i], category)
    {
      EmptyQueryMatches(posts[i].title);
    }
    FilterSameTest(posts, PostTest("", category), (p: Post) => MatchesCategory(p, category));
  }

  /** What the page shows: the featured post, which is always the first post, and the grid. */
  datatype View = View(featured: Post, grid: seq<Post>)

  /** The grid as written: the filtered posts without the first of them, whichever post that is. */
  function GridAsWritten(filtered: seq<Post>): (r: seq<Post>)
    ensures |r| == if |filtered| == 0 then 0 else |filtered| - 1
    ensures forall i :: 0 <= i < |r| ==> r[i] == filtered[i + 1]
  {
    if filtered == [] then [] else filtered[1..]
  }

  /** The grid as evidently intended: the filtered posts other than the featured one. */
  function Grid(filtered: seq<Post>, featured: Post): (r: seq<Post>)
    ensures forall x | x in r :: x in filtered && x.id != featured.id
    ensures forall x | x in filtered && x.id != featured.id :: x in r
    ensures Subsequence(r, filtered)
  {
    var test := (p: Post) => p.id != featured.id;
    FilterMembers(filtered, test);
    FilterIsSubsequence(filtered, test);
    Filter(filtered, test)
  }

  /**
   * The page for a search term and a category: the featured post is the
   * first post whatever the search and category, and the grid lists the
   * other matching posts.
   */
  function BlogView(posts: seq<Post>, term: string, category: string): (v: View)
    requires posts != []
    ensures v.featured == posts[0]
    ensures forall x | x in v.grid :: x in posts && x.id != posts[0].id && MatchesSearch(x, term) && MatchesCategory(x, category)
    ensures forall x | x in posts && x.id != posts[0].id && MatchesSearch(x, term) && MatchesCategory(x, category) :: x in v.grid
  {
    View(posts[0], Grid(FilteredPosts(posts, term, category), posts[0]))
  }

  /**
   * When the featured post heads the filtered list (always so for the
   * "all" category with no search term), dropping the first post and
   * dropping the featured post agree.
   */
  lemma GridAgreesWhenFeaturedFirst(filtered: seq<Post>, featured: Post)
    requires filtered != [] && filtered[0] == featured
    requires forall i :: 1 <= i < |filtered| ==> filtered[i].id != featured.id
    ensures Grid(filtered, featured) == GridAsWritten(filtered)
  {
    var test := (p: Post) => p.id != featured.id;
    FilterCons(filtered[0], filtered[1..], test);
    assert [filtered[0]] + filtered[1..] == filtered;
    FilterKeepsAll(filtered[1..], test);
  }

  /**
   * When a category holds only the second post, the grid as written shows
   * nothing, so that post, which is not the featured one, is shown
   * nowhere; the intended grid shows it.
   */
  lemma {:induction false} LoneMatchHidden(posts: seq<Post>, category: string)
    requires |posts| >= 2 && category != "all"
    requires posts[1].category == category && posts[1].id != posts[0].id
    requires forall i :: 0 <= i < |posts| && i != 1 ==> posts[i].category != category
    ensures FilteredPosts(posts, "", category) == [posts[1]]
    ensures GridAsWritten(FilteredPosts(posts, "", category)) == []
    ensures BlogView(posts, "", category).grid == [posts[1]]
  {
    var test := (p: Post) => MatchesCategory(p, category);
    EmptyTermFiltersByCategory(posts, category);
    var rest := posts[2..];
    assert posts == [posts[0]] + ([posts[1]] + rest);
    FilterCons(posts[0], [posts[1]] + rest, test);
    FilterCons(posts[1], rest, test);
    assert forall i :: 0 <= i < |rest| ==> rest[i] == posts[i + 2];
    FilterDropsAll(rest, test);
    assert [posts[1]] + [] == [posts[1]];
    FilterCons(posts[1], [], (p: Post) => p.id != posts[0].id);
  }

  /** The second post is the only "javascript" post, so the grid as written hides it. */
  lemma JavascriptPostHidden()
    ensures GridAsWritten(FilteredPosts(BlogPosts(), "", "javascript")) == []
    ensures BlogView(BlogPosts(), "", "javascript").grid == [BlogPosts()[1]]
  {
    LoneMatchHidden(BlogPosts(), "javascript");
  }

  /** A card's tag chips: the first two tags and, past two, a "+n more" chip. */
  function CardTags(p: Post): (c: Chips)
    ensures |c.shown| <= 2 && c.shown <= p.tags
    ensures c.more.Some? <==> |p.tags| > 2
    ensures |p.tags| > 2 ==> c.more == Some(MoreLabel(|p.tags| - 2))
    ensures AccountedFor(c) == |p.tags|
  {
    TruncateChipsAccountsForAll(p.tags, 2);
    TruncateChips(p.tags, 2)
  }
}
