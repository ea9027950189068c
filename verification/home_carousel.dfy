/**
 * The home page's two rotating counters: the match highlight shown, moved
 * on by one interval, and the background picture, moved on by another and
 * set directly by the row of indicator dots. Images are their asset paths.
 */
module HomeCarousel {
  datatype Highlight = Highlight(title: string, subtitle: string, image: string, time: string, isLive: bool)

  function Highlights(): (r: seq<Highlight>)
    ensures |r| == 3
  {
    [Highlight("IPL 2024 Final", "Mumbai Indians vs Chennai Super Kings", "/src/assets/portfolio-1.jpg",
               "Today 7:30 PM", true),
     Highlight("Premier League", "Manchester United vs Arsenal", "/src/assets/portfolio-2.jpg",
               "Tomorrow 8:00 PM", false),
     Highlight("NBA Playoffs", "Lakers vs Warriors", "/src/assets/portfolio-3.jpg",
               "Sunday 9:30 PM", false)]
  }

  function BackgroundImages(): (r: seq<string>)
    ensures |r| == 6
  {
    ["/src/assets/pics1.jpg", "/src/assets/pics2.jpg", "/src/assets/pics3.jpg",
     "/src/assets/pics4.jpg", "/src/assets/pic1.jpg", "/src/assets/pic2.jpg"]
  }

  /** The background the page opens on: the second picture. */
  const FIRST_BACKGROUND: nat := 1

  /** `(prev + 1) % n`: the next position of a counter over `n` entries. */
  function Advance(i: nat, n: nat): (r: nat)
    requires n > 0
    ensures r < n
    ensures i + 1 < n ==> r == i + 1
    ensures i + 1 == n ==> r == 0
  {
    (i + 1) % n
  }

  /** The counter after `k` ticks from `i`. */
  function AdvanceBy(i: nat, n: nat, k: nat): nat
    requires n > 0
  {
    if k == 0 then i else Advance(AdvanceBy(i, n, k - 1), n)
  }

  /** Within one round, `k` ticks move a counter `k` places, wrapping past the end once at most. */
  lemma {:induction false} AdvanceWithinRound(i: nat, n: nat, k: nat)
    requires n > 0 && i < n && k <= n
    ensures AdvanceBy(i, n, k) == if i + k < n then i + k else i + k - n
  {
    if k > 0 {
      AdvanceWithinRound(i, n, k - 1);
    }
  }

  /** After as many ticks as there are entries a counter is back where it started, and not before. */
  lemma FullCycleReturns(i: nat, n: nat)
    requires n > 0 && i < n
    ensures AdvanceBy(i, n, n) == i
    ensures forall k :: 0 < k < n ==> AdvanceBy(i, n, k) != i
  {
    AdvanceWithinRound(i, n, n);
    forall k | 0 < k < n
      ensures AdvanceBy(i, n, k) != i
    {
      AdvanceWithinRound(i, n, k);
    }
  }

  /** The dots under the background: dot `i` is lit when `i` is the current picture. */
  function Indicators(current: nat, n: nat): seq<bool>
  {
    seq(n, i => i == current)
  }

  function CountLit(s: seq<bool>): nat
  {
    if s == [] then 0 else (if s[0] then 1 else 0) + CountLit(s[1..])
  }

  lemma {:induction false} NoneLit(s: seq<bool>)
    requires forall i :: 0 <= i < |s| ==> !s[i]
    ensures CountLit(s) == 0
  {
    if s != [] {
      NoneLit(s[1..]);
    }
  }

  lemma {:induction false} OneLitAt(s: seq<bool>, c: nat)
    requires c < |s| && s[c] && forall i :: 0 <= i < |s| && i != c ==> !s[i]
    ensures CountLit(s) == 1
  {
    if c == 0 {
      NoneLit(s[1..]);
    } else {
      OneLitAt(s[1..], c - 1);
    }
  }

  /** With the current picture in range, exactly one dot is lit, and it is the current one. */
  lemma ExactlyOneLit(current: nat, n: nat)
    requires current < n
    ensures CountLit(Indicators(current, n)) == 1
    ensures Indicators(current, n)[current]
  {
    OneLitAt(Indicators(current, n), current);
  }

  class HomePage {
    var currentHighlight: nat
    var currentBgImage: nat

    /** Both counters index their lists. */
    predicate Valid()
      reads this
    {
      currentHighlight < |Highlights()| && currentBgImage < |BackgroundImages()|
    }

    constructor ()
      ensures Valid()
      ensures currentHighlight == 0 && currentBgImage == FIRST_BACKGROUND
    {
      currentHighlight := 0;
      currentBgImage := FIRST_BACKGROUND;
    }

    /** One tick of the highlight interval. */
    method HighlightTick()
      requires Valid()
      modifies this
      ensures Valid()
      ensures currentHighlight == Advance(old(currentHighlight), |Highlights()|)
      ensures currentBgImage == old(currentBgImage)
    {
      currentHighlight := (currentHighlight + 1) % |Highlights()|;
    }

    /** One tick of the background interval. */
    method BackgroundTick()
      requires Valid()
      modifies this
      ensures Valid()
      ensures currentBgImage == Advance(old(currentBgImage), |BackgroundImages()|)
      ensures currentHighlight == old(currentHighlight)
    {
      currentBgImage := (currentBgImage + 1) % |BackgroundImages()|;
    }

    /** A click on dot `index`: that picture shows and its dot alone is lit. */
    method SelectIndicator(index: nat)
      requires Valid() && index < |BackgroundImages()|
      modifies this
      ensures Valid()
      ensures currentBgImage == index && currentHighlight == old(currentHighlight)
      ensures CountLit(Indicators(currentBgImage, |BackgroundImages()|)) == 1
    {
      currentBgImage := index;
      ExactlyOneLit(index, |BackgroundImages()|);
    }
  }
}
