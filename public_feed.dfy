/** The discovery feed: average ratings, the price-category filter, the four
    sort orders, the category list, and the per-card rules (the viewer's own
    rating, the owner label, the feedback panel, the rating buttons and the
    suggestion box). */
module PublicFeed {

  import opened Wrappers
  import opened Types
  import opened Seqs
  import opened Text

  /** The filter value that keeps every product. */
  const AllFilter: string := "All"

  /** The label for an owner without a name. */
  const AnonymousOwner: string := "Market Pro"

  /** The sort menu: trending (the default), highest rated, newest and best
      market score. */
  datatype SortOrder = ByTrending | ByRating | ByNewest | ByScore

  /** `ratings.reduce((acc, r) => acc + r.score, 0)`. */
  function ScoreSum(rs: seq<Rating>): (sum: int)
    ensures rs == [] ==> sum == 0
    ensures |rs| == 1 ==> sum == rs[0].score
  {
    if rs == [] then 0 else ScoreSum(rs[..|rs| - 1]) + rs[|rs| - 1].score
  }

  /** The sum splits over concatenation, so it does not depend on where the
      list is cut: the same total whichever end the rating was added at. */
  lemma {:induction false} ScoreSumAppend(a: seq<Rating>, b: seq<Rating>)
    ensures ScoreSum(a + b) == ScoreSum(a) + ScoreSum(b)
  {
    if b != [] {
      assert (a + b)[..|a + b| - 1] == a + b[..|b| - 1];
      ScoreSumAppend(a, b[..|b| - 1]);
    } else {
      assert a + b == a;
    }
  }

  /** Every score lies in `lo..hi`. */
  ghost predicate ScoresWithin(rs: seq<Rating>, lo: int, hi: int)
  {
    forall i :: 0 <= i < |rs| ==> lo <= rs[i].score <= hi
  }

  /** A sum of scores in `lo..hi` lies between `lo` and `hi` times the count. */
  lemma {:induction false} ScoreSumBounds(rs: seq<Rating>, lo: int, hi: int)
    requires ScoresWithin(rs, lo, hi)
    ensures lo * |rs| <= ScoreSum(rs) <= hi * |rs|
  {
    if rs != [] {
      var init := rs[..|rs| - 1];
      var n := |init|;
      ScoreSumBounds(init, lo, hi);
      assert lo <= rs[n].score <= hi;
      assert lo * (n + 1) == lo * n + lo;
      assert hi * (n + 1) == hi * n + hi;
    }
  }

  /** A quotient lies between the bounds its numerator has per unit of the
      denominator. */
  lemma QuotientBounds(sum: real, n: real, lo: real, hi: real)
    requires n > 0.0 && lo * n <= sum <= hi * n
    ensures lo <= sum / n <= hi
  {
    var q := sum / n;
    assert q * n == sum;
  }

  /** A total of `n` scores between 1 and 10, divided by `n`, lies between
      1 and 10. */
  lemma MeanBounds(sum: int, n: int)
    requires 0 < n && n <= sum <= 10 * n
    ensures 1.0 <= (sum as real) / (n as real) <= 10.0
  {
    assert 1.0 * (n as real) <= sum as real <= 10.0 * (n as real);
    QuotientBounds(sum as real, n as real, 1.0, 10.0);
  }

  /** The mean of scores between 1 and 10 is between 1 and 10. */
  lemma MeanWithinScoreRange(rs: seq<Rating>)
    ensures rs != [] && ScoresWithin(rs, 1, 10) ==>
              1.0 <= (ScoreSum(rs) as real) / (|rs| as real) <= 10.0
  {
    if rs != [] && ScoresWithin(rs, 1, 10) {
      ScoreSumBounds(rs, 1, 10);
      MeanBounds(ScoreSum(rs), |rs|);
    }
  }

  /** `getAvgRating`: 0 for absent or empty ratings, otherwise the mean
      score, which stays within 1..10 when every score does. */
  function AvgRating(ratings: Option<seq<Rating>>): (avg: real)
    ensures ratings.None? || ratings.value == [] ==> avg == 0.0
    ensures ratings.Some? && ratings.value != [] ==>
              avg * (|ratings.value| as real) == ScoreSum(ratings.value) as real
    ensures ratings.Some? && ScoresWithin(ratings.value, 1, 10) && ratings.value != [] ==>
              1.0 <= avg <= 10.0
  {
    match ratings
    case None => 0.0
    case Some(rs) =>
      if rs == [] then 0.0
      else
        var n := |rs| as real;
        var sum := ScoreSum(rs) as real;
        MeanWithinScoreRange(rs);
        sum / n
  }

  /** The filter test: "All" keeps every product; any other value keeps the
      products whose price positioning contains it. */
  predicate Matches(filter: string, p: AnalysisResult): (keep: bool)
    ensures filter == AllFilter ==> keep
    ensures filter != AllFilter ==> (keep <==> exists k :: OccursAt(p.normalization.pricePositioning, filter, k))
  {
    filter == AllFilter || Contains(p.normalization.pricePositioning, filter)
  }

  /** The products the category filter keeps, in their order. */
  function FilterByCategory(products: seq<AnalysisResult>, filter: string): (r: seq<AnalysisResult>)
    ensures forall p :: p in r <==> p in products && Matches(filter, p)
    ensures forall p :: multiset(r)[p] == if Matches(filter, p) then multiset(products)[p] else 0
    ensures IsSubsequence(r, products)
    ensures filter == AllFilter ==> r == products
  {
    var keep := (p: AnalysisResult) => Matches(filter, p);
    if filter == AllFilter then
      FilterAll(products, keep);
      Filter(products, keep)
    else Filter(products, keep)
  }

  function NewestKey(p: AnalysisResult): real
  {
    p.timestamp as real
  }

  function LowestRiskKey(p: AnalysisResult): real
  {
    -(p.failureRiskScore as real)
  }

  function RatingKey(p: AnalysisResult): real
  {
    AvgRating(p.ratings)
  }

  /** The comparator of each sort order, as the key a stable sort puts in
      descending order: trending falls back to newest first, score puts the
      lowest failure risk first, rating the highest average first. */
  function SortKey(order: SortOrder): AnalysisResult -> real
  {
    match order
    case ByTrending => NewestKey
    case ByNewest => NewestKey
    case ByScore => LowestRiskKey
    case ByRating => RatingKey
  }

  /** What each sort order promises about neighbouring products. */
  ghost predicate OrderedBy(r: seq<AnalysisResult>, order: SortOrder)
  {
    match order
    case ByTrending => forall i, j :: 0 <= i < j < |r| ==> r[i].timestamp >= r[j].timestamp
    case ByNewest => forall i, j :: 0 <= i < j < |r| ==> r[i].timestamp >= r[j].timestamp
    case ByScore => forall i, j :: 0 <= i < j < |r| ==> r[i].failureRiskScore <= r[j].failureRiskScore
    case ByRating => forall i, j :: 0 <= i < j < |r| ==> AvgRating(r[i].ratings) >= AvgRating(r[j].ratings)
  }

  /** Descending order of an order's key is what that order promises. */
  lemma SortKeyOrders(r: seq<AnalysisResult>, order: SortOrder)
    requires SortedDesc(r, SortKey(order))
    ensures OrderedBy(r, order)
  {
    var key := SortKey(order);
    assert forall i, j :: 0 <= i < j < |r| ==> key(r[i]) >= key(r[j]);
  }

  /** Sequences with the same elements counted alike have the same members. */
  lemma SameMembers<T>(a: seq<T>, b: seq<T>)
    requires multiset(a) == multiset(b)
    ensures forall x :: x in a <==> x in b
  {
    forall x ensures x in a <==> x in b {
      assert x in a <==> x in multiset(a);
      assert x in b <==> x in multiset(b);
    }
  }

  /** `sortedProducts`: the products the filter keeps, each exactly as often
      as in the feed, ordered as the selected sort order asks. */
  function SortedProducts(products: seq<AnalysisResult>, order: SortOrder, filter: string): (r: seq<AnalysisResult>)
    ensures multiset(r) == multiset(FilterByCategory(products, filter))
    ensures forall p :: p in r <==> p in products && Matches(filter, p)
    ensures OrderedBy(r, order)
  {
    var kept := FilterByCategory(products, filter);
    var r := SortDesc(kept, SortKey(order));
    SortKeyOrders(r, order);
    SameMembers(r, kept);
    r
  }

  /** Trending and newest list the same products in the same order. */
  lemma TrendingIsNewest(products: seq<AnalysisResult>, filter: string)
    ensures SortedProducts(products, ByTrending, filter) == SortedProducts(products, ByNewest, filter)
  {
  }

  /** The first word of every product's price positioning, in feed order. */
  function FirstWords(products: seq<AnalysisResult>): (ws: seq<string>)
    ensures |ws| == |products|
    ensures forall i :: 0 <= i < |products| ==> ws[i] == FirstWord(products[i].normalization.pricePositioning)
  {
    seq(|products|, i requires 0 <= i < |products| => FirstWord(products[i].normalization.pricePositioning))
  }

  /** `categories`: "All", then each first word of a price positioning once,
      in the order the words first occur in the feed. */
  function Categories(products: seq<AnalysisResult>): (cs: seq<string>)
    ensures |cs| >= 1 && cs[0] == AllFilter
    ensures forall c :: c in cs[1..] <==>
              exists i :: 0 <= i < |products| && FirstWord(products[i].normalization.pricePositioning) == c
    ensures NoDup(cs[1..])
    ensures forall i :: 1 <= i < |cs| ==> cs[i] in FirstWords(products)
    ensures forall i, j :: 1 <= i < j < |cs| ==>
              FirstIndex(FirstWords(products), cs[i]) < FirstIndex(FirstWords(products), cs[j])
  {
    var ws := FirstWords(products);
    var d := Distinct(ws);
    var cs := [AllFilter] + d;
    assert cs[1..] == d;
    forall c ensures c in d <==> exists i :: 0 <= i < |products| && FirstWord(products[i].normalization.pricePositioning) == c {
      if c in ws {
        var i :| 0 <= i < |ws| && ws[i] == c;
        assert FirstWord(products[i].normalization.pricePositioning) == c;
      }
    }
    cs
  }

  /** Picking a category offered for a product keeps that product in the
      listing, whatever the sort order. */
  lemma {:induction false} CategoryKeepsItsSource(products: seq<AnalysisResult>, order: SortOrder, i: nat)
    requires i < |products|
    ensures FirstWord(products[i].normalization.pricePositioning) in Categories(products)
    ensures products[i] in SortedProducts(products, order, FirstWord(products[i].normalization.pricePositioning))
  {
    var pp := products[i].normalization.pricePositioning;
    var w := FirstWord(pp);
    var cs := Categories(products);
    assert w in cs[1..];
    ContainsAt(pp, w, 0);
  }

  /** `userRating`: the score of the viewer's first rating of `p`; nothing when
      signed out or when the viewer has not rated it. */
  function UserRating(p: AnalysisResult, currentUser: Option<User>): (r: Option<int>)
    ensures r.None? <==> (currentUser.None? ||
              forall i :: 0 <= i < |RatingsOf(p)| ==> RatingsOf(p)[i].userId != currentUser.value.id)
    ensures r.Some? ==> exists i :: 0 <= i < |RatingsOf(p)| && RatingsOf(p)[i] == Rating(currentUser.value.id, r.value)
                           && forall j :: 0 <= j < i ==> RatingsOf(p)[j].userId != currentUser.value.id
  {
    match currentUser
    case None => None
    case Some(u) =>
      match Find(RatingsOf(p), (x: Rating) => x.userId == u.id)
      case None => None
      case Some(x) => Some(x.score)
  }

  /** What one card of the feed shows about its product. */
  datatype Card = Card(
    avg: real,
    userRating: Option<int>,
    listedBy: string,
    viability: int,
    detailsLabel: string,
    ratingCount: nat,
    suggestionCount: nat)

  /** One card: the owner sees "You" and "Full Analysis"; anyone else sees the
      owner's name (or "Market Pro" for a missing or empty name) and "Public
      Summary". */
  function CardFor(p: AnalysisResult, currentUser: Option<User>): (c: Card)
    ensures c.avg == AvgRating(p.ratings) && c.userRating == UserRating(p, currentUser)
    ensures c.viability == Viability(p)
    ensures IsOwner(currentUser, p.userId) ==> c.listedBy == "You" && c.detailsLabel == "Full Analysis"
    ensures !IsOwner(currentUser, p.userId) ==> c.detailsLabel == "Public Summary"
    ensures !IsOwner(currentUser, p.userId) && p.userName.Some? && p.userName.value != "" ==> c.listedBy == p.userName.value
    ensures !IsOwner(currentUser, p.userId) && (p.userName.None? || p.userName.value == "") ==> c.listedBy == AnonymousOwner
    ensures c.ratingCount == |RatingsOf(p)| && c.suggestionCount == |SuggestionsOf(p)|
  {
    var owner := IsOwner(currentUser, p.userId);
    var name := p.userName.GetOr("");
    Card(
      AvgRating(p.ratings),
      UserRating(p, currentUser),
      if owner then "You" else if name == "" then AnonymousOwner else name,
      100 - p.failureRiskScore,
      if owner then "Full Analysis" else "Public Summary",
      |RatingsOf(p)|,
      |SuggestionsOf(p)|)
  }

  /** The scores the rating buttons send: one to ten. */
  function RatingButtons(): (s: seq<int>)
    ensures |s| == 10
    ensures forall i :: 0 <= i < |s| ==> s[i] == i + 1
  {
    [1, 2, 3, 4, 5, 6, 7, 8, 9, 10]
  }

  /** The next value of `activeDetailsId` after clicking a card's feedback
      button: its panel closes if it was open, and otherwise opens in place of
      any other. */
  function ToggleDetails(active: Option<string>, id: string): (next: Option<string>)
    ensures next.None? <==> active == Some(id)
    ensures next.Some? ==> next.value == id
  {
    if active == Some(id) then None else Some(id)
  }

  /** What the suggestion box sends: the draft, untrimmed, unless it is blank,
      in which case nothing is sent. */
  function SuggestionToSend(draft: string): (sent: Option<string>)
    ensures sent.Some? <==> !Blank(draft)
    ensures sent.Some? ==> sent.value == draft
  {
    TrimEmptyIffBlank(draft);
    if Trim(draft) != "" then Some(draft) else None
  }

  /** The feed's own state: the sort order, the category filter, the card
      whose feedback panel is open and the suggestion being typed (one draft
      shared by every card). */
  class Feed {
    var sortBy: SortOrder
    var filterCategory: string
    var activeDetailsId: Option<string>
    var newSuggestion: string

    /** The feed opens trending, unfiltered, with every panel closed. */
    constructor ()
      ensures sortBy == ByTrending && filterCategory == AllFilter
      ensures activeDetailsId == None && newSuggestion == ""
    {
      sortBy := ByTrending;
      filterCategory := AllFilter;
      activeDetailsId := None;
      newSuggestion := "";
    }

    /** The listing as currently sorted and filtered. */
    function Listing(products: seq<AnalysisResult>): seq<AnalysisResult>
      reads this
    {
      SortedProducts(products, sortBy, filterCategory)
    }

    /** Whether the feedback panel of product `id` is open. */
    predicate PanelOpen(id: string)
      reads this
    {
      activeDetailsId == Some(id)
    }

    method SetSort(order: SortOrder)
      modifies this
      ensures sortBy == order
      ensures filterCategory == old(filterCategory) && activeDetailsId == old(activeDetailsId)
      ensures newSuggestion == old(newSuggestion)
    {
      sortBy := order;
    }

    method SetFilter(category: string)
      modifies this
      ensures filterCategory == category
      ensures sortBy == old(sortBy) && activeDetailsId == old(activeDetailsId)
      ensures newSuggestion == old(newSuggestion)
    {
      filterCategory := category;
    }

    /** Clicking a card's feedback button: at most one panel is open after. */
    method ClickFeedback(id: string)
      modifies this
      ensures activeDetailsId == ToggleDetails(old(activeDetailsId), id)
      ensures PanelOpen(id) <==> !old(PanelOpen(id))
      ensures forall other :: other != id ==> !PanelOpen(other)
      ensures sortBy == old(sortBy) && filterCategory == old(filterCategory)
      ensures newSuggestion == old(newSuggestion)
    {
      if activeDetailsId == Some(id) {
        activeDetailsId := None;
      } else {
        activeDetailsId := Some(id);
      }
    }

    method TypeSuggestion(text: string)
      modifies this
      ensures newSuggestion == text
      ensures sortBy == old(sortBy) && filterCategory == old(filterCategory)
      ensures activeDetailsId == old(activeDetailsId)
    {
      newSuggestion := text;
    }

    /** The submit button, which exists only inside the open feedback panel:
        a draft that is not blank is sent as typed to the product whose panel
        is open, and the box is cleared; a blank draft is neither sent nor
        cleared. */
    method SubmitSuggestion() returns (sent: Option<(string, string)>)
      requires activeDetailsId.Some?
      modifies this
      ensures sent.Some? <==> SuggestionToSend(old(newSuggestion)).Some?
      ensures sent.Some? ==> sent.value == (old(activeDetailsId).value, old(newSuggestion))
      ensures sent.Some? ==> newSuggestion == ""
      ensures sent.None? ==> newSuggestion == old(newSuggestion)
      ensures sortBy == old(sortBy) && filterCategory == old(filterCategory)
      ensures activeDetailsId == old(activeDetailsId)
    {
      TrimEmptyIffBlank(newSuggestion);
      if Trim(newSuggestion) != "" {
        sent := Some((activeDetailsId.value, newSuggestion));
        newSuggestion := "";
      } else {
        sent := None;
      }
    }
  }
}
