/** The application controller: the signed-in user, the current screen, the
    report on display, the shared list of every report and of every saved
    product, the pair being compared and the error banner. Browser storage,
    random ids, the clock and the generative model are inputs of the
    handlers. */
module AppController {

  import opened Wrappers
  import opened Types
  import opened Seqs
  import GeminiService
  import PublicFeed
  import Text

  /** The banner shown when an analysis fails, whatever the cause. */
  const AuditFailedMessage: string := "Audit failed. System bottleneck. Try again."

  /** `userHistory`: the signed-in user's reports, in list order; none when
      signed out. */
  function UserHistory(currentUser: Option<User>, all: seq<AnalysisResult>): (r: seq<AnalysisResult>)
    ensures currentUser.None? ==> r == []
    ensures currentUser.Some? ==> forall h :: h in r <==> h in all && h.userId == currentUser.value.id
    ensures currentUser.Some? ==> forall h :: multiset(r)[h] == if h.userId == currentUser.value.id then multiset(all)[h] else 0
    ensures IsSubsequence(r, all)
  {
    match currentUser
    case None => []
    case Some(u) => Filter(all, (h: AnalysisResult) => h.userId == u.id)
  }

  /** `userProducts`: the signed-in user's saved products; none when signed
      out. */
  function UserProducts(currentUser: Option<User>, all: seq<SavedProduct>): (r: seq<SavedProduct>)
    ensures currentUser.None? ==> r == []
    ensures currentUser.Some? ==> forall p :: p in r <==> p in all && p.userId == currentUser.value.id
    ensures currentUser.Some? ==> forall p :: multiset(r)[p] == if p.userId == currentUser.value.id then multiset(all)[p] else 0
    ensures IsSubsequence(r, all)
  {
    match currentUser
    case None => []
    case Some(u) => Filter(all, (p: SavedProduct) => p.userId == u.id)
  }

  /** `publicListings`: every listed report, whoever owns it. */
  function PublicListings(all: seq<AnalysisResult>): (r: seq<AnalysisResult>)
    ensures forall h :: h in r <==> h in all && h.isPublic == Some(true)
    ensures forall h :: multiset(r)[h] == if h.isPublic == Some(true) then multiset(all)[h] else 0
    ensures IsSubsequence(r, all)
  {
    Filter(all, (h: AnalysisResult) => IsPublicOf(h))
  }

  /** `updateGlobalAnalyses`: every report carrying the id of `updated` is
      replaced by it; the others stay where they are. */
  function ReplaceById(list: seq<AnalysisResult>, updated: AnalysisResult): (r: seq<AnalysisResult>)
    ensures |r| == |list|
    ensures forall i :: 0 <= i < |list| && list[i].id == updated.id ==> r[i] == updated
    ensures forall i :: 0 <= i < |list| && list[i].id != updated.id ==> r[i] == list[i]
    ensures forall x :: x in r ==> x in list || x == updated
  {
    if list == [] then []
    else [if list[0].id == updated.id then updated else list[0]] + ReplaceById(list[1..], updated)
  }

  /** Replacing twice with the same report changes nothing more. */
  lemma ReplaceByIdIdempotent(list: seq<AnalysisResult>, updated: AnalysisResult)
    ensures ReplaceById(ReplaceById(list, updated), updated) == ReplaceById(list, updated)
  {
    var once := ReplaceById(list, updated);
    var twice := ReplaceById(once, updated);
    assert forall i :: 0 <= i < |list| ==> twice[i] == once[i];
  }

  /** No rater occurs twice. */
  ghost predicate UniqueRaters(rs: seq<Rating>)
  {
    forall i, j :: 0 <= i < j < |rs| ==> rs[i].userId != rs[j].userId
  }

  /** `findIndex(r => r.userId === userId)`: the position of the rater's
      first rating, or -1. Written out rather than through `Seqs.FindFirst`,
      because two separately written predicate lambdas are not provably equal,
      so the lemmas below could not name the search they are about. */
  function RaterIndex(rs: seq<Rating>, userId: string): (k: int)
    ensures -1 <= k < |rs|
    ensures k == -1 <==> forall i :: 0 <= i < |rs| ==> rs[i].userId != userId
    ensures 0 <= k ==> rs[k].userId == userId && forall i :: 0 <= i < k ==> rs[i].userId != userId
  {
    if rs == [] then -1
    else if rs[0].userId == userId then 0
    else
      var k := RaterIndex(rs[1..], userId);
      if k == -1 then -1 else k + 1
  }

  /** The first rating by a rater is at the index that `RaterIndex` finds. */
  lemma {:induction false} RaterIndexIs(rs: seq<Rating>, userId: string, k: nat)
    requires k < |rs| && rs[k].userId == userId
    requires forall i :: 0 <= i < k ==> rs[i].userId != userId
    ensures RaterIndex(rs, userId) == k
  {
    if k > 0 {
      RaterIndexIs(rs[1..], userId, k - 1);
    }
  }

  /** `handleRate`'s new ratings: the rater's first rating is overwritten in
      place, or a rating is appended when the rater had none. Every other
      rating keeps its value and its position, and with one rating per rater
      before there is one per rater after, the rater's holding `score`. */
  function UpsertRating(rs: seq<Rating>, userId: string, score: int): (r: seq<Rating>)
    ensures (exists i :: 0 <= i < |rs| && rs[i].userId == userId) ==> |r| == |rs|
    ensures (forall i :: 0 <= i < |rs| ==> rs[i].userId != userId) ==> r == rs + [Rating(userId, score)]
    ensures forall i :: 0 <= i < |rs| && rs[i].userId != userId ==> r[i] == rs[i]
    ensures RaterIndex(r, userId) >= 0 && r[RaterIndex(r, userId)] == Rating(userId, score)
    ensures UniqueRaters(rs) ==> UniqueRaters(r)
    ensures UniqueRaters(rs) ==> forall i :: 0 <= i < |r| && r[i].userId == userId ==> r[i].score == score
  {
    var k := RaterIndex(rs, userId);
    if k > -1 then
      var r := rs[k := Rating(userId, score)];
      assert forall i :: 0 <= i < k ==> r[i] == rs[i];
      RaterIndexIs(r, userId, k);
      r
    else
      var r := rs + [Rating(userId, score)];
      assert forall i :: 0 <= i < |rs| ==> r[i] == rs[i];
      RaterIndexIs(r, userId, |rs|);
      r
  }

  /** Overwriting the rating at the rater's first index, or appending one. */
  lemma UpsertRatingShape(rs: seq<Rating>, userId: string, score: int)
    ensures RaterIndex(rs, userId) > -1 ==>
              UpsertRating(rs, userId, score) == rs[RaterIndex(rs, userId) := Rating(userId, score)]
    ensures RaterIndex(rs, userId) == -1 ==> UpsertRating(rs, userId, score) == rs + [Rating(userId, score)]
  {
  }

  /** Overwriting a rating twice at the same index leaves the second. */
  lemma OverwriteTwice(rs: seq<Rating>, userId: string, k: nat, s1: int, s2: int)
    requires k < |rs| && rs[k].userId == userId
    requires forall i :: 0 <= i < k ==> rs[i].userId != userId
    ensures var once := rs[k := Rating(userId, s1)];
            RaterIndex(once, userId) == k && once[k := Rating(userId, s2)] == rs[k := Rating(userId, s2)]
  {
    var once := rs[k := Rating(userId, s1)];
    assert forall i :: 0 <= i < k ==> once[i] == rs[i];
    RaterIndexIs(once, userId, k);
  }

  /** Overwriting an appended rating leaves the second. */
  lemma AppendThenOverwrite(rs: seq<Rating>, userId: string, s1: int, s2: int)
    requires forall i :: 0 <= i < |rs| ==> rs[i].userId != userId
    ensures var once := rs + [Rating(userId, s1)];
            RaterIndex(once, userId) == |rs| && once[|rs| := Rating(userId, s2)] == rs + [Rating(userId, s2)]
  {
    var once := rs + [Rating(userId, s1)];
    assert forall i :: 0 <= i < |rs| ==> once[i] == rs[i];
    RaterIndexIs(once, userId, |rs|);
  }

  /** Rating twice: the second score is what remains. */
  lemma UpsertTwiceLastWins(rs: seq<Rating>, userId: string, s1: int, s2: int)
    ensures UpsertRating(UpsertRating(rs, userId, s1), userId, s2) == UpsertRating(rs, userId, s2)
  {
    var k := RaterIndex(rs, userId);
    var once := UpsertRating(rs, userId, s1);
    UpsertRatingShape(rs, userId, s1);
    UpsertRatingShape(rs, userId, s2);
    UpsertRatingShape(once, userId, s2);
    if k > -1 {
      OverwriteTwice(rs, userId, k, s1, s2);
    } else {
      AppendThenOverwrite(rs, userId, s1, s2);
    }
  }

  /** Ratings from the one-to-ten buttons keep every score within one to
      ten, so the feed's average stays within one to ten. */
  lemma UpsertKeepsScoreRange(rs: seq<Rating>, userId: string, score: int)
    requires PublicFeed.ScoresWithin(rs, 1, 10) && 1 <= score <= 10
    ensures PublicFeed.ScoresWithin(UpsertRating(rs, userId, score), 1, 10)
    ensures 1.0 <= PublicFeed.AvgRating(Some(UpsertRating(rs, userId, score))) <= 10.0
  {
    var r := UpsertRating(rs, userId, score);
    forall i | 0 <= i < |r| ensures 1 <= r[i].score <= 10 {
      if i < |rs| && rs[i].userId != userId {
        assert r[i] == rs[i];
      }
    }
  }

  /** A report with `user`'s rating set to `score`. */
  function WithRating(item: AnalysisResult, userId: string, score: int): (r: AnalysisResult)
    ensures r.ratings == Some(UpsertRating(RatingsOf(item), userId, score))
    ensures r.(ratings := item.ratings) == item
  {
    item.(ratings := Some(UpsertRating(RatingsOf(item), userId, score)))
  }

  /** After rating, the feed shows the rater's own score on that card. */
  lemma RatingShownInFeed(item: AnalysisResult, user: User, score: int)
    ensures PublicFeed.UserRating(WithRating(item, user.id, score), Some(user)) == Some(score)
  {
    var rs := UpsertRating(RatingsOf(item), user.id, score);
    var k := RaterIndex(rs, user.id);
    var shown := PublicFeed.UserRating(WithRating(item, user.id, score), Some(user));
    assert RatingsOf(WithRating(item, user.id, score)) == rs;
    assert rs[k].userId == user.id;
    var i :| 0 <= i < |rs| && rs[i] == Rating(user.id, shown.value)
             && forall j :: 0 <= j < i ==> rs[j].userId != user.id;
    assert i == k;
  }

  /** A report with one more suggestion at the end. */
  function WithSuggestion(item: AnalysisResult, s: Suggestion): (r: AnalysisResult)
    ensures SuggestionsOf(r) == SuggestionsOf(item) + [s]
    ensures r.(suggestions := item.suggestions) == item
  {
    item.(suggestions := Some(SuggestionsOf(item) + [s]))
  }

  /** The analysis result as stored: a fresh id, the author, the time, not
      listed, with no ratings and no suggestions; everything else as the
      model returned it. */
  function Enrich(result: AnalysisResult, user: User, newId: string, now: int): (r: AnalysisResult)
    ensures r.id == newId && r.userId == user.id && r.userName == Some(user.name) && r.timestamp == now
    ensures !IsPublicOf(r) && RatingsOf(r) == [] && SuggestionsOf(r) == []
    ensures r.(id := result.id, userId := result.userId, userName := result.userName, timestamp := result.timestamp,
               isPublic := result.isPublic, ratings := result.ratings, suggestions := result.suggestions) == result
  {
    result.(id := newId, userId := user.id, userName := Some(user.name), timestamp := now,
            isPublic := Some(false), ratings := Some([]), suggestions := Some([]))
  }

  /** A new report heads its author's history and stays out of the public
      listings, which are unchanged by it. */
  lemma NewReportIsPrivate(result: AnalysisResult, user: User, newId: string, now: int, all: seq<AnalysisResult>)
    ensures var e := Enrich(result, user, newId, now);
            UserHistory(Some(user), [e] + all) == [e] + UserHistory(Some(user), all)
            && PublicListings([e] + all) == PublicListings(all)
  {
    var e := Enrich(result, user, newId, now);
    assert ([e] + all)[1..] == all;
  }

  /** A listed report that replaces one in the list is publicly listed. */
  lemma ListedIsPublic(all: seq<AnalysisResult>, r: AnalysisResult, i: nat)
    requires i < |all| && all[i].id == r.id && r.isPublic == Some(true)
    ensures r in PublicListings(ReplaceById(all, r))
  {
    assert ReplaceById(all, r)[i] == r;
  }

  /** Once an unlisted report replaces its id, no report with that id is
      publicly listed. */
  lemma UnlistedIsNotPublic(all: seq<AnalysisResult>, r: AnalysisResult)
    requires r.isPublic == Some(false)
    ensures forall h :: h in PublicListings(ReplaceById(all, r)) ==> h.id != r.id
  {
    var replaced := ReplaceById(all, r);
    forall h | h in PublicListings(replaced) ensures h.id != r.id {
      var j :| 0 <= j < |replaced| && replaced[j] == h;
      assert all[j].id != r.id;
    }
  }

  /** The input an analysis of a saved product starts from: its name, link,
      description and category, the other fields empty. */
  function InputFromSaved(p: SavedProduct): (input: ProductInput)
    ensures input.name == p.name && input.productLink == p.link
    ensures input.description == p.description && input.category == p.category
    ensures input.price == "" && input.targetAudience == "" && input.country == "" && input.platform == ""
  {
    ProductInput(p.name, p.link, p.description, p.category, "", "", "", "")
  }

  /** A saved product analysed runs in the link mode exactly when its link is
      present and not blank, and its prompt falls back to every default but
      the link's. */
  lemma SavedProductPrompt(p: SavedProduct)
    ensures GeminiService.IsModeA(InputFromSaved(p)) <==> p.link.Some? && !Text.Blank(p.link.value)
    ensures var pr := GeminiService.BuildPrompt(InputFromSaved(p));
            pr.price == "N/A" && pr.audience == "N/A" && pr.region == "Global" && pr.platform == "General Web"
  {
  }

  /** `handleDeleteSavedProduct`: every product with that id removed, the
      others kept in order. */
  function DeleteById(ps: seq<SavedProduct>, id: string): (r: seq<SavedProduct>)
    ensures forall p :: p in r <==> p in ps && p.id != id
    ensures forall p :: multiset(r)[p] == if p.id != id then multiset(ps)[p] else 0
    ensures IsSubsequence(r, ps)
    ensures (forall i :: 0 <= i < |ps| ==> ps[i].id != id) ==> r == ps
  {
    var keep := (p: SavedProduct) => p.id != id;
    if forall i :: 0 <= i < |ps| ==> ps[i].id != id then
      FilterAll(ps, keep);
      Filter(ps, keep)
    else Filter(ps, keep)
  }

  /** Deleting a product just added under an id no other product has
      restores the list. */
  lemma DeleteUndoesAdd(ps: seq<SavedProduct>, p: SavedProduct)
    requires forall i :: 0 <= i < |ps| ==> ps[i].id != p.id
    ensures DeleteById([p] + ps, p.id) == ps
  {
    var keep := (x: SavedProduct) => x.id != p.id;
    assert ([p] + ps)[1..] == ps;
    FilterAll(ps, keep);
  }

  /** Every report, and the one on display, has at most one rating per
      rater. */
  ghost predicate RatersUnique(all: seq<AnalysisResult>, report: Option<AnalysisResult>)
  {
    (forall h :: h in all ==> UniqueRaters(RatingsOf(h)))
    && (report.Some? ==> UniqueRaters(RatingsOf(report.value)))
  }

  /** Putting a report with one rating per rater in place of its id, in the
      list and possibly on display, keeps one rating per rater everywhere. */
  lemma ReplaceKeepsRatersUnique(all: seq<AnalysisResult>, report: Option<AnalysisResult>,
                                 updated: AnalysisResult, showUpdated: bool)
    requires RatersUnique(all, report) && UniqueRaters(RatingsOf(updated))
    ensures RatersUnique(ReplaceById(all, updated), if showUpdated then Some(updated) else report)
  {
  }

  class App {
    var currentUser: Option<User>
    var view: ViewState
    var report: Option<AnalysisResult>
    var allAnalyses: seq<AnalysisResult>
    var allSavedProducts: seq<SavedProduct>
    var comparison: Option<(AnalysisResult, AnalysisResult)>
    var error: Option<string>

    /** The invariant every handler keeps: one rating per rater. */
    ghost predicate Valid()
      reads this
    {
      RatersUnique(allAnalyses, report)
    }

    /** The application starts signed out on the sign-in screen with empty
        lists. */
    constructor ()
      ensures currentUser == None && view == Auth && report == None
      ensures allAnalyses == [] && allSavedProducts == [] && comparison == None && error == None
      ensures Valid()
    {
      currentUser := None;
      view := Auth;
      report := None;
      allAnalyses := [];
      allSavedProducts := [];
      comparison := None;
      error := None;
    }

    /** The start-up load: a stored user signs in and opens the home screen;
        stored lists replace the empty ones. */
    method Load(savedUser: Option<User>, savedHist: Option<seq<AnalysisResult>>, savedProds: Option<seq<SavedProduct>>)
      modifies this
      ensures savedUser.Some? ==> currentUser == savedUser && view == Home
      ensures savedUser.None? ==> currentUser == old(currentUser) && view == old(view)
      ensures allAnalyses == savedHist.GetOr(old(allAnalyses))
      ensures allSavedProducts == savedProds.GetOr(old(allSavedProducts))
      ensures report == old(report) && comparison == old(comparison) && error == old(error)
    {
      if savedUser.Some? {
        currentUser := savedUser;
        view := Home;
      }
      if savedHist.Some? {
        allAnalyses := savedHist.value;
      }
      if savedProds.Some? {
        allSavedProducts := savedProds.value;
      }
    }

    /** `handleLogin`. */
    method Login(user: User)
      modifies this
      ensures currentUser == Some(user) && view == Home
      ensures report == old(report) && allAnalyses == old(allAnalyses) && allSavedProducts == old(allSavedProducts)
      ensures comparison == old(comparison) && error == old(error)
      ensures old(Valid()) ==> Valid()
    {
      currentUser := Some(user);
      view := Home;
    }

    /** `handleLogout`: the private views become empty. */
    method Logout()
      modifies this
      ensures currentUser == None && view == Auth
      ensures UserHistory(currentUser, allAnalyses) == [] && UserProducts(currentUser, allSavedProducts) == []
      ensures report == old(report) && allAnalyses == old(allAnalyses) && allSavedProducts == old(allSavedProducts)
      ensures comparison == old(comparison) && error == old(error)
      ensures old(Valid()) ==> Valid()
    {
      currentUser := None;
      view := Auth;
    }

    /** `handleAnalysis`, as one step. Signed out: nothing happens. Otherwise
        the outcome of the analysis of `input` decides: a report is enriched,
        put first in the list and displayed; a failure of any kind shows the
        fixed banner on the form and leaves the list alone. */
    method Analyze(input: ProductInput, ai: GeminiService.Prompt -> GeminiService.Reply,
                   decode: string -> Option<AnalysisResult>, newId: string, now: int)
      modifies this
      ensures old(currentUser).None? ==>
                view == old(view) && report == old(report) && allAnalyses == old(allAnalyses) && error == old(error)
      ensures old(currentUser).Some? && GeminiService.AnalyzeProduct(input, ai, decode).Success? ==>
                var e := Enrich(GeminiService.AnalyzeProduct(input, ai, decode).value, old(currentUser).value, newId, now);
                allAnalyses == [e] + old(allAnalyses) && report == Some(e) && view == Result && error == None
      ensures old(currentUser).Some? && GeminiService.AnalyzeProduct(input, ai, decode).Failure? ==>
                allAnalyses == old(allAnalyses) && report == old(report) && view == Form && error == Some(AuditFailedMessage)
      ensures currentUser == old(currentUser) && allSavedProducts == old(allSavedProducts) && comparison == old(comparison)
      ensures old(Valid()) ==> Valid()
    {
      if currentUser.None? {
        return;
      }
      view := Loading;
      error := None;
      var outcome := GeminiService.AnalyzeProduct(input, ai, decode);
      Finish(outcome, newId, now);
    }

    /** The end of `handleAnalysis` for a signed-in user, once the outcome
        is known. */
    method Finish(outcome: Result<AnalysisResult, string>, newId: string, now: int)
      requires currentUser.Some? && error == None
      modifies this
      ensures currentUser == old(currentUser) && allSavedProducts == old(allSavedProducts) && comparison == old(comparison)
      ensures outcome.Success? ==>
                var e := Enrich(outcome.value, currentUser.value, newId, now);
                allAnalyses == [e] + old(allAnalyses) && report == Some(e) && view == Result && error == None
      ensures outcome.Failure? ==>
                allAnalyses == old(allAnalyses) && report == old(report) && view == Form && error == Some(AuditFailedMessage)
      ensures old(Valid()) ==> Valid()
    {
      match outcome
      case Success(result) =>
        var e := Enrich(result, currentUser.value, newId, now);
        report := Some(e);
        allAnalyses := [e] + allAnalyses;
        view := Result;
      case Failure(_) =>
        error := Some(AuditFailedMessage);
        view := Form;
    }

    /** `handleToggleListing`: only the owner of the displayed report can
        list or unlist it; the flag is the only field that changes, in the
        displayed report and in the list. */
    method ToggleListing(isPublic: bool)
      modifies this
      ensures old(report).None? || !IsOwner(old(currentUser), old(report).value.userId) ==>
                report == old(report) && allAnalyses == old(allAnalyses)
      ensures old(report).Some? && IsOwner(old(currentUser), old(report).value.userId) ==>
                report == Some(old(report).value.(isPublic := Some(isPublic)))
                && allAnalyses == ReplaceById(old(allAnalyses), report.value)
      ensures currentUser == old(currentUser) && view == old(view) && allSavedProducts == old(allSavedProducts)
      ensures comparison == old(comparison) && error == old(error)
      ensures old(Valid()) ==> Valid()
    {
      if report.None? || !IsOwner(currentUser, report.value.userId) {
        return;
      }
      var updated := report.value.(isPublic := Some(isPublic));
      assert RatingsOf(updated) == RatingsOf(report.value);
      if Valid() {
        ReplaceKeepsRatersUnique(allAnalyses, report, updated, true);
      }
      report := Some(updated);
      allAnalyses := ReplaceById(allAnalyses, updated);
    }

    /** `handleRate`: signed in, the first report with that id gets the
        user's rating (overwritten in place or appended to a copy of its
        ratings); the displayed report follows when it has that id. */
    method Rate(productId: string, score: int)
      modifies this
      ensures old(currentUser).None? || FindReport(old(allAnalyses), productId).None? ==>
                report == old(report) && allAnalyses == old(allAnalyses)
      ensures old(currentUser).Some? && FindReport(old(allAnalyses), productId).Some? ==>
                var updated := WithRating(FindReport(old(allAnalyses), productId).value, old(currentUser).value.id, score);
                allAnalyses == ReplaceById(old(allAnalyses), updated)
                && report == (if old(report).Some? && old(report).value.id == productId then Some(updated) else old(report))
      ensures currentUser == old(currentUser) && view == old(view) && allSavedProducts == old(allSavedProducts)
      ensures comparison == old(comparison) && error == old(error)
      ensures old(Valid()) ==> Valid()
    {
      if currentUser.None? {
        return;
      }
      var item := FindReport(allAnalyses, productId);
      if item.None? {
        return;
      }
      var userId := currentUser.value.id;
      var existing := RatingsOf(item.value);
      var idx := RaterIndex(existing, userId);
      var newRatings := existing;
      if idx > -1 {
        newRatings := newRatings[idx := Rating(userId, score)];
      } else {
        newRatings := newRatings + [Rating(userId, score)];
      }
      UpsertRatingShape(existing, userId, score);
      var updated := item.value.(ratings := Some(newRatings));
      assert updated == WithRating(item.value, userId, score);
      var show := report.Some? && report.value.id == productId;
      if Valid() {
        ReplaceKeepsRatersUnique(allAnalyses, report, updated, show);
      }
      if show {
        report := Some(updated);
      }
      allAnalyses := ReplaceById(allAnalyses, updated);
    }

    /** `handleSuggest`: signed in, the first report with that id gets one
        more suggestion at the end, signed with the user's id and name; the
        displayed report follows when it has that id. */
    method Suggest(productId: string, text: string, now: int)
      modifies this
      ensures old(currentUser).None? || FindReport(old(allAnalyses), productId).None? ==>
                report == old(report) && allAnalyses == old(allAnalyses)
      ensures old(currentUser).Some? && FindReport(old(allAnalyses), productId).Some? ==>
                var u := old(currentUser).value;
                var updated := WithSuggestion(FindReport(old(allAnalyses), productId).value,
                                              Suggestion(u.id, u.name, text, now));
                allAnalyses == ReplaceById(old(allAnalyses), updated)
                && report == (if old(report).Some? && old(report).value.id == productId then Some(updated) else old(report))
      ensures currentUser == old(currentUser) && view == old(view) && allSavedProducts == old(allSavedProducts)
      ensures comparison == old(comparison) && error == old(error)
      ensures old(Valid()) ==> Valid()
    {
      if currentUser.None? {
        return;
      }
      var item := FindReport(allAnalyses, productId);
      if item.None? {
        return;
      }
      var s := Suggestion(currentUser.value.id, currentUser.value.name, text, now);
      var updated := WithSuggestion(item.value, s);
      assert RatingsOf(updated) == RatingsOf(item.value);
      var show := report.Some? && report.value.id == productId;
      if Valid() {
        ReplaceKeepsRatersUnique(allAnalyses, report, updated, show);
      }
      if show {
        report := Some(updated);
      }
      allAnalyses := ReplaceById(allAnalyses, updated);
    }

    /** `handleAddSavedProduct`: signed in, the new product comes first,
        owned by the user. */
    method AddSavedProduct(name: string, link: Option<string>, description: string, category: string,
                           newId: string, now: int)
      modifies this
      ensures old(currentUser).None? ==> allSavedProducts == old(allSavedProducts)
      ensures old(currentUser).Some? ==>
                allSavedProducts == [SavedProduct(newId, old(currentUser).value.id, name, link, description, category, now)]
                                    + old(allSavedProducts)
      ensures currentUser == old(currentUser) && view == old(view) && report == old(report)
      ensures allAnalyses == old(allAnalyses) && comparison == old(comparison) && error == old(error)
      ensures old(Valid()) ==> Valid()
    {
      if currentUser.None? {
        return;
      }
      var p := SavedProduct(newId, currentUser.value.id, name, link, description, category, now);
      allSavedProducts := [p] + allSavedProducts;
    }

    /** `handleDeleteSavedProduct`: no owner check is made. */
    method DeleteSavedProduct(id: string)
      modifies this
      ensures allSavedProducts == DeleteById(old(allSavedProducts), id)
      ensures currentUser == old(currentUser) && view == old(view) && report == old(report)
      ensures allAnalyses == old(allAnalyses) && comparison == old(comparison) && error == old(error)
      ensures old(Valid()) ==> Valid()
    {
      allSavedProducts := DeleteById(allSavedProducts, id);
    }

    /** `handleCompare`. */
    method Compare(p1: AnalysisResult, p2: AnalysisResult)
      modifies this
      ensures comparison == Some((p1, p2)) && view == CompareTwo
      ensures currentUser == old(currentUser) && report == old(report) && allAnalyses == old(allAnalyses)
      ensures allSavedProducts == old(allSavedProducts) && error == old(error)
      ensures old(Valid()) ==> Valid()
    {
      comparison := Some((p1, p2));
      view := CompareTwo;
    }

    /** Opening a report from the feed or from the history. */
    method ShowReport(r: AnalysisResult)
      modifies this
      ensures report == Some(r) && view == Result
      ensures currentUser == old(currentUser) && allAnalyses == old(allAnalyses)
      ensures allSavedProducts == old(allSavedProducts) && comparison == old(comparison) && error == old(error)
      ensures old(Valid()) && r in allAnalyses ==> Valid()
    {
      report := Some(r);
      view := Result;
    }

    /** The navigation buttons and the back buttons: only the screen changes. */
    method Navigate(v: ViewState)
      modifies this
      ensures view == v
      ensures currentUser == old(currentUser) && report == old(report) && allAnalyses == old(allAnalyses)
      ensures allSavedProducts == old(allSavedProducts) && comparison == old(comparison) && error == old(error)
      ensures old(Valid()) ==> Valid()
    {
      view := v;
    }

    /** The logo leads home, but only when signed in. */
    method ClickLogo()
      modifies this
      ensures old(currentUser).Some? ==> view == Home
      ensures old(currentUser).None? ==> view == old(view)
      ensures currentUser == old(currentUser) && report == old(report) && allAnalyses == old(allAnalyses)
      ensures allSavedProducts == old(allSavedProducts) && comparison == old(comparison) && error == old(error)
      ensures old(Valid()) ==> Valid()
    {
      if currentUser.Some? {
        view := Home;
      }
    }
  }
}
