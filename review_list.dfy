/**
 * The review list logic embedded in both Google Reviews widget scripts:
 * the rating distribution, sorting, the five-per-page window, the Load More
 * button and its guard, and liking a review.
 */
module ReviewList {
  import opened Wrappers

  /** A star rating; 0 stands for a missing rating, which is falsy. */
  type Rating = r: int | 0 <= r <= 5

  /** One review as the place details return it; `time` is in seconds and may be missing. */
  datatype Review = Review(rating: Rating, time: Option<nat>, authorName: Option<string>, text: string)

  const ReviewsPerPage: nat := 5

  /** Number of reviews rated `stars`. */
  function CountRating(rs: seq<Review>, stars: int): nat {
    if rs == [] then 0
    else CountRating(rs[..|rs| - 1], stars) + (if rs[|rs| - 1].rating == stars then 1 else 0)
  }

  /** Number of reviews with a (truthy) rating. */
  function CountRated(rs: seq<Review>): nat {
    if rs == [] then 0
    else CountRated(rs[..|rs| - 1]) + (if rs[|rs| - 1].rating != 0 then 1 else 0)
  }

  datatype StarCount = StarCount(stars: int, count: nat)

  /**
   * `getRatingDistribution`: the entries for 5, 4, 3, 2 and 1 stars, in that
   * order, each with the number of reviews so rated; unrated reviews are skipped.
   */
  method RatingDistribution(reviews: seq<Review>) returns (dist: seq<StarCount>)
    ensures |dist| == 5
    ensures forall i :: 0 <= i < 5 ==> dist[i].stars == 5 - i && dist[i].count == CountRating(reviews, 5 - i)
  {
    var counts: map<int, nat> := map[5 := 0, 4 := 0, 3 := 0, 2 := 0, 1 := 0];
    var k := 0;
    while k < |reviews|
      invariant 0 <= k <= |reviews|
      invariant forall s :: 1 <= s <= 5 ==> s in counts && counts[s] == CountRating(reviews[..k], s)
    {
      assert reviews[..k + 1][..k] == reviews[..k];
      var r := reviews[k].rating;
      if r != 0 {
        counts := counts[r := counts[r] + 1];
      }
      k := k + 1;
    }
    assert reviews[..k] == reviews;
    dist := [StarCount(5, counts[5]), StarCount(4, counts[4]), StarCount(3, counts[3]),
             StarCount(2, counts[2]), StarCount(1, counts[1])];
  }

  /** The five counts add up to the number of rated reviews. */
  lemma {:induction false} DistributionTotal(rs: seq<Review>)
    ensures CountRating(rs, 5) + CountRating(rs, 4) + CountRating(rs, 3) + CountRating(rs, 2) + CountRating(rs, 1)
            == CountRated(rs) <= |rs|
  {
    if rs != [] {
      DistributionTotal(rs[..|rs| - 1]);
    }
  }

  // Sorting

  predicate KnownSortOption(option: string) {
    option == "highest" || option == "lowest" || option == "newest" || option == "oldest"
  }

  /** `(r.rating || 0)` for the rating orders, `(r.time || 0)` for the time orders. */
  function SortKey(r: Review, option: string): int {
    if option == "highest" || option == "lowest" then r.rating else r.time.GetOr(0)
  }

  predicate Descending(option: string) {
    option == "highest" || option == "newest"
  }

  /** `a` may come before `b` in the order `option` asks for. */
  predicate RanksFirst(a: Review, b: Review, option: string) {
    if Descending(option) then SortKey(a, option) >= SortKey(b, option) else SortKey(a, option) <= SortKey(b, option)
  }

  predicate SortedFor(rs: seq<Review>, option: string) {
    forall i, j :: 0 <= i < j < |rs| ==> RanksFirst(rs[i], rs[j], option)
  }

  /** Insert `x` in front of the first element it ranks ahead of or equal to. */
  function Insert(x: Review, rs: seq<Review>, option: string): (r: seq<Review>)
    ensures multiset(r) == multiset(rs) + multiset{x}
  {
    if rs == [] then [x]
    else if RanksFirst(x, rs[0], option) then [x] + rs
    else
      assert rs == [rs[0]] + rs[1..];
      [rs[0]] + Insert(x, rs[1..], option)
  }

  /** The order is total: of two reviews, one may always come first. */
  lemma RanksTotal(a: Review, b: Review, option: string)
    ensures RanksFirst(a, b, option) || RanksFirst(b, a, option)
  {
  }

  lemma {:induction false} InsertSorted(x: Review, rs: seq<Review>, option: string)
    requires SortedFor(rs, option)
    ensures SortedFor(Insert(x, rs, option), option)
  {
    if rs != [] && !RanksFirst(x, rs[0], option) {
      var rest := Insert(x, rs[1..], option);
      InsertSorted(x, rs[1..], option);
      RanksTotal(x, rs[0], option);
      forall j | 0 <= j < |rest|
        ensures RanksFirst(rs[0], rest[j], option)
      {
        assert rest[j] in multiset(rest);
        assert rest[j] == x || rest[j] in multiset(rs[1..]);
        if rest[j] != x {
          var m :| 0 <= m < |rs[1..]| && rs[1..][m] == rest[j];
          assert rs[m + 1] == rest[j];
        }
      }
    }
  }

  /** The order `sorted.sort(...)` produces for a known option; an unknown option leaves the copy as it is. */
  function SortReviews(rs: seq<Review>, option: string): (r: seq<Review>)
    ensures multiset(r) == multiset(rs)
    ensures KnownSortOption(option) ==> SortedFor(r, option)
    ensures !KnownSortOption(option) ==> r == rs
  {
    if !KnownSortOption(option) || rs == [] then rs
    else
      var rest := SortReviews(rs[1..], option);
      assert rs == [rs[0]] + rs[1..];
      InsertSorted(rs[0], rest, option);
      Insert(rs[0], rest, option)
  }

  /** Under `highest` the first review carries the best rating of all. */
  lemma {:induction false} HighestFirst(rs: seq<Review>, k: nat)
    requires k < |rs|
    ensures rs[k].rating <= SortReviews(rs, "highest")[0].rating
  {
    var s := SortReviews(rs, "highest");
    assert rs[k] in multiset(s);
    var j :| 0 <= j < |s| && s[j] == rs[k];
    if j > 0 { assert RanksFirst(s[0], s[j], "highest"); }
  }

  // Paging

  /** `sorted.slice((page - 1) * 5, (page - 1) * 5 + 5)`, with the clamping of `slice`. */
  function Page(rs: seq<Review>, page: nat): (r: seq<Review>)
    requires page >= 1
    ensures |r| <= ReviewsPerPage
    ensures (page - 1) * ReviewsPerPage >= |rs| ==> r == []
    ensures (page - 1) * ReviewsPerPage < |rs| ==> r != []
  {
    var start := (page - 1) * ReviewsPerPage;
    var end := start + ReviewsPerPage;
    if start >= |rs| then [] else rs[start..if end <= |rs| then end else |rs|]
  }

  /** Page `page` holds the reviews at positions `(page - 1) * 5` onwards, in order. */
  lemma PageIsWindow(rs: seq<Review>, page: nat)
    requires page >= 1
    ensures forall j :: 0 <= j < |Page(rs, page)| ==>
      (page - 1) * ReviewsPerPage + j < |rs| && Page(rs, page)[j] == rs[(page - 1) * ReviewsPerPage + j]
  {
    var start := (page - 1) * ReviewsPerPage;
    var end := if start + ReviewsPerPage <= |rs| then start + ReviewsPerPage else |rs|;
    if start < |rs| {
      var r := Page(rs, page);
      assert r == rs[start..end];
      forall j | 0 <= j < |r|
        ensures start + j < |rs| && r[j] == rs[start + j]
      {
      }
    } else {
      assert Page(rs, page) == [];
    }
  }

  /** Review `i` is on page `i / 5 + 1`, at position `i % 5`, and on no other page. */
  lemma PageHoldsIndex(rs: seq<Review>, i: nat, page: nat)
    requires i < |rs| && page >= 1
    ensures page == i / ReviewsPerPage + 1 ==>
      |Page(rs, page)| > i % ReviewsPerPage && Page(rs, page)[i % ReviewsPerPage] == rs[i]
    ensures page != i / ReviewsPerPage + 1 ==>
      i < (page - 1) * ReviewsPerPage || i >= (page - 1) * ReviewsPerPage + |Page(rs, page)|
  {
  }

  datatype LoadMoreButton = Hidden | Disabled | Enabled

  /** The server without escaping: rendered when there are more than 5 reviews, disabled once the last page is shown. */
  function LoadMorePlain(count: nat, page: nat): (b: LoadMoreButton)
    ensures b == Hidden <==> count <= ReviewsPerPage
    ensures b == Enabled <==> count > ReviewsPerPage && page * ReviewsPerPage < count
  {
    if count <= ReviewsPerPage then Hidden
    else if page * ReviewsPerPage >= count then Disabled
    else Enabled
  }

  /** The server with escaping: shown only while there are more than 5 reviews and a further page. */
  function LoadMoreSafe(count: nat, page: nat): (b: LoadMoreButton)
    ensures b != Disabled
    ensures b == Enabled <==> LoadMorePlain(count, page) == Enabled
  {
    if count > ReviewsPerPage && page * ReviewsPerPage < count then Enabled else Hidden
  }

  /** `if (currentPage * reviewsPerPage < reviews.length) currentPage++`. */
  function NextPage(count: nat, page: nat): (p: nat)
    ensures p == page || p == page + 1
    ensures p == page + 1 <==> page * ReviewsPerPage < count
  {
    if page * ReviewsPerPage < count then page + 1 else page
  }

  /**
   * In both scripts the button is usable exactly when a click moves to a
   * further page, and that page is not empty.
   */
  lemma {:induction false} LoadMoreAgreesWithGuard(rs: seq<Review>, page: nat)
    requires page >= 1
    ensures LoadMorePlain(|rs|, page) == Enabled <==> NextPage(|rs|, page) == page + 1
    ensures LoadMoreSafe(|rs|, page) == Enabled <==> NextPage(|rs|, page) == page + 1
    ensures NextPage(|rs|, page) == page + 1 ==> Page(rs, page + 1) != []
  {
    if page * ReviewsPerPage < |rs| {
      assert |rs| > ReviewsPerPage by {
        assert page * ReviewsPerPage >= ReviewsPerPage;
      }
    }
  }

  /** The list state shared by both scripts: the page is at least 1 and never past the last non-empty page. */
  predicate PageInRange(count: nat, page: nat) {
    page >= 1 && (page == 1 || (page - 1) * ReviewsPerPage < count)
  }

  /** The list state of the script that keeps likes by position in memory. */
  class IndexedReviewList {
    var reviews: seq<Review>
    var sortOption: string
    var currentPage: nat
    var likedReviews: set<nat>

    predicate Valid()
      reads this
    {
      PageInRange(|reviews|, currentPage)
    }

    constructor (reviews: seq<Review>)
      ensures this.reviews == reviews && sortOption == "newest" && currentPage == 1 && likedReviews == {}
      ensures Valid()
    {
      this.reviews := reviews;
      sortOption := "newest";
      currentPage := 1;
      likedReviews := {};
    }

    /** `updateDisplayedReviews`. */
    function Displayed(): seq<Review>
      reads this
      requires currentPage >= 1
    {
      Page(SortReviews(reviews, sortOption), currentPage)
    }

    /** The sort select's change handler. */
    method ChangeSort(option: string)
      modifies this
      ensures sortOption == option && currentPage == 1
      ensures reviews == old(reviews) && likedReviews == old(likedReviews)
      ensures Valid()
    {
      sortOption := option;
      currentPage := 1;
    }

    /** The Load More click handler. */
    method LoadMore()
      modifies this
      ensures currentPage == NextPage(|reviews|, old(currentPage))
      ensures reviews == old(reviews) && sortOption == old(sortOption) && likedReviews == old(likedReviews)
      ensures old(Valid()) ==> Valid()
    {
      if currentPage * ReviewsPerPage < |reviews| {
        currentPage := currentPage + 1;
      }
    }

    /** `toggleLike(index)`: flip the index's membership in the liked set. */
    method ToggleLike(index: nat)
      modifies this
      ensures likedReviews == (if index in old(likedReviews) then old(likedReviews) - {index} else old(likedReviews) + {index})
      ensures reviews == old(reviews) && sortOption == old(sortOption) && currentPage == old(currentPage)
    {
      if index in likedReviews {
        likedReviews := likedReviews - {index};
      } else {
        likedReviews := likedReviews + {index};
      }
    }
  }

  /** The list state of the script that keeps likes by review id and persists likes and sort order. */
  class PersistentReviewList {
    var reviews: seq<Review>
    var sortOption: string
    var currentPage: nat
    var likedReviews: map<string, bool>
    /** `localStorage['likedReviews']` and `localStorage['sortOption']`. */
    var storedLikes: map<string, bool>
    var storedSort: Option<string>

    predicate Valid()
      reads this
    {
      PageInRange(|reviews|, currentPage)
    }

    /** Start-up: likes from storage (or none), the stored sort order or `newest` when none or empty is stored. */
    constructor (reviews: seq<Review>, storedLikes: map<string, bool>, storedSort: Option<string>)
      ensures this.reviews == reviews && this.storedLikes == storedLikes && this.storedSort == storedSort
      ensures likedReviews == storedLikes && currentPage == 1
      ensures sortOption == (if storedSort.Some? && storedSort.value != [] then storedSort.value else "newest")
      ensures Valid()
    {
      this.reviews := reviews;
      this.storedLikes := storedLikes;
      this.storedSort := storedSort;
      likedReviews := storedLikes;
      currentPage := 1;
      sortOption := if storedSort.Some? && storedSort.value != [] then storedSort.value else "newest";
    }

    /** The sort select's change handler: the choice is persisted and the page reset. */
    method ChangeSort(option: string)
      modifies this
      ensures sortOption == option && storedSort == Some(option) && currentPage == 1
      ensures reviews == old(reviews) && likedReviews == old(likedReviews) && storedLikes == old(storedLikes)
      ensures Valid()
    {
      sortOption := option;
      storedSort := Some(option);
      currentPage := 1;
    }

    method LoadMore()
      modifies this
      ensures currentPage == NextPage(|reviews|, old(currentPage))
      ensures reviews == old(reviews) && sortOption == old(sortOption) && likedReviews == old(likedReviews)
      ensures storedLikes == old(storedLikes) && storedSort == old(storedSort)
      ensures old(Valid()) ==> Valid()
    {
      if currentPage * ReviewsPerPage < |reviews| {
        currentPage := currentPage + 1;
      }
    }

    /** `toggleLike(reviewId)`: a liked id is deleted, any other set to true; the map is persisted. */
    method ToggleLike(reviewId: string)
      modifies this
      ensures likedReviews == ToggledLikes(old(likedReviews), reviewId)
      ensures storedLikes == likedReviews
      ensures reviews == old(reviews) && sortOption == old(sortOption) && currentPage == old(currentPage)
      ensures storedSort == old(storedSort)
    {
      if reviewId in likedReviews && likedReviews[reviewId] {
        likedReviews := likedReviews - {reviewId};
      } else {
        likedReviews := likedReviews[reviewId := true];
      }
      storedLikes := likedReviews;
    }
  }

  /** The likes after `toggleLike(id)`: a liked id is deleted, any other set to true. */
  function ToggledLikes(likes: map<string, bool>, id: string): (r: map<string, bool>)
    ensures (id in r && r[id]) <==> !(id in likes && likes[id])
    ensures forall k :: k != id ==> (k in r <==> k in likes)
    ensures forall k :: k != id && k in r ==> r[k] == likes[k]
  {
    if id in likes && likes[id] then likes - {id} else likes[id := true]
  }

  /** Liking an id and liking it again restores the likes, unless the id was stored as `false`. */
  lemma LikeTwiceRestores(likes: map<string, bool>, id: string)
    requires id !in likes || likes[id]
    ensures ToggledLikes(ToggledLikes(likes, id), id) == likes
  {
    if id in likes {
      assert (likes - {id})[id := true] == likes;
    } else {
      assert likes[id := true] - {id} == likes;
    }
  }

  /** An id stored as `false` is not restored: two toggles delete it. */
  lemma LikeTwiceDropsFalse(likes: map<string, bool>, id: string)
    requires id in likes && !likes[id]
    ensures ToggledLikes(ToggledLikes(likes, id), id) == likes - {id}
  {
  }
}
