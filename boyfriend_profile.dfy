/** The public page of one companion: the gallery with its main image, the review
    list with its "Load More" pager, the review form and the links. */
module BoyfriendProfile {
  import opened Common
  import opened Domain
  import Api
  import Url

  /** A review as listed; the author's name and photo are "" when absent. */
  datatype Review = Review(authorName: string, authorImage: string, rating: int, comment: string)

  /** One page of `getReviews`; `pages` is 0 when the server omits it. */
  datatype ReviewPage = ReviewPage(reviews: seq<Review>, pages: nat)

  /** The body of `createReview`. */
  datatype ReviewRequest = ReviewRequest(boyfriendId: string, rating: int, comment: string)

  const PreviewId := "preview"
  const LoadFailedMessage := "Failed to load profile"
  const ReviewFailedMessage := "Failed to submit review"
  const DefaultImage := "https://images.unsplash.com/photo-1500648767791-00dcc994a43e?w=500&auto=format&fit=crop&q=60"
  const DefaultRating := 5

  /** The large photo: the chosen gallery image, else the profile photo, else the
      first gallery image, else a stock photo. */
  function DisplayedImage(mainImage: string, b: Boyfriend): (src: string)
    ensures mainImage != "" ==> src == mainImage
    ensures mainImage == "" && b.profileImage != "" ==> src == b.profileImage
    ensures mainImage == "" && b.profileImage == "" && |b.images| > 0 && b.images[0] != "" ==> src == b.images[0]
    ensures mainImage == "" && b.profileImage == "" && (|b.images| == 0 || b.images[0] == "") ==> src == DefaultImage
  {
    OrElse(mainImage, OrElse(b.profileImage, OrElse(if |b.images| > 0 then b.images[0] else "", DefaultImage)))
  }

  /** The image a loaded profile starts on: its first gallery image, if it has a gallery. */
  function InitialMainImage(previous: string, b: Boyfriend): string {
    if |b.images| > 0 then b.images[0] else previous
  }

  /** Right after loading, a profile with a non-empty first gallery image shows it. */
  lemma LoadedShowsFirstImage(b: Boyfriend)
    requires |b.images| > 0 && b.images[0] != ""
    ensures DisplayedImage(InitialMainImage("", b), b) == b.images[0]
  {
  }

  /** Star `star` of the review form is lit exactly when it is at most the chosen rating. */
  function StarHighlighted(star: int, rating: int): bool {
    star <= rating
  }

  /** The five stars of the review form, lit or not, left to right. */
  function LitStars(rating: int): (lit: seq<bool>)
    ensures |lit| == 5
    ensures forall i :: 0 <= i < 5 ==> lit[i] == StarHighlighted(i + 1, rating)
  {
    seq(5, i requires 0 <= i < 5 => StarHighlighted(i + 1, rating))
  }

  function Repeat(b: bool, n: nat): (r: seq<bool>)
    ensures |r| == n && forall i :: 0 <= i < n ==> r[i] == b
  {
    seq(n, _ => b)
  }

  /** A rating of 1..5 lights exactly that many stars, all of them first. */
  lemma StarsLitPrefix(rating: int)
    requires 1 <= rating <= 5
    ensures LitStars(rating) == Repeat(true, rating) + Repeat(false, 5 - rating)
  {
    var lit := LitStars(rating);
    var expected := Repeat(true, rating) + Repeat(false, 5 - rating);
    assert |lit| == |expected|;
    forall i | 0 <= i < 5
      ensures lit[i] == expected[i]
    {
      if i < rating {
        assert expected[i] == true;
      } else {
        assert expected[i] == Repeat(false, 5 - rating)[i - rating];
      }
    }
  }

  /** `handle.replace('@', '')`: only the first '@' is removed. */
  function WithoutFirstAt(handle: string): (r: string)
    ensures '@' !in handle ==> r == handle
    ensures '@' in handle ==> r == Url.Before(handle, '@') + Url.After(handle, '@').value
    ensures |r| == |handle| || |r| == |handle| - 1
  {
    if handle == "" then ""
    else if handle[0] == '@' then handle[1..]
    else [handle[0]] + WithoutFirstAt(handle[1..])
  }

  function InstagramUrl(handle: string): string {
    "https://instagram.com/" + WithoutFirstAt(handle)
  }

  /** A handle written "@name" links to the profile "name", even when "name" has
      another '@' in it. */
  lemma InstagramHandle(name: string)
    ensures InstagramUrl("@" + name) == "https://instagram.com/" + name
  {
    assert ("@" + name)[1..] == name;
  }

  /** The location line, with "Location Hidden" as the fallback. */
  function LocationLabel(b: Boyfriend): string {
    LocationOr(b.location, "Location Hidden")
  }

  /** The chat link: the account id when the account is populated, else nothing. */
  function ChatLink(b: Boyfriend): (link: string)
    ensures b.account.Some? ==> link == "/chats/" + b.account.value.id
    ensures b.account.None? ==> link == "/chats/"
  {
    "/chats/" + (if b.account.Some? then b.account.value.id else "")
  }

  class Page {
    const id: string
    var boyfriend: Option<Boyfriend>
    var loading: bool
    var error: Option<string>
    var mainImage: string
    var reviews: seq<Review>
    var reviewPage: nat
    var reviewTotalPages: nat
    var newRating: int
    var newComment: string
    var submittingReview: bool

    constructor(routeId: string)
      ensures id == routeId && boyfriend == None && loading && error == None && mainImage == ""
      ensures reviews == [] && reviewPage == 1 && reviewTotalPages == 1
      ensures newRating == DefaultRating && newComment == "" && !submittingReview
    {
      id := routeId;
      boyfriend := None;
      loading := true;
      error := None;
      mainImage := "";
      reviews := [];
      reviewPage := 1;
      reviewTotalPages := 1;
      newRating := DefaultRating;
      newComment := "";
      submittingReview := false;
    }

    /** "Load More" is offered while the list is non-empty and pages remain. */
    predicate ShowLoadMore()
      reads this
    {
      |reviews| > 0 && reviewPage < reviewTotalPages
    }

    /** The load effect: the profile and the first review page together. The preview
        id loads nothing and the page keeps its loading skeleton. */
    method Load(reply: Reply<(Boyfriend, ReviewPage)>) returns (fetched: bool)
      modifies this
      ensures fetched <==> id != PreviewId
      ensures !fetched ==>
        boyfriend == old(boyfriend) && loading == old(loading) && error == old(error)
        && mainImage == old(mainImage) && reviews == old(reviews) && reviewTotalPages == old(reviewTotalPages)
      ensures fetched ==> !loading
      ensures fetched && reply.Ok? ==>
        boyfriend == Some(reply.data.0) && error == old(error)
        && mainImage == InitialMainImage(old(mainImage), reply.data.0)
        && reviews == reply.data.1.reviews
        && reviewTotalPages == (if reply.data.1.pages == 0 then 1 else reply.data.1.pages)
      ensures fetched && reply.Err? ==>
        error == Some(LoadFailedMessage) && boyfriend == old(boyfriend)
        && mainImage == old(mainImage) && reviews == old(reviews) && reviewTotalPages == old(reviewTotalPages)
      ensures reviewPage == old(reviewPage) && newRating == old(newRating) && newComment == old(newComment)
      ensures submittingReview == old(submittingReview)
    {
      if id == PreviewId {
        return false;
      }
      fetched := true;
      if reply.Ok? {
        var (b, page) := reply.data;
        boyfriend := Some(b);
        mainImage := InitialMainImage(mainImage, b);
        reviews := page.reviews;
        reviewTotalPages := if page.pages == 0 then 1 else page.pages;
      } else {
        error := Some(LoadFailedMessage);
      }
      loading := false;
    }

    /** A gallery thumbnail was clicked. */
    method SelectImage(img: string)
      modifies this
      ensures mainImage == img
      ensures boyfriend == old(boyfriend) && reviews == old(reviews) && reviewPage == old(reviewPage)
      ensures loading == old(loading) && error == old(error) && reviewTotalPages == old(reviewTotalPages)
      ensures newRating == old(newRating) && newComment == old(newComment) && submittingReview == old(submittingReview)
    {
      mainImage := img;
    }

    /** `handleLoadMoreReviews`: asks for the next page; its reviews follow the ones
        shown, and the page counter moves only when the page arrived. */
    method LoadMoreReviews(reply: Reply<ReviewPage>) returns (request: Api.Request)
      modifies this
      ensures request == Api.Reviews(id, Some(old(reviewPage) + 1))
      ensures reply.Ok? ==> reviews == old(reviews) + reply.data.reviews && reviewPage == old(reviewPage) + 1
      ensures reply.Err? ==> reviews == old(reviews) && reviewPage == old(reviewPage)
      ensures reviewTotalPages == old(reviewTotalPages) && boyfriend == old(boyfriend) && mainImage == old(mainImage)
      ensures loading == old(loading) && error == old(error)
      ensures newRating == old(newRating) && newComment == old(newComment) && submittingReview == old(submittingReview)
    {
      var nextPage := reviewPage + 1;
      request := Api.Reviews(id, Some(nextPage));
      if reply.Ok? {
        reviews := reviews + reply.data.reviews;
        reviewPage := nextPage;
      }
    }

    /** A star of the review form was clicked, or the comment was typed. */
    method EditReview(rating: int, comment: string)
      modifies this
      ensures newRating == rating && newComment == comment
      ensures boyfriend == old(boyfriend) && reviews == old(reviews) && reviewPage == old(reviewPage)
      ensures loading == old(loading) && error == old(error) && reviewTotalPages == old(reviewTotalPages)
      ensures mainImage == old(mainImage) && submittingReview == old(submittingReview)
    {
      newRating, newComment := rating, comment;
    }

    /** `handleSubmitReview`: the stored review goes first and the form resets to
        five stars and no comment; a failure keeps the form and returns its text. */
    method SubmitReview(reply: Reply<Review>) returns (sent: ReviewRequest, failure: Option<string>)
      modifies this
      ensures sent == ReviewRequest(id, old(newRating), old(newComment))
      ensures !submittingReview
      ensures reply.Ok? ==> reviews == [reply.data] + old(reviews) && newRating == DefaultRating && newComment == ""
      ensures reply.Ok? ==> failure == None
      ensures reply.Err? ==> reviews == old(reviews) && newRating == old(newRating) && newComment == old(newComment)
      ensures reply.Err? ==> failure == Some(OrElse(reply.serverMessage, ReviewFailedMessage))
      ensures reviewPage == old(reviewPage) && reviewTotalPages == old(reviewTotalPages)
      ensures boyfriend == old(boyfriend) && mainImage == old(mainImage) && loading == old(loading) && error == old(error)
    {
      submittingReview := true;
      sent := ReviewRequest(id, newRating, newComment);
      failure := None;
      if reply.Ok? {
        reviews := [reply.data] + reviews;
        newRating, newComment := DefaultRating, "";
      } else {
        failure := Some(OrElse(reply.serverMessage, ReviewFailedMessage));
      }
      submittingReview := false;
    }
  }
}
