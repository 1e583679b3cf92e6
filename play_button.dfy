/**
 * The play button of the movie-detail hero card: what a press of the button does,
 * given the movie's payment type, whether there is a signed-in session, and the
 * user's purchased-movie list.
 */
module PlayButton {
  import opened Catalog

  /** The `PaymentType` enumeration; `Free` is the enumeration's `null` member, `Other` any value matching none. */
  datatype PaymentType = Free | TotalPay | MandatoryDonation | VoluntaryDonation | Other

  /** Strict (`===`) comparison of the raw field against the enumeration's members. */
  function Classify(raw: RawPaymentType): (t: PaymentType)
    ensures t == Free <==> raw == Null
    ensures t == TotalPay <==> raw == Code("PT")
    ensures t == MandatoryDonation <==> raw == Code("DO")
    ensures t == VoluntaryDonation <==> raw == Code("DV")
    ensures raw == Undefined ==> t == Other
  {
    match raw
    case Null => Free
    case Undefined => Other
    case Code(c) =>
      if c == "PT" then TotalPay
      else if c == "DO" then MandatoryDonation
      else if c == "DV" then VoluntaryDonation
      else Other
  }

  /** The two payment types whose press goes through sign-in and payment. */
  predicate IsPaid(t: PaymentType) {
    t == TotalPay || t == MandatoryDonation
  }

  /** The `status` of the authentication session. */
  datatype SessionStatus = Loading | Authenticated | Unauthenticated

  /** The one effect a press of the button has. */
  datatype Action =
    | Navigate(path: string)   // `router.push(path)`
    | StartPayment             // `handlePay()`
    | SignIn                   // `signIn()`
    | NoAction

  function WatchFreePath(slug: string): string {
    "/peliculas/watch-free/" + slug
  }

  function WatchPath(slug: string): string {
    "/peliculas/watch/" + slug
  }

  /** The free route and the watch route of a movie are never the same route. */
  lemma RoutesDiffer(slug: string)
    ensures WatchFreePath(slug) != WatchPath(slug)
  {
    assert WatchFreePath(slug)[16] == '-';
    assert WatchPath(slug)[16] == '/';
  }

  /** The movie with this slug is in the list: ownership is a matter of slugs, not of ids. */
  ghost predicate Owns(userMovieList: seq<MovieEntry>, slug: string) {
    exists i :: 0 <= i < |userMovieList| && userMovieList[i].slug == slug
  }

  /** `userMovieList.some((obj) => obj.slug === slug)`, scanning from the front. */
  function SomeSlug(userMovieList: seq<MovieEntry>, slug: string): (r: bool)
    ensures r <==> Owns(userMovieList, slug)
  {
    if userMovieList == [] then false
    else if userMovieList[0].slug == slug then true
    else
      var rest := SomeSlug(userMovieList[1..], slug);
      assert Owns(userMovieList[1..], slug) ==> Owns(userMovieList, slug) by {
        if Owns(userMovieList[1..], slug) {
          var i :| 0 <= i < |userMovieList| - 1 && userMovieList[1..][i].slug == slug;
          assert userMovieList[i + 1].slug == slug;
        }
      }
      assert Owns(userMovieList, slug) ==> Owns(userMovieList[1..], slug) by {
        if Owns(userMovieList, slug) {
          var i :| 0 <= i < |userMovieList| && userMovieList[i].slug == slug;
          assert i != 0;
          assert userMovieList[1..][i - 1].slug == slug;
        }
      }
      rest
  }

  /**
   * `handleClick`: a free movie always goes to its free route; a paid movie asks an
   * anonymous visitor to sign in, sends an owner to the watch route and starts the
   * payment otherwise; a voluntary donation or an unknown type does nothing.
   */
  function HandleClick(t: PaymentType, hasSession: bool, userMovieList: seq<MovieEntry>, slug: string): (a: Action)
    ensures t == Free ==> a == Navigate(WatchFreePath(slug))
    ensures IsPaid(t) && !hasSession ==> a == SignIn
    ensures a == SignIn <==> IsPaid(t) && !hasSession
    ensures a == StartPayment <==> IsPaid(t) && hasSession && !Owns(userMovieList, slug)
    ensures a == Navigate(WatchPath(slug)) <==> IsPaid(t) && hasSession && Owns(userMovieList, slug)
    ensures a == NoAction <==> t == VoluntaryDonation || t == Other
  {
    RoutesDiffer(slug);
    if t == Free then
      Navigate(WatchFreePath(slug))
    else if t == TotalPay || t == MandatoryDonation then
      if hasSession then
        if |userMovieList| > 0 then
          if SomeSlug(userMovieList, slug) then Navigate(WatchPath(slug)) else StartPayment
        else
          StartPayment
      else
        SignIn
    else
      NoAction
  }

  /** The list with each entry's id replaced by another; the slugs stay as they are. */
  function WithIds(userMovieList: seq<MovieEntry>, ids: seq<nat>): (r: seq<MovieEntry>)
    requires |ids| == |userMovieList|
    ensures |r| == |userMovieList|
    ensures forall i :: 0 <= i < |r| ==> r[i] == MovieEntry(ids[i], userMovieList[i].slug)
  {
    seq(|userMovieList|, i requires 0 <= i < |userMovieList| => MovieEntry(ids[i], userMovieList[i].slug))
  }

  /** The ids in the purchased list play no part in the decision. */
  lemma DecisionIgnoresIds(t: PaymentType, hasSession: bool, userMovieList: seq<MovieEntry>, ids: seq<nat>, slug: string)
    requires |ids| == |userMovieList|
    ensures HandleClick(t, hasSession, WithIds(userMovieList, ids), slug) == HandleClick(t, hasSession, userMovieList, slug)
  {
    var relabelled := WithIds(userMovieList, ids);
    assert Owns(relabelled, slug) <==> Owns(userMovieList, slug) by {
      if Owns(userMovieList, slug) {
        var i :| 0 <= i < |userMovieList| && userMovieList[i].slug == slug;
        assert relabelled[i].slug == slug;
      }
      if Owns(relabelled, slug) {
        var i :| 0 <= i < |relabelled| && relabelled[i].slug == slug;
        assert userMovieList[i].slug == slug;
      }
    }
  }

  /** An entry carrying the movie's id but another slug does not make the movie owned: the payment starts. */
  lemma SameIdOtherSlugStillPays(t: PaymentType, movieId: nat, slug: string, otherSlug: string)
    requires IsPaid(t) && otherSlug != slug
    ensures HandleClick(t, true, [MovieEntry(movieId, otherSlug)], slug) == StartPayment
  {
    assert !Owns([MovieEntry(movieId, otherSlug)], slug);
  }

  /** The spinner replaces the button while the wrapper is busy or the session is still being determined. */
  predicate ShowsSpinner(isLoading: bool, status: SessionStatus) {
    isLoading || status == Loading
  }

  /** A press of what is on screen: nothing happens while the spinner is shown, the click decision otherwise. */
  function Press(isLoading: bool, status: SessionStatus, t: PaymentType, hasSession: bool,
                 userMovieList: seq<MovieEntry>, slug: string): (a: Action)
    ensures ShowsSpinner(isLoading, status) ==> a == NoAction
    ensures a != NoAction ==> !isLoading && status != Loading
    ensures !ShowsSpinner(isLoading, status) ==> a == HandleClick(t, hasSession, userMovieList, slug)
  {
    if ShowsSpinner(isLoading, status) then NoAction else HandleClick(t, hasSession, userMovieList, slug)
  }
}
