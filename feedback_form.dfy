/** The feedback form: ordered guards, one write per accepted submission,
    reset and return to the list on success, and the `loading` flag. */
module FeedbackForm {
  import opened Wrappers
  import opened Navigation
  import opened AuthContext
  import Rating

  /** The guard failures, in the order they are checked. */
  datatype SubmitError = Unauthenticated | NoRating | CommentTooShort

  const MinRating: int := 1
  const MinCommentLength: nat := 10

  /** The guard chain; the first failing guard is the one reported. The
      comment is measured as typed, without trimming, and no upper bound is
      put on the rating. */
  function Validate(profile: Option<Profile>, rating: int, comment: string): (r: Option<SubmitError>)
    ensures r == None <==> profile.Some? && rating >= MinRating && |comment| >= MinCommentLength
    ensures r == Some(Unauthenticated) <==> profile.None?
    ensures r == Some(NoRating) <==> profile.Some? && rating < MinRating
    ensures r == Some(CommentTooShort) <==> profile.Some? && rating >= MinRating && |comment| < MinCommentLength
  {
    if profile.None? then Some(Unauthenticated)
    else if rating < MinRating then Some(NoRating)
    else if |comment| < MinCommentLength then Some(CommentTooShort)
    else None
  }

  /** Ten characters pass and nine fail, whatever they are: ten blanks pass. */
  lemma CommentLengthBoundary(p: Profile, rating: int)
    requires rating >= MinRating
    ensures Validate(Some(p), rating, "          ") == None
    ensures Validate(Some(p), rating, "         ") == Some(CommentTooShort)
  {
  }

  /** The document added to `feedbacks`; its `createdAt` is a server
      timestamp and carries no client-side value. `userId` is the uid of the
      authentication service's current user, which may be absent. */
  datatype FeedbackWrite = FeedbackWrite(userId: Option<string>, name: string, rating: int, comment: string)

  class FeedbackFormScreen {
    var rating: int
    var comment: string
    var loading: bool
    /** Every document this screen has asked the store to add, in order. */
    var writes: seq<FeedbackWrite>

    /** The rating only ever comes from the star widget (or the reset), and
        only submissions that passed the guards are written. */
    ghost predicate Valid()
      reads this
    {
      0 <= rating <= Rating.StarCount &&
      forall i :: 0 <= i < |writes| ==>
        MinRating <= writes[i].rating <= Rating.StarCount &&
        |writes[i].comment| >= MinCommentLength
    }

    constructor ()
      ensures Valid()
      ensures rating == 0 && comment == "" && !loading && writes == []
    {
      rating, comment, loading, writes := 0, "", false, [];
    }

    /** The star widget's `onChange`. */
    method SelectStar(index: nat)
      requires Valid() && index < Rating.StarCount
      modifies this
      ensures Valid()
      ensures rating == Rating.PressValue(index)
      ensures comment == old(comment) && loading == old(loading) && writes == old(writes)
    {
      rating := Rating.PressValue(index);
    }

    /** The comment box's `onChangeText`. */
    method EditComment(text: string)
      requires Valid()
      modifies this
      ensures Valid()
      ensures comment == text
      ensures rating == old(rating) && loading == old(loading) && writes == old(writes)
    {
      comment := text;
    }

    /** Pressing "send". Ignored while a write is in flight (the button is
        disabled); otherwise the guards run and, when all pass, exactly one
        write is issued and `loading` is raised. */
    method Submit(session: AuthStore, authUid: Option<string>) returns (err: Option<SubmitError>)
      requires Valid()
      modifies this
      ensures Valid()
      ensures rating == old(rating) && comment == old(comment)
      ensures old(loading) ==> err == None && loading && writes == old(writes)
      ensures !old(loading) ==> err == Validate(session.profile, old(rating), old(comment))
      ensures !old(loading) && err.Some? ==> !loading && writes == old(writes)
      ensures !old(loading) && err == None ==>
        loading &&
        writes == old(writes) + [FeedbackWrite(authUid, session.profile.value.name, old(rating), old(comment))]
    {
      if loading {
        return None;
      }
      err := Validate(session.profile, rating, comment);
      if err == None {
        loading := true;
        writes := writes + [FeedbackWrite(authUid, session.profile.value.name, rating, comment)];
      }
    }

    /** The write settled. On success the form resets and the route becomes
        the list; on failure the input stays. `loading` drops either way. */
    method WriteSettled(ok: bool) returns (nav: Option<Route>)
      requires Valid() && loading
      modifies this
      ensures Valid()
      ensures !loading && writes == old(writes)
      ensures ok ==> rating == 0 && comment == "" && nav == Step(Form, SubmitSucceeded)
      ensures !ok ==> rating == old(rating) && comment == old(comment) && nav == None
    {
      loading := false;
      if ok {
        rating, comment := 0, "";
        nav := Some(List);
      } else {
        nav := None;
      }
    }
  }

  /** With no profile nothing is written, whatever the rating and comment. */
  method SubmitWithoutProfile(index: nat, comment: string) returns (err: Option<SubmitError>, written: nat)
    requires index < Rating.StarCount
    ensures err == Some(Unauthenticated) && written == 0
  {
    var session := new AuthStore();
    var form := new FeedbackFormScreen();
    form.SelectStar(index);
    form.EditComment(comment);
    err := form.Submit(session, None);
    written := |form.writes|;
  }

  /** A second press while the first write is in flight issues no second
      write; after success the form is empty and the route is the list. */
  method DoublePressWritesOnce(p: Profile, authUid: Option<string>, index: nat, comment: string)
    returns (written: seq<FeedbackWrite>, nav: Option<Route>, rating: int, text: string)
    requires index < Rating.StarCount && |comment| >= MinCommentLength
    ensures written == [FeedbackWrite(authUid, p.name, index + 1, comment)]
    ensures nav == Step(Form, SubmitSucceeded) && rating == 0 && text == ""
  {
    var session := new AuthStore();
    session.SetProfile(p);
    var form := new FeedbackFormScreen();
    form.SelectStar(index);
    form.EditComment(comment);
    var first := form.Submit(session, authUid);
    var second := form.Submit(session, authUid);
    nav := form.WriteSettled(true);
    written, rating, text := form.writes, form.rating, form.comment;
  }
}
