/** The dish-detail screen (components/DishdetailComponent.js): the comment
    form held in the `Dishdetail` component's state, and the pure helpers the
    screen uses to read gestures, favourites and comments. */
module DishdetailComponent {
  import opened JsValues
  import opened CommentsReducer

  /** Horizontal distance, in points, a pan must cover to be recognised. */
  const SwipeThreshold: real := 200.0

  /** `recognizeDrag`: a right-to-left pan longer than the threshold. */
  predicate RecognizeDrag(dx: real) {
    dx < -SwipeThreshold
  }

  /** `recognizeComment`: a left-to-right pan longer than the threshold. */
  predicate RecognizeComment(dx: real) {
    dx > SwipeThreshold
  }

  /** No pan is recognised as both gestures. */
  lemma GesturesExclusive(dx: real)
    ensures !(RecognizeDrag(dx) && RecognizeComment(dx))
  {
  }

  /** What `onPanResponderEnd` does once the finger lifts. */
  datatype GestureOutcome = AskAddFavorite | OpenCommentForm | NoGesture

  /** The drag test comes first; only a pan that is not a drag is tested for
      the comment gesture. */
  function GestureEnd(dx: real): (o: GestureOutcome)
    ensures o == AskAddFavorite <==> dx < -200.0
    ensures o == OpenCommentForm <==> dx > 200.0
    ensures o == NoGesture <==> -200.0 <= dx <= 200.0
  {
    if RecognizeDrag(dx) then AskAddFavorite
    else if RecognizeComment(dx) then OpenCommentForm
    else NoGesture
  }

  /** `favorites.some((el) => el === dishId)`. */
  function IsFavorite(favorites: seq<int>, dishId: int): (b: bool)
    ensures b <==> dishId in favorites
  {
    favorites != [] && (favorites[0] == dishId || IsFavorite(favorites[1..], dishId))
  }

  /** `favorite ? console.log('Already favorite') : onFavorite()`, behind both
      the heart icon and the OK of the "Add to Favorites?" alert: whether
      `onFavorite` is called. */
  function CallsOnFavorite(favorites: seq<int>, dishId: int): (calls: bool)
    ensures calls <==> dishId !in favorites
  {
    !IsFavorite(favorites, dishId)
  }

  /** `comments.filter((comment) => comment.dishId === dishId)`. */
  function ShownComments(comments: seq<Comment>, dishId: int): (shown: seq<Comment>)
    ensures |shown| <= |comments|
    ensures forall c :: c in shown <==> c in comments && c.fields.dishId == dishId
    decreases |comments|
  {
    if comments == [] then []
    else
      var last := comments[|comments| - 1];
      ShownComments(comments[..|comments| - 1], dishId) + (if last.fields.dishId == dishId then [last] else [])
  }

  /** The filter keeps the original order: filtering a concatenation is
      concatenating the filtered parts. */
  lemma {:induction false} ShownCommentsOfConcat(a: seq<Comment>, b: seq<Comment>, dishId: int)
    ensures ShownComments(a + b, dishId) == ShownComments(a, dishId) + ShownComments(b, dishId)
    decreases |b|
  {
    if b == [] {
      assert a + b == a;
    } else {
      var n := |b| - 1;
      assert (a + b)[..|a + b| - 1] == a + b[..n];
      ShownCommentsOfConcat(a, b[..n], dishId);
    }
  }

  /** After ADD_COMMENT the dish the new comment belongs to shows it last,
      after its earlier comments; every other dish shows what it showed. */
  lemma NewCommentShownOnItsDishOnly(state: CommentsState, payload: CommentPayload, dishId: int)
    ensures var r := Reduce(state, AddComment(payload));
      ShownComments(r.comments, dishId) ==
        ShownComments(state.comments, dishId) +
        (if payload.fields.dishId == dishId then [r.comments[|state.comments|]] else [])
  {
  }

  /** `title + ': ' + message + ' ' + url`. */
  function ShareMessage(title: string, message: string, url: string): string {
    title + ": " + message + " " + url
  }

  /** The share message holds its three parts, in order, at known places. */
  lemma ShareMessageParts(title: string, message: string, url: string)
    ensures var s := ShareMessage(title, message, url);
      && |s| == |title| + |message| + |url| + 3
      && s[..|title|] == title
      && s[|title|..|title| + 2] == ": "
      && s[|title| + 2..|title| + 2 + |message|] == message
      && s[|title| + 2 + |message|] == ' '
      && s[|s| - |url|..] == url
  {
  }

  /** The prefix of the share dialog's title. */
  const ShareLabel := "Share "

  /** The content and options `shareDish` hands to `Share.share`. */
  datatype ShareRequest = ShareRequest(title: string, message: string, url: string, dialogTitle: string)

  /** `shareDish(dish.name, dish.description, baseUrl + dish.image)`. */
  function ShareDish(name: string, description: string, imageUrl: string): (req: ShareRequest)
    // the message opens with the title, then ": ", the description, a space and
    // the url; the dialog names the shared dish
    ensures |req.message| == |req.title| + |description| + |req.url| + 3
    ensures req.message[..|req.title|] == req.title == name
    ensures req.message[|req.title|..|req.title| + 2] == ": "
    ensures req.message[|req.title| + 2..|req.title| + 2 + |description|] == description
    ensures req.message[|req.title| + 2 + |description|] == ' '
    ensures req.message[|req.message| - |req.url|..] == req.url == imageUrl
    ensures |req.dialogTitle| == |ShareLabel| + |name|
    ensures req.dialogTitle[..|ShareLabel|] == ShareLabel && req.dialogTitle[|ShareLabel|..] == name
  {
    ShareMessageParts(name, description, imageUrl);
    ShareRequest(name, ShareMessage(name, description, imageUrl), imageUrl, ShareLabel + name)
  }

  /** The comment `handleComment` hands to `postComment`. */
  datatype CommentPost = CommentPost(rating: int, author: string, comment: string, dishId: int)

  /** The component's `this.state`. */
  datatype FormState = FormState(showModal: bool, rating: int, author: string, comment: string)

  /** The state the constructor sets up. */
  const InitialForm := FormState(false, 3, "author", "comment")

  /** `toggleModal`'s effect on the state. */
  function Toggled(f: FormState): FormState {
    f.(showModal := !f.showModal)
  }

  /** `resetForm`'s effect on the state. */
  function Cleared(f: FormState): FormState {
    f.(rating := 0, author := "", comment := "")
  }

  /** Toggling the modal twice restores the state. */
  lemma ToggleTwiceRestores(f: FormState)
    ensures Toggled(Toggled(f)) == f
    ensures Toggled(f).rating == f.rating && Toggled(f).author == f.author && Toggled(f).comment == f.comment
  {
  }

  /** Clearing the form is idempotent, keeps the modal flag, and does not
      restore the constructor's defaults. */
  lemma ClearIsIdempotent(f: FormState)
    ensures Cleared(Cleared(f)) == Cleared(f)
    ensures Cleared(f).showModal == f.showModal
    ensures Cleared(f) != InitialForm.(showModal := f.showModal)
  {
  }

  /** The `Dishdetail` component. `setState` is modelled as an immediate
      update: in the sequences below each field is written at most once and
      `handleComment` reads only fields `toggleModal` does not write, so a
      batched update ends in the same state. */
  class Dishdetail {
    var showModal: bool
    var rating: int
    var author: string
    var comment: string
    /** The comments handed to `this.props.postComment`, oldest first. */
    ghost var posted: seq<CommentPost>
    /** The dish ids handed to `this.props.postFavorite`, oldest first. */
    ghost var favoriteRequests: seq<int>

    /** The rating is one the five-star widget can give, or a reset 0; so is
        the rating of every comment posted so far. */
    ghost predicate Valid()
      reads this
    {
      && 0 <= rating <= 5
      && forall p :: p in posted ==> 0 <= p.rating <= 5
    }

    function Form(): FormState
      reads this
    {
      FormState(showModal, rating, author, comment)
    }

    constructor ()
      ensures Valid() && Form() == InitialForm
      ensures posted == [] && favoriteRequests == []
    {
      showModal, rating, author, comment := false, 3, "author", "comment";
      posted, favoriteRequests := [], [];
    }

    method ToggleModal()
      requires Valid()
      modifies this
      ensures Valid() && Form() == Toggled(old(Form()))
      ensures posted == old(posted) && favoriteRequests == old(favoriteRequests)
    {
      showModal := !showModal;
    }

    method ResetForm()
      requires Valid()
      modifies this
      ensures Valid() && Form() == Cleared(old(Form()))
      ensures posted == old(posted) && favoriteRequests == old(favoriteRequests)
    {
      rating, author, comment := 0, "", "";
    }

    /** `onFinishRating` of a five-star widget. */
    method OnRatingChange(newRating: int)
      requires Valid() && 0 <= newRating <= 5
      modifies this
      ensures Valid() && Form() == old(Form()).(rating := newRating)
      ensures posted == old(posted) && favoriteRequests == old(favoriteRequests)
    {
      rating := newRating;
    }

    method OnAuthorChange(text: string)
      requires Valid()
      modifies this
      ensures Valid() && Form() == old(Form()).(author := text)
      ensures posted == old(posted) && favoriteRequests == old(favoriteRequests)
    {
      author := text;
    }

    method OnCommentChange(text: string)
      requires Valid()
      modifies this
      ensures Valid() && Form() == old(Form()).(comment := text)
      ensures posted == old(posted) && favoriteRequests == old(favoriteRequests)
    {
      comment := text;
    }

    /** `handleComment`: posts the form's current fields for the dish. */
    method HandleComment(dishId: int)
      requires Valid()
      modifies this
      ensures Valid() && Form() == old(Form())
      ensures posted == old(posted) + [CommentPost(rating, author, comment, dishId)]
      ensures favoriteRequests == old(favoriteRequests)
    {
      posted := posted + [CommentPost(rating, author, comment, dishId)];
    }

    /** SUBMIT: toggle the modal, post what was typed, then clear the form. */
    method Submit(dishId: int)
      requires Valid()
      modifies this
      ensures Valid() && Form() == Cleared(Toggled(old(Form())))
      ensures posted == old(posted) + [CommentPost(old(rating), old(author), old(comment), dishId)]
      ensures favoriteRequests == old(favoriteRequests)
    {
      ToggleModal();
      HandleComment(dishId);
      ResetForm();
    }

    /** CANCEL, and the modal's `onDismiss` and `onRequestClose`: toggle the
      modal and clear the form, posting nothing. */
    method Cancel()
      requires Valid()
      modifies this
      ensures Valid() && Form() == Cleared(Toggled(old(Form())))
      ensures posted == old(posted) && favoriteRequests == old(favoriteRequests)
    {
      ToggleModal();
      ResetForm();
    }

    /** `markFavorite`: asks the store to add the dish to the favourites. */
    method MarkFavorite(dishId: int)
      requires Valid()
      modifies this
      ensures Valid() && Form() == old(Form())
      ensures posted == old(posted) && favoriteRequests == old(favoriteRequests) + [dishId]
    {
      favoriteRequests := favoriteRequests + [dishId];
    }

    /** The heart icon, and OK in the "Add to Favorites?" alert: the dish is
      marked only when it is not a favourite yet. */
    method OnFavoritePress(favorites: seq<int>, dishId: int)
      requires Valid()
      modifies this
      ensures Valid() && Form() == old(Form()) && posted == old(posted)
      ensures favoriteRequests == old(favoriteRequests) + (if dishId in favorites then [] else [dishId])
    {
      if CallsOnFavorite(favorites, dishId) {
        MarkFavorite(dishId);
      } else {
        // `console.log('Already favorite')`
      }
    }

    /** `onPanResponderEnd` with the pan's horizontal distance `dx`. A drag
      raises the "Add to Favorites?" alert, answered OK when `confirmed`; a
      comment gesture opens the form through `toggleModal`. */
    method OnGestureEnd(dx: real, favorites: seq<int>, dishId: int, confirmed: bool)
      requires Valid()
      modifies this
      ensures Valid() && posted == old(posted)
      ensures GestureEnd(dx) == AskAddFavorite ==>
        && Form() == old(Form())
        && favoriteRequests == old(favoriteRequests) + (if confirmed && dishId !in favorites then [dishId] else [])
      ensures GestureEnd(dx) == OpenCommentForm ==>
        Form() == Toggled(old(Form())) && favoriteRequests == old(favoriteRequests)
      ensures GestureEnd(dx) == NoGesture ==>
        Form() == old(Form()) && favoriteRequests == old(favoriteRequests)
    {
      if RecognizeDrag(dx) {
        if confirmed {
          OnFavoritePress(favorites, dishId);
        }
        return;
      }
      if RecognizeComment(dx) {
        ToggleModal();
      }
    }
  }
}
