/** The `comments` slice of the Redux store (redux/comments.js): a pure
    reducer from the previous slice and a dispatched action to the next slice. */
module CommentsReducer {
  import opened JsValues

  /** What a comment carries besides its id. */
  datatype CommentFields = CommentFields(dishId: int, rating: int, comment: string, author: string, date: string)

  /** A comment held in the store. */
  datatype Comment = Comment(id: int, fields: CommentFields)

  /** The payload of ADD_COMMENT: a comment that may or may not carry an id yet. */
  datatype CommentPayload = CommentPayload(id: Option<int>, fields: CommentFields)

  /** The slice: `{errMess, comments}`, with `null` as `None`. */
  datatype CommentsState = CommentsState(errMess: Option<string>, comments: seq<Comment>)

  /** The actions the reducer tells apart; every other action type of the
      application reaches it as `Unrecognised`. */
  datatype Action =
    | AddComments(comments: seq<Comment>)     // ADD_COMMENTS
    | CommentsFailed(message: string)         // COMMENTS_FAILED
    | AddComment(payload: CommentPayload)     // ADD_COMMENT
    | Unrecognised(actionType: string)

  /** The default value of the `state` parameter. */
  const InitialState := CommentsState(None, [])

  /** `lastComment ? lastComment.id + 1 : 0`, where `lastComment` is the LAST
      element of the list (not the one with the largest id). */
  function NextId(comments: seq<Comment>): int {
    if comments == [] then 0 else comments[|comments| - 1].id + 1
  }

  /** The reducer on a defined state. */
  function Reduce(state: CommentsState, action: Action): (r: CommentsState)
    // ADD_COMMENTS: the list becomes exactly the payload and the error is cleared
    ensures action.AddComments? ==> r.errMess == None && r.comments == action.comments
    // COMMENTS_FAILED: whatever came before, the error is the message and the list is empty
    ensures action.CommentsFailed? ==> r.errMess == Some(action.message) && r.comments == []
    // ADD_COMMENT: append-only; every old entry stays, in place and unchanged, the
    // error is untouched, and the new last entry is the payload with a fresh id
    ensures action.AddComment? ==>
      && r.errMess == state.errMess
      && |r.comments| == |state.comments| + 1
      && r.comments[..|state.comments|] == state.comments
      && r.comments[|state.comments|].fields == action.payload.fields
      && r.comments[|state.comments|].id ==
           (if |state.comments| == 0 then 0 else state.comments[|state.comments| - 1].id + 1)
    // any other action leaves the slice as it was
    ensures action.Unrecognised? ==> r == state
  {
    match action
    case AddComments(comments) => state.(errMess := None, comments := comments)
    case CommentsFailed(message) => state.(errMess := Some(message), comments := [])
    case AddComment(payload) =>
      state.(comments := state.comments + [Comment(NextId(state.comments), payload.fields)])
    case Unrecognised(_) => state
  }

  /** The reducer as Redux calls it: an undefined state (`None`) means the
      default one. */
  function ReduceFrom(state: Option<CommentsState>, action: Action): CommentsState {
    match state
    case None => Reduce(InitialState, action)
    case Some(s) => Reduce(s, action)
  }

  /** The store's initialisation: Redux calls the reducer with no state and an
      action no reducer knows; the slice starts with no error and no comments. */
  lemma InitialSliceIsEmpty(actionType: string)
    ensures ReduceFrom(None, Unrecognised(actionType)) == CommentsState(None, [])
  {
  }

  /** Any id the ADD_COMMENT payload brings along is overridden: the result
      does not depend on it. */
  lemma PayloadIdIsOverridden(state: CommentsState, payload: CommentPayload, otherId: Option<int>)
    ensures Reduce(state, AddComment(payload)) == Reduce(state, AddComment(payload.(id := otherId)))
  {
  }

  /** The slice after dispatching `actions` in order. */
  function Dispatch(state: CommentsState, actions: seq<Action>): CommentsState
    decreases |actions|
  {
    if actions == [] then state
    else Reduce(Dispatch(state, actions[..|actions| - 1]), actions[|actions| - 1])
  }

  /** One ADD_COMMENT per payload, in order. */
  function AddCommentActions(payloads: seq<CommentPayload>): seq<Action> {
    seq(|payloads|, i requires 0 <= i < |payloads| => AddComment(payloads[i]))
  }

  /** Successive ADD_COMMENTs number their comments consecutively, starting
      from the id the first of them computes, and keep everything else. */
  lemma {:induction false} SuccessiveAddsNumberConsecutively(state: CommentsState, payloads: seq<CommentPayload>)
    ensures var r := Dispatch(state, AddCommentActions(payloads));
      && r.errMess == state.errMess
      && |r.comments| == |state.comments| + |payloads|
      && r.comments[..|state.comments|] == state.comments
      && forall i :: 0 <= i < |payloads| ==>
           r.comments[|state.comments| + i] == Comment(NextId(state.comments) + i, payloads[i].fields)
    decreases |payloads|
  {
    if payloads != [] {
      var n := |payloads| - 1;
      assert AddCommentActions(payloads)[..n] == AddCommentActions(payloads[..n]);
      SuccessiveAddsNumberConsecutively(state, payloads[..n]);
    }
  }

  /** From the empty slice, n successive ADD_COMMENTs give ids 0, 1, ..., n-1
      in dispatch order, each on its own payload. */
  lemma AddsFromEmptyNumberFromZero(payloads: seq<CommentPayload>)
    ensures var r := Dispatch(InitialState, AddCommentActions(payloads));
      && |r.comments| == |payloads|
      && forall i :: 0 <= i < |payloads| ==>
           r.comments[i].id == i && r.comments[i].fields == payloads[i].fields
  {
    SuccessiveAddsNumberConsecutively(InitialState, payloads);
    var r := Dispatch(InitialState, AddCommentActions(payloads));
    forall i | 0 <= i < |payloads|
      ensures r.comments[i] == Comment(i, payloads[i].fields)
    {
      assert r.comments[|InitialState.comments| + i] == Comment(NextId(InitialState.comments) + i, payloads[i].fields);
    }
  }

  /** The list is ordered by strictly increasing id, so no id occurs twice. */
  predicate IdsIncreasing(comments: seq<Comment>) {
    forall i, j :: 0 <= i < j < |comments| ==> comments[i].id < comments[j].id
  }

  /** Every action keeps the list ordered by id, provided a bulk load brings an
      ordered list. Under that invariant the id ADD_COMMENT hands out is the
      largest id present plus one: larger than every id, and one more than
      some id in the list. */
  lemma ReduceKeepsIdsIncreasing(state: CommentsState, action: Action)
    requires IdsIncreasing(state.comments)
    requires action.AddComments? ==> IdsIncreasing(action.comments)
    ensures IdsIncreasing(Reduce(state, action).comments)
    ensures action.AddComment? ==>
      forall c :: c in state.comments ==> c.id < NextId(state.comments)
    ensures action.AddComment? && state.comments != [] ==>
      exists c :: c in state.comments && c.id + 1 == NextId(state.comments)
  {
    if state.comments != [] {
      assert state.comments[|state.comments| - 1] in state.comments;
    }
  }

  /** Without that ordering, last-plus-one can repeat an id already in the list. */
  lemma LastPlusOneCanRepeatAnId(fields: CommentFields)
    ensures var r := Reduce(CommentsState(None, [Comment(3, fields), Comment(2, fields)]),
                            AddComment(CommentPayload(None, fields)));
      r.comments[2].id == r.comments[0].id
  {
  }
}
