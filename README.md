# Con Fusion restaurant app: comments store and form state, in Dafny

This project models the parts of the Con Fusion React Native application that
hold state-transition logic:

- **The `comments` reducer** (`redux/comments.js`), the Redux slice
  `{errMess, comments}`. It is modelled as a pure function over a closed
  action type: bulk load (`ADD_COMMENTS`), load failure (`COMMENTS_FAILED`),
  append one comment (`ADD_COMMENT`), and every other action. A fold
  (`Dispatch`) applies a sequence of actions, so that properties of successive
  dispatches can be stated.
- **The dish-detail screen** (`components/DishdetailComponent.js`). Its comment
  form is the class `Dishdetail`, whose fields `showModal`, `rating`, `author`
  and `comment` are changed in place by `toggleModal`, `resetForm`, the three
  `on*Change` setters, and the SUBMIT and CANCEL sequences. The comments handed
  to `postComment` and the dish ids handed to `postFavorite` are recorded in
  ghost logs. The screen's pure helpers are functions: the swipe thresholds,
  the gesture decision, the favourite test, the per-dish comment filter and
  the share message.
- **The reservation screen** (`components/ReservationComponent.js`). Its form
  is the class `Reservation`, whose fields `guests`, `smoking`, `date` and
  `showModal` are changed in place. The alert's Cancel/OK decision is
  specified by the function `Confirm`. The calendar event and the local
  notification the screen requests are recorded in a ghost log. The alert
  text, the notification body and the event's two-hour length are pure
  functions.

The module `JsValues` holds the JavaScript rules these rely on: truthiness,
and the text `+` produces from a boolean or from a non-negative integer below
10^21, such as a guest count. The reservation alert's
text and the notification body are each paired with a reader, and a lemma
proves the reader gets back what went in. The share message is described by
where its parts sit.

Three points where the code does something easy to misread:

- A new comment's id is the **last** comment's id plus one (`NextId`), not the
  largest id plus one. `ReduceKeepsIdsIncreasing` proves the two agree as long
  as the list stays ordered by id: the assigned id is larger than every id
  present and one more than some id present. `LastPlusOneCanRepeatAnId` shows that an
  unordered list can get a repeated id.
- The OK handler's permission guard never blocks, so as written a denied
  permission still leads to the event, the notification and the reset. The
  model keeps that behaviour in `ConfirmAsWritten` and uses the intended guard
  in `Confirm`; see "## Findings". Under the intended guard, a denial leaves the
  form as it is rather than resetting it.
- The OK handler reads `this.state.date` after awaiting the permission. It does
  not use a value captured when the alert was raised. Sequentially this is the
  form's current date, which is what `OnConfirmOk` uses.

## Model

| member | source | states |
|---|---|---|
| `CommentsReducer.Reduce` | redux/comments.js:10-37 | ADD_COMMENTS makes the list exactly the payload and clears the error. COMMENTS_FAILED sets the error to the message and empties the list, whatever the prior state. ADD_COMMENT is append-only: every old entry stays in place, unchanged; the list grows by exactly one; the error is untouched; the new last entry has the payload's fields and id 0 on an empty list, otherwise the last entry's id + 1. Any other action returns the state unchanged. |
| `CommentsReducer.InitialSliceIsEmpty` | redux/comments.js:3-7 | Redux's first call, with no state and an unknown action, yields no error and no comments. |
| `CommentsReducer.PayloadIdIsOverridden` | redux/comments.js:29-32 | An id the ADD_COMMENT payload carries has no influence: the stored comment gets the computed id and keeps all other payload fields. |
| `CommentsReducer.SuccessiveAddsNumberConsecutively` | redux/comments.js:25-33 | Successive ADD_COMMENTs from any state keep the old entries and the error. They append one comment per payload, in dispatch order, with consecutive ids starting at the id the first of them computes. |
| `CommentsReducer.AddsFromEmptyNumberFromZero` | redux/comments.js:25-33 | From the initial state, n ADD_COMMENTs produce ids 0, 1, …, n-1 in dispatch order, each with its own payload's fields. |
| `CommentsReducer.ReduceKeepsIdsIncreasing` | redux/comments.js:10-33 | If the list is ordered by strictly increasing id, every action keeps it so (a bulk load must bring an ordered list). Under that ordering, the id ADD_COMMENT assigns exceeds every id present and, on a non-empty list, is one more than an id present: it is the largest id plus one. |
| `CommentsReducer.LastPlusOneCanRepeatAnId` | redux/comments.js:26-31 | On the list with ids [3, 2], ADD_COMMENT assigns id 3 again: last-plus-one does not guarantee unique ids. |
| `DishdetailComponent.GesturesExclusive` | components/DishdetailComponent.js:42-57 | No pan is both a recognised drag (dx < -200) and a recognised comment gesture (dx > 200). |
| `DishdetailComponent.GestureEnd` | components/DishdetailComponent.js:72-98 | On gesture end the favourite alert is raised iff dx < -200. The comment form is toggled iff dx > 200. Nothing happens iff -200 ≤ dx ≤ 200. The drag test comes first. |
| `DishdetailComponent.IsFavorite` | components/DishdetailComponent.js:262 | The `some` test is true iff the dish id is in the favourites list. |
| `DishdetailComponent.CallsOnFavorite` | components/DishdetailComponent.js:132-134 | The favourite action is invoked iff the dish is not already a favourite. |
| `DishdetailComponent.ShownComments` | components/DishdetailComponent.js:267-269 | The comments shown are exactly those in the list whose `dishId` is the current dish. There are never more of them than in the list. |
| `DishdetailComponent.ShownCommentsOfConcat` | components/DishdetailComponent.js:267-269 | The filter keeps the original order: filtering a concatenation is concatenating the filtered parts. |
| `DishdetailComponent.NewCommentShownOnItsDishOnly` | components/DishdetailComponent.js:266-270 | After ADD_COMMENT, the new comment's dish shows its earlier comments followed by the new one. Every other dish shows what it showed before. |
| `DishdetailComponent.ShareMessageParts` | components/DishdetailComponent.js:105 | The share message is the title, `': '`, the message, a space and the URL, each at a known position. |
| `DishdetailComponent.ShareDish` | components/DishdetailComponent.js:101-111 | The share request's title is the dish name and its url the image URL. Its message is the title, `': '`, the description, a single space and the url, each at its offset, and nothing else. Its dialog title is `'Share '` followed by the name. |
| `DishdetailComponent.ToggleTwiceRestores` | components/DishdetailComponent.js:212-214 | Toggling the modal flips only `showModal`. Toggling twice restores the form state. |
| `DishdetailComponent.ClearIsIdempotent` | components/DishdetailComponent.js:216-222 | `resetForm` is idempotent and keeps `showModal`. Its values (0, '', '') are not the constructor's defaults. |
| `DishdetailComponent.Dishdetail.constructor` | components/DishdetailComponent.js:193-202 | The form starts with `showModal=false, rating=3, author='author', comment='comment'`, and nothing has been posted. |
| `DishdetailComponent.Dishdetail.ToggleModal` | components/DishdetailComponent.js:212-214 | Only `showModal` changes, to its negation. |
| `DishdetailComponent.Dishdetail.ResetForm` | components/DishdetailComponent.js:216-222 | Sets `rating=0, author='', comment=''` and leaves `showModal` alone. |
| `DishdetailComponent.Dishdetail.OnRatingChange` | components/DishdetailComponent.js:224-229 | Only `rating` changes, to the widget's value. |
| `DishdetailComponent.Dishdetail.OnAuthorChange` | components/DishdetailComponent.js:231-236 | Only `author` changes, to the typed text. |
| `DishdetailComponent.Dishdetail.OnCommentChange` | components/DishdetailComponent.js:238-243 | Only `comment` changes, to the typed text. |
| `DishdetailComponent.Dishdetail.HandleComment` | components/DishdetailComponent.js:245-254 | Posts `{rating, author, comment, dishId}` from the current form, changing no field. |
| `DishdetailComponent.Dishdetail.Submit` | components/DishdetailComponent.js:307-316 | Toggles the modal, then posts exactly one comment built from the values typed before the reset, then clears the form. Every posted rating stays within 0–5. |
| `DishdetailComponent.Dishdetail.Cancel` | components/DishdetailComponent.js:319-326 | Toggles the modal and clears the form without posting. The modal's dismiss handlers (lines 275-282) do the same. |
| `DishdetailComponent.Dishdetail.MarkFavorite` | components/DishdetailComponent.js:208-210 | Requests exactly this dish as a favourite; the form is unchanged. |
| `DishdetailComponent.Dishdetail.OnFavoritePress` | components/DishdetailComponent.js:132-134 | A favourite is requested iff the dish is not in the favourites yet; the form is unchanged. |
| `DishdetailComponent.Dishdetail.OnGestureEnd` | components/DishdetailComponent.js:72-98 | A drag requests the favourite only when the alert is answered OK and the dish is not yet a favourite. A comment gesture toggles the modal. Otherwise nothing changes. Nothing is posted. |
| `JsValues.NatToString` | components/ReservationComponent.js:43-44 | The text of a guest count is non-empty and all digits, with no leading zero except for 0 itself. |
| `JsValues.ParseNatToString` | components/ReservationComponent.js:43-44 | Reading the digits of a number back gives the number. |
| `JsValues.DigitRunOfNumber` | components/ReservationComponent.js:43-45 | In the alert text, the guest count's digits end exactly where the newline of the next label begins. |
| `JsValues.BoolToString` | components/ReservationComponent.js:45-46 | The smoking flag reads as `true` or `false`, and the first letter tells which. |
| `ReservationComponent.ToggleTwiceRestores` | components/ReservationComponent.js:34-36 | Toggling the modal flips only `showModal`. Toggling twice is the identity. |
| `ReservationComponent.ResetRestoresDefaults` | components/ReservationComponent.js:93-99 | `resetForm` restores `guests=1, smoking=false, date=''`, keeps `showModal`, and is idempotent. |
| `ReservationComponent.ReadGuestsInverts` | components/ReservationComponent.js:43-45 | The guest count and the text after the smoking label are read back from the alert's middle part. |
| `ReservationComponent.ReadSmokingAndDateInverts` | components/ReservationComponent.js:45-48 | The smoking flag and the date are read back from the alert's last part. |
| `ReservationComponent.ReadConfirmationInverts` | components/ReservationComponent.js:43-48 | The text `'Number of Guests: ' + guests + '\nSmoking? ' + smoking + '\nDate and Time: ' + date` reads back as exactly those three values. |
| `ReservationComponent.RequestedDateInverts` | components/ReservationComponent.js:120 | The body `'Reservation for ' + date + ' requested'` reads back as exactly the date. |
| `ReservationComponent.ReservationEvent` | components/ReservationComponent.js:80-91 | The event starts at the given time and ends 2·60·60·1000 ms later, in calendar '5' and time zone Asia/Hong_Kong. |
| `ReservationComponent.CalendarGuardAsWrittenIgnoresDenial` | components/ReservationComponent.js:58 | As written, the guard passes even when the permission is denied. |
| `ReservationComponent.CalendarGuardFollowsPermission` | components/ReservationComponent.js:71-78 | The intended guard, the response's status is 'granted', passes iff permission was granted. |
| `ReservationComponent.Confirm` | components/ReservationComponent.js:49-66 | Cancel resets the form and requests nothing. OK with permission granted resets the form and requests the event and then the notification, both for the form's date: the event starts at the time that date denotes, and the notification body reads back as that date. OK with permission denied changes nothing and requests nothing. |
| `ReservationComponent.ConfirmAsWrittenActsWhenDenied` | components/ReservationComponent.js:57-64 | As written, OK with permission denied still requests the event and the notification and resets the form. The intended decision differs. |
| `ReservationComponent.Reservation.constructor` | components/ReservationComponent.js:19-28 | The form starts with `guests=1, smoking=false, date='', showModal=false`, and nothing has been requested. |
| `ReservationComponent.Reservation.ToggleModal` | components/ReservationComponent.js:34-36 | Only `showModal` changes, to its negation. |
| `ReservationComponent.Reservation.ResetForm` | components/ReservationComponent.js:93-99 | Restores `guests=1, smoking=false, date=''` and leaves `showModal`. |
| `ReservationComponent.Reservation.SetGuests` | components/ReservationComponent.js:140-142 | Only `guests` changes, to the picked count 1–6. |
| `ReservationComponent.Reservation.SetSmoking` | components/ReservationComponent.js:158 | Only `smoking` changes. |
| `ReservationComponent.Reservation.SetDate` | components/ReservationComponent.js:183-185 | Only `date` changes. |
| `ReservationComponent.Reservation.HandleReservation` | components/ReservationComponent.js:38-48 | The alert text is the concatenation of lines 43-48 over the form's current fields, and it reads back as exactly those guests, smoking flag and date. |
| `ReservationComponent.Reservation.AddReservationToCalendar` | components/ReservationComponent.js:80-91 | Requests exactly the two-hour event starting at the time the given date text denotes; the form is unchanged. |
| `ReservationComponent.Reservation.PresentLocalNotification` | components/ReservationComponent.js:116-130 | Requests exactly the notification 'Your Reservation' for the date, whatever the notification permission; the form is unchanged. |
| `ReservationComponent.Reservation.OnConfirmCancel` | components/ReservationComponent.js:50-54 | The new form and the requested effects are those `Confirm` gives for Cancel: a reset and nothing requested. |
| `ReservationComponent.Reservation.OnConfirmOk` | components/ReservationComponent.js:55-64 | Applies the intended guard, not the one as written (see "## Findings"). The new form and the requested effects are those `Confirm` gives for OK and the permission answer, with the event and the notification both taken from the `date` field read before the reset. |
| `ReservationComponent.Reservation.CloseModal` | components/ReservationComponent.js:220-224 | Toggles the modal and resets the form, requesting nothing. The modal's dismiss handlers (lines 200-207) do the same. |

## Findings

| source | as written | input that shows it | evidently intended | confidence | as-written member | corrected member |
|---|---|---|---|---|---|---|
| components/ReservationComponent.js:58 | `allowed` is `!!` of the value `obtainCalendarPermission` resolves to. That value is the permission response object, and every object is truthy. So the guard always passes, and the event, the notification and the reset happen even after a denial. | OK in the alert; the calendar permission is denied, giving response `{status: 'denied'}` | proceed only when the response's `status` is `'granted'`, the test `obtainCalendarPermission` itself applies on line 74 | not executed; high (the response object is never null) | `ReservationComponent.ConfirmAsWrittenActsWhenDenied` | `ReservationComponent.Confirm` |

## Left out

- Rendering, styles, animations (`Animatable`, `rubberBand`), navigation options and the `connect`/`mapStateToProps` wiring: these are presentation only. The dish lookup `dishes.dishes[+dishId]` selects what to render and is also left out.
- `PanResponder`, `Alert`, `Modal`, `Share`, `Picker`, `Switch` and `DatePicker` are framework objects. Only the values they deliver are modelled: the pan's `dx` (a real number), the alert button pressed, and the picked values.
- The expo `Permissions`, `Calendar` and `Notifications` calls are foreign asynchronous platform APIs. The user's answer to the calendar permission request is a boolean input. The event and the notification are entries in a ghost log. Failures of those calls are not modelled.
- ReservationComponent.Reservation.OnConfirmOk: the permission request and the calendar and notification calls are asynchronous. The model runs them in order with no user input in between.
- `new Date(date)` turns the date text into a time. The model takes this conversion as a parameter `dateToMs` from text to an integer number of milliseconds and does not define it. Invalid dates (NaN) are not modelled.
- ReservationComponent.Reservation.SetGuests: the model takes the guest count as an integer 1–6. The picker actually delivers the strings '1'–'6', while the default is the number 1. The alert text is the same either way.
- DishdetailComponent.Dishdetail.OnRatingChange: the rating is taken as an integer 0–5, as the five-star widget delivers it. Fractional ratings are not modelled.
- Dish ids are integers. The `''` fallback of `getParam('dishId', '')` for a missing id is not modelled.
- `setState` is treated as an immediate update. In every modelled sequence, each field is written at most once and no later step reads a field an earlier step wrote, so React's batching ends in the same state.
- `postComment` and `postFavorite` dispatch to the network. They are not part of this model beyond recording what is handed to them. No favourites or dishes reducer is modelled.
- `console.log` calls are left out.
- The menu and main screens are left out: they only render, navigate and connect.
