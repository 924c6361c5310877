/** The star-rating widget (`components/Rating.tsx`): five stars that can be hovered and
    clicked until a rating has been submitted, a submit button whose label follows the
    submission, and the "Thank you!" state that hides the button two seconds later. */
module Rating {
  import opened Common

  /** Number of stars. */
  const Stars: int := 5

  /** Milliseconds between a successful submission and the button disappearing. */
  const HideDelayMs: nat := 2000

  /** The props the widget reads. `hasCallback` says whether `onRatingSubmit` is given;
      `average` is `averageRating`, absent when not passed. */
  datatype Props = Props(
    initialRating: int,
    average: Option<real>,
    totalRatings: int,
    hasCallback: bool,
    disabled: bool
  )

  /** The widget's state. `pending` is the rating handed to `onRatingSubmit` while its
      promise is unsettled; the source's `isSubmitting` is `pending.Some?`. `hidePending`
      says the two-second timer has been armed and has not fired yet. */
  datatype Widget = Widget(
    props: Props,
    rating: int,
    hovered: int,
    pending: Option<int>,
    hasRated: bool,
    showThankYou: bool,
    showButton: bool,
    hidePending: bool
  )

  predicate IsSubmitting(w: Widget) {
    w.pending.Some?
  }

  /** The first render: the rating is the initial one, and the widget counts as already
      rated exactly when that is positive. */
  function Init(props: Props): (w: Widget)
    ensures w.rating == props.initialRating
    ensures w.hasRated <==> props.initialRating > 0
    ensures w.hovered == 0 && !IsSubmitting(w) && !w.showThankYou && w.showButton
  {
    Widget(props, props.initialRating, 0, None, props.initialRating > 0, false, true, false)
  }

  /** The widget no longer reacts to stars: disabled, or a rating already exists. */
  predicate Locked(w: Widget) {
    w.props.disabled || w.hasRated
  }

  /** `handleRatingClick`. */
  function Click(w: Widget, star: int): (r: Widget)
    ensures Locked(w) ==> r == w
    ensures !Locked(w) ==> r == w.(rating := star)
  {
    if Locked(w) then w else w.(rating := star)
  }

  /** `handleRatingHover`. */
  function Hover(w: Widget, star: int): (r: Widget)
    ensures Locked(w) ==> r == w
    ensures !Locked(w) ==> r == w.(hovered := star)
  {
    if Locked(w) then w else w.(hovered := star)
  }

  /** Leaving the row of stars clears the hover, with no guard. */
  function Leave(w: Widget): (r: Widget)
    ensures r.hovered == 0 && r.(hovered := w.hovered) == w
  {
    w.(hovered := 0)
  }

  /** The submit button's `disabled` expression (`!rating` is `rating == 0`). The button
      is disabled while a call is outstanding and without a rating; an enabled button
      of a widget that is not yet rated is refused by the handler only for want of a
      callback, and an enabled button of a rated widget is the "Thank you!" one. */
  predicate ButtonDisabled(w: Widget)
    ensures IsSubmitting(w) || w.rating == 0 ==> ButtonDisabled(w)
    ensures !ButtonDisabled(w) && !w.hasRated ==> (SubmitRefused(w) <==> !w.props.hasCallback)
    ensures !ButtonDisabled(w) && w.hasRated ==> w.showThankYou
  {
    || w.props.disabled
    || w.rating == 0
    || (w.hasRated && !w.showThankYou)
    || IsSubmitting(w)
  }

  /** The early return of `handleSubmitRating`. */
  predicate SubmitRefused(w: Widget) {
    w.props.disabled || w.rating == 0 || w.hasRated || !w.props.hasCallback
  }

  /** A press of the submit button. A button that is hidden or disabled delivers no click;
      otherwise `handleSubmitRating` runs and, past its guard, calls `onRatingSubmit`
      with the current rating and waits. */
  function PressSubmit(w: Widget): (r: Widget)
    ensures IsSubmitting(r) && !IsSubmitting(w) <==>
              w.showButton && !ButtonDisabled(w) && !SubmitRefused(w)
    ensures r.pending != w.pending ==> r == w.(pending := Some(w.rating))
    ensures r.pending == w.pending ==> r == w
  {
    if !w.showButton || ButtonDisabled(w) || SubmitRefused(w) then w
    else w.(pending := Some(w.rating))
  }

  /** The call settles. On success the widget is rated, thanks the user and arms the
      timer that hides the button; on failure only the submitting flag drops. Nothing
      settles when no call is outstanding. */
  function Settle(w: Widget, success: bool): (r: Widget)
    ensures !IsSubmitting(w) ==> r == w
    ensures IsSubmitting(w) ==> !IsSubmitting(r)
    ensures IsSubmitting(w) && success ==>
              r == w.(pending := None, hasRated := true, showThankYou := true, hidePending := true)
    ensures IsSubmitting(w) && !success ==> r == w.(pending := None)
  {
    if !IsSubmitting(w) then w
    else if success then w.(pending := None, hasRated := true, showThankYou := true, hidePending := true)
    else w.(pending := None)
  }

  /** The two-second timer fires and hides the button. */
  function HideTimer(w: Widget): (r: Widget)
    ensures w.hidePending ==> !r.showButton && !r.hidePending
    ensures !w.hidePending ==> r == w
  {
    if w.hidePending then w.(showButton := false, hidePending := false) else w
  }

  /** The submit button's text: "Submitting..." while a call is outstanding, whatever
      else holds; otherwise "Thank you!" for a rated widget that thanks, and "Submit
      Rating" in every other case. */
  function ButtonLabel(w: Widget): (r: string)
    ensures IsSubmitting(w) ==> r == "Submitting..."
    ensures r == "Thank you!" <==> !IsSubmitting(w) && w.hasRated && w.showThankYou
    ensures r == "Submit Rating" <==> !IsSubmitting(w) && !(w.hasRated && w.showThankYou)
  {
    if IsSubmitting(w) then "Submitting..."
    else if w.hasRated && w.showThankYou then "Thank you!"
    else "Submit Rating"
  }

  /** The card title: "Class Rating" once a star is chosen, "Rate this stream" before. */
  function Title(w: Widget): (t: string)
    ensures t == "Class Rating" <==> w.rating > 0
    ensures t == "Rate this stream" <==> w.rating <= 0
  {
    if w.rating > 0 then "Class Rating" else "Rate this stream"
  }

  /** What the header renders for `averageRating && (...)`: nothing for an absent
      average; for an average of 0 the `&&` yields the number 0 itself, which renders as
      the text "0"; any other average renders the line with that average and the count. */
  datatype AverageLine = NoAverage | BareZero | AverageOf(value: real, total: int)

  function AverageHeader(props: Props): (r: AverageLine)
    ensures r == NoAverage <==> props.average.None?
    ensures r == BareZero <==> props.average == Some(0.0)
    ensures r.AverageOf? ==> props.average == Some(r.value) && r.value != 0.0 && r.total == props.totalRatings
  {
    match props.average
    case None => NoAverage
    case Some(a) => if a == 0.0 then BareZero else AverageOf(a, props.totalRatings)
  }

  /** The noun after the count of ratings. */
  function RatingsWord(totalRatings: int): (r: string)
    ensures r == "rating" <==> totalRatings == 1
    ensures r == "ratings" <==> totalRatings != 1
  {
    if totalRatings == 1 then "rating" else "ratings"
  }

  /** Star `i` (counted from 1) is drawn filled. */
  predicate Filled(w: Widget, i: int) {
    w.hovered >= i || (w.hovered == 0 && w.rating >= i)
  }

  /** The value the stars show: the hovered star while there is one, the rating
      otherwise. */
  function Shown(w: Widget): int {
    if w.hovered != 0 then w.hovered else w.rating
  }

  /** The filled stars are exactly the first `Shown(w)` of them. */
  lemma FilledIsPrefix(w: Widget, i: int)
    requires 1 <= i <= Stars
    ensures Filled(w, i) <==> i <= Shown(w)
  {
  }

  /** Hovering a star over an unlocked widget fills exactly the stars up to it, and
      leaving the row shows the rating again. */
  lemma HoverThenLeave(w: Widget, star: int, i: int)
    requires !Locked(w) && 1 <= star <= Stars && 1 <= i <= Stars
    ensures Filled(Hover(w, star), i) <==> i <= star
    ensures Filled(Leave(Hover(w, star)), i) <==> i <= w.rating
  {
    FilledIsPrefix(Hover(w, star), i);
    FilledIsPrefix(Leave(Hover(w, star)), i);
  }

  datatype Event =
    | StarClicked(star: int)
    | StarHovered(star: int)
    | RowLeft
    | SubmitClicked
    | CallSettled(success: bool)
    | HideTimerFired

  function Step(w: Widget, e: Event): Widget {
    match e
    case StarClicked(star) => Click(w, star)
    case StarHovered(star) => Hover(w, star)
    case RowLeft => Leave(w)
    case SubmitClicked => PressSubmit(w)
    case CallSettled(ok) => Settle(w, ok)
    case HideTimerFired => HideTimer(w)
  }

  function Run(w: Widget, events: seq<Event>): Widget
    decreases |events|
  {
    if |events| == 0 then w else Run(Step(w, events[0]), events[1..])
  }

  /** Once rated, always rated, and the rating never changes again. */
  lemma {:induction false} RatedLocksRating(w: Widget, events: seq<Event>)
    requires w.hasRated
    ensures Run(w, events).hasRated
    ensures Run(w, events).rating == w.rating
    decreases |events|
  {
    if |events| > 0 {
      RatedLocksRating(Step(w, events[0]), events[1..]);
    }
  }

  /** The submission round trip: an enabled press of a fresh widget shows "Submitting..."
      and hands over the current rating; a successful settlement thanks the user, a
      failed one offers the button again with the same rating. */
  lemma SubmitRoundTrip(w: Widget)
    requires w.showButton && !IsSubmitting(w) && !Locked(w)
    requires w.rating != 0 && w.props.hasCallback
    ensures var p := PressSubmit(w);
            && p.pending == Some(w.rating)
            && ButtonLabel(p) == "Submitting..." && ButtonDisabled(p)
            && ButtonLabel(Settle(p, true)) == "Thank you!" && Settle(p, true).hasRated
            && ButtonLabel(Settle(p, false)) == "Submit Rating" && !Settle(p, false).hasRated
            && !ButtonDisabled(Settle(p, false)) && Settle(p, false).rating == w.rating
  {
  }

  /** The first title says "Class Rating" exactly when the widget starts rated, and
      choosing a star on an unlocked widget switches it to "Class Rating". */
  lemma TitleFollowsRating(props: Props, w: Widget, star: int)
    requires !Locked(w) && 1 <= star <= Stars
    ensures Title(Init(props)) == "Class Rating" <==> Init(props).hasRated
    ensures Title(Click(w, star)) == "Class Rating"
  {
  }

  /** After a successful submission the button reads "Thank you!" and is enabled, yet a
      press does nothing, since the handler refuses a rated widget; the timer then hides
      it. */
  lemma ThankYouButtonIsInert(w: Widget)
    requires w.showButton && !IsSubmitting(w) && !Locked(w)
    requires w.rating != 0 && w.props.hasCallback
    ensures var t := Settle(PressSubmit(w), true);
            && ButtonLabel(t) == "Thank you!" && !ButtonDisabled(t)
            && PressSubmit(t) == t
            && !HideTimer(t).showButton
  {
  }

  /** While a call is outstanding the stars still take clicks, so the stars a user ends
      up seeing need not be the rating that was sent: submit 3, click the fifth star
      before the call settles, and the rated widget shows 5. */
  lemma ShownRatingMayDifferFromSent(w: Widget)
    requires w.showButton && !IsSubmitting(w) && !Locked(w)
    requires w.rating == 3 && w.props.hasCallback
    ensures var r := Settle(Click(PressSubmit(w), 5), true);
            && PressSubmit(w).pending == Some(3)
            && r.hasRated && r.rating == 5
  {
  }
}
