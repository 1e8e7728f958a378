/** The component's state and how every user input changes it.

    `UiState` and the transition functions below are the specification: one function per
    handler of the component, and `OnEvent` mapping each input the rendered page can
    receive onto them. The class `Slider` holds the same state in fields and updates it in
    place, one method per handler, each proved to produce the state its function gives.

    Effects that React runs after a change of `current` are taken as immediate: the
    centering it requests is reported by the methods, and the touch listeners it rebinds
    (with a fresh swipe origin of 0, 0) are recorded in `swipeBound`, `sx` and `sy`. */
module Slider {
  import opened Options
  import opened Navigation
  import opened Sections
  import opened Geometry

  /** `current`, `isDarkMode`, `showDetails`, `selectedCard`, the swipe origin `sx`/`sy`,
      and whether the touch listeners are bound to the track element now mounted. */
  datatype UiState = UiState(
    current: int,
    isDarkMode: bool,
    showDetails: bool,
    selectedCard: Option<Section>,
    sx: real,
    sy: real,
    swipeBound: bool)

  /** The state at mount: first section, light theme, carousel shown, listeners bound. */
  const Initial: UiState := UiState(0, false, false, None, 0.0, 0.0, true)

  /** The detail page replaces the carousel when it is open and a card is selected. */
  predicate MainPage(s: UiState) {
    !(s.showDetails && s.selectedCard.Some?)
  }

  /** Touch input reaches the handlers only on the mounted track with listeners bound. */
  predicate Swipeable(s: UiState) {
    MainPage(s) && s.swipeBound
  }

  /** What every reachable state satisfies: a valid index, a selection exactly while the
      detail view is open and drawn from the static list, and live swipe listeners
      whenever the carousel is shown. */
  predicate Inv(sections: seq<Section>, s: UiState) {
    InRange(s.current) &&
    (s.showDetails <==> s.selectedCard.Some?) &&
    (s.selectedCard.Some? ==> s.selectedCard.value in sections) &&
    (!s.showDetails ==> s.swipeBound)
  }

  /** The body class derived from the theme flag. */
  function BodyClass(isDarkMode: bool): (r: string)
    ensures r == "dark-mode" <==> isDarkMode
    ensures r == "light-mode" <==> !isDarkMode
  {
    if isDarkMode then "dark-mode" else "light-mode"
  }

  // ---------------------------------------------------------------------------
  // Transitions, one per handler

  /** `activate(i, _)`: nothing when `i` is already current; otherwise `current` becomes
      `i` and the `[current]` effect rebinds the touch listeners with a fresh origin. */
  function Activated(s: UiState, i: int): UiState {
    if i == s.current then s
    else s.(current := i, sx := 0.0, sy := 0.0, swipeBound := MainPage(s))
  }

  /** `go(step)`. */
  function Went(s: UiState, step: int): UiState {
    Activated(s, GoTarget(s.current, step))
  }

  /** `handleDetails(section)`: the detail page replaces the carousel, unmounting the track. */
  function DetailsOpened(s: UiState, section: Section): UiState {
    s.(selectedCard := Some(section), showDetails := true, swipeBound := false)
  }

  /** `handleBack` as written: the carousel is mounted again, but the touch effect, which
      depends on `current` alone, does not run, so its listeners stay on the old track. */
  function DetailsClosedAsWritten(s: UiState): UiState {
    s.(showDetails := false, selectedCard := None)
  }

  /** `handleBack` with the touch listeners bound to the remounted track. */
  function DetailsClosed(s: UiState): UiState {
    s.(showDetails := false, selectedCard := None, sx := 0.0, sy := 0.0, swipeBound := true)
  }

  /** `toggleTheme`. */
  function ThemeToggled(s: UiState): UiState {
    s.(isDarkMode := !s.isDarkMode)
  }

  /** The step a key asks for: forward for ArrowRight/ArrowDown, back for ArrowLeft/ArrowUp. */
  function KeyStep(key: string): (r: Option<int>)
    ensures r == Some(1) <==> key == "ArrowRight" || key == "ArrowDown"
    ensures r == Some(-1) <==> key == "ArrowLeft" || key == "ArrowUp"
    ensures r.None? || r == Some(1) || r == Some(-1)
  {
    if key in ["ArrowRight", "ArrowDown"] then Some(1)
    else if key in ["ArrowLeft", "ArrowUp"] then Some(-1)
    else None
  }

  /** `handleKeyDown`. */
  function KeyPressed(s: UiState, key: string): UiState {
    if s.showDetails then s
    else match KeyStep(key)
      case None => s
      case Some(step) => Went(s, step)
  }

  /** `handleTouchStart`: records the swipe origin. */
  function TouchStarted(s: UiState, x: real, y: real): UiState {
    if Swipeable(s) then s.(sx := x, sy := y) else s
  }

  /** `handleTouchEnd`: one step when the swipe passes the threshold on the layout's axis. */
  function TouchEnded(s: UiState, x: real, y: real, mobile: bool): UiState {
    if !Swipeable(s) then s
    else match SwipeStep(x - s.sx, y - s.sy, mobile)
      case None => s
      case Some(step) => Went(s, step)
  }

  // ---------------------------------------------------------------------------
  // Inputs

  /** The inputs the rendered page receives; `mobile` and `hoverCapable` are the media
      queries' answers at the time of the event. */
  datatype Event =
    | KeyDown(key: string)
    | TouchStart(x: real, y: real)
    | TouchEnd(x: real, y: real, mobile: bool)
    | CardClick(card: int)
    | CardHover(card: int, hoverCapable: bool)
    | DotClick(dot: int)
    | PrevClick
    | NextClick
    | DetailsClick(card: int)
    | BackClick
    | ThemeClick
    | Resize

  /** Card, dot and details inputs come from one of the N rendered elements. */
  predicate ValidEvent(e: Event) {
    match e
    case CardClick(i) => InRange(i)
    case CardHover(i, _) => InRange(i)
    case DotClick(i) => InRange(i)
    case DetailsClick(i) => InRange(i)
    case _ => true
  }

  predicate ValidEvents(es: seq<Event>) {
    forall k :: 0 <= k < |es| ==> ValidEvent(es[k])
  }

  /** The state after one input. Carousel controls exist only while the carousel is shown,
      the back button only on the detail page, the theme toggle on both; a disabled
      button receives no click, and a resize only recenters. */
  function OnEvent(sections: seq<Section>, s: UiState, e: Event): UiState
    requires Catalogue(sections) && ValidEvent(e)
  {
    match e
    case KeyDown(key) => KeyPressed(s, key)
    case TouchStart(x, y) => TouchStarted(s, x, y)
    case TouchEnd(x, y, mobile) => TouchEnded(s, x, y, mobile)
    case CardClick(i) => if MainPage(s) then Activated(s, i) else s
    case CardHover(i, hoverCapable) => if MainPage(s) && hoverCapable then Activated(s, i) else s
    case DotClick(i) => if MainPage(s) then Activated(s, i) else s
    case PrevClick => if MainPage(s) && !PrevDisabled(s.current) then Went(s, -1) else s
    case NextClick => if MainPage(s) && !NextDisabled(s.current) then Went(s, 1) else s
    case DetailsClick(i) => if MainPage(s) then DetailsOpened(s, sections[i]) else s
    case BackClick => if MainPage(s) then s else DetailsClosed(s)
    case ThemeClick => ThemeToggled(s)
    case Resize => s
  }

  /** The state after a sequence of inputs. */
  function Run(sections: seq<Section>, s: UiState, es: seq<Event>): UiState
    requires Catalogue(sections) && ValidEvents(es)
    decreases |es|
  {
    if |es| == 0 then s
    else Run(sections, OnEvent(sections, s, es[0]), es[1..])
  }

  /** `k` presses of one key. */
  function Presses(key: string, k: nat): (r: seq<Event>)
    ensures |r| == k && ValidEvents(r)
    ensures forall j :: 0 <= j < k ==> r[j] == KeyDown(key)
  {
    if k == 0 then [] else [KeyDown(key)] + Presses(key, k - 1)
  }

  // ---------------------------------------------------------------------------
  // Properties of single handlers

  /** Activating the current index changes nothing, so a repeated activation is a no-op;
      any other valid index becomes current. */
  lemma ActivateIdempotent(s: UiState, i: int)
    requires InRange(i)
    ensures Activated(s, s.current) == s
    ensures Activated(s, i).current == i
    ensures Activated(Activated(s, i), i) == Activated(s, i)
  {
  }

  /** `go` moves to the clamped index and never wraps: at either end, stepping outward
      leaves the whole state as it was. */
  lemma GoClamps(s: UiState, step: int)
    requires InRange(s.current)
    ensures Went(s, step).current == Min(Max(s.current + step, 0), N - 1)
    ensures s.current == 0 && step < 0 ==> Went(s, step) == s
    ensures s.current == N - 1 && step > 0 ==> Went(s, step) == s
    ensures Went(s, step).showDetails == s.showDetails && Went(s, step).isDarkMode == s.isDarkMode
    ensures Went(s, step).selectedCard == s.selectedCard
  {
  }

  /** Opening sets the selection and the flag together and keeps the index; closing clears
      both and keeps the index, with the corrected Back and as written alike. */
  lemma OpenThenBack(s: UiState, section: Section)
    ensures DetailsOpened(s, section).showDetails
    ensures DetailsOpened(s, section).selectedCard == Some(section)
    ensures DetailsOpened(s, section).current == s.current
    ensures !DetailsClosed(DetailsOpened(s, section)).showDetails
    ensures DetailsClosed(DetailsOpened(s, section)).selectedCard == None
    ensures DetailsClosed(DetailsOpened(s, section)).current == s.current
    ensures DetailsClosed(DetailsOpened(s, section)).isDarkMode == s.isDarkMode
    ensures !DetailsClosedAsWritten(DetailsOpened(s, section)).showDetails
    ensures DetailsClosedAsWritten(DetailsOpened(s, section)).selectedCard == None
    ensures DetailsClosedAsWritten(DetailsOpened(s, section)).current == s.current
    ensures DetailsClosedAsWritten(DetailsOpened(s, section)).isDarkMode == s.isDarkMode
  {
  }

  /** Toggling twice restores the theme, and the body class follows the flag. */
  lemma ThemeInvolution(s: UiState)
    ensures ThemeToggled(ThemeToggled(s)) == s
    ensures BodyClass(ThemeToggled(s).isDarkMode) != BodyClass(s.isDarkMode)
    ensures ThemeToggled(s).current == s.current
  {
  }

  /** While the detail view is open no key does anything; otherwise the arrow keys step
      forward or back and every other key does nothing. */
  lemma KeyHandling(s: UiState, key: string)
    ensures s.showDetails ==> KeyPressed(s, key) == s
    ensures !s.showDetails && (key == "ArrowRight" || key == "ArrowDown") ==> KeyPressed(s, key) == Went(s, 1)
    ensures !s.showDetails && (key == "ArrowLeft" || key == "ArrowUp") ==> KeyPressed(s, key) == Went(s, -1)
    ensures key !in {"ArrowRight", "ArrowDown", "ArrowLeft", "ArrowUp"} ==> KeyPressed(s, key) == s
  {
  }

  /** A swipe within the threshold on the layout's axis changes nothing; beyond it, it is
      exactly one step, back for a positive displacement and forward for a negative one. */
  lemma SwipeHandling(s: UiState, x: real, y: real, mobile: bool)
    requires Swipeable(s)
    ensures Abs(Along(x - s.sx, y - s.sy, mobile)) <= SwipeThreshold ==> TouchEnded(s, x, y, mobile) == s
    ensures Along(x - s.sx, y - s.sy, mobile) > SwipeThreshold ==> TouchEnded(s, x, y, mobile) == Went(s, -1)
    ensures Along(x - s.sx, y - s.sy, mobile) < -SwipeThreshold ==> TouchEnded(s, x, y, mobile) == Went(s, 1)
  {
  }

  /** The prev and next buttons are disabled exactly at the two ends. */
  lemma ButtonsDisabledAtEnds(s: UiState)
    requires InRange(s.current)
    ensures PrevDisabled(s.current) <==> Went(s, -1) == s
    ensures NextDisabled(s.current) <==> Went(s, 1) == s
  {
  }

  // ---------------------------------------------------------------------------
  // Properties of input sequences

  /** Every input keeps the invariant. */
  lemma EventPreservesInv(sections: seq<Section>, s: UiState, e: Event)
    requires Catalogue(sections) && ValidEvent(e) && Inv(sections, s)
    ensures Inv(sections, OnEvent(sections, s, e))
  {
  }

  /** Every sequence of inputs keeps the invariant; in particular `current` never leaves
      `[0, N-1]` and the selection is present exactly while the detail view is open. */
  lemma {:induction false} RunPreservesInv(sections: seq<Section>, s: UiState, es: seq<Event>)
    requires Catalogue(sections) && ValidEvents(es) && Inv(sections, s)
    ensures Inv(sections, Run(sections, s, es))
    decreases |es|
  {
    if |es| > 0 {
      EventPreservesInv(sections, s, es[0]);
      RunPreservesInv(sections, OnEvent(sections, s, es[0]), es[1..]);
    }
  }

  /** While the detail view is open, no input other than Back changes `current` or closes it. */
  lemma {:induction false} DetailsFreezeNavigation(sections: seq<Section>, s: UiState, es: seq<Event>)
    requires Catalogue(sections) && ValidEvents(es) && Inv(sections, s) && s.showDetails
    requires forall k :: 0 <= k < |es| ==> !es[k].BackClick?
    ensures Run(sections, s, es).current == s.current
    ensures Run(sections, s, es).showDetails
    ensures Run(sections, s, es).selectedCard == s.selectedCard
    decreases |es|
  {
    if |es| > 0 {
      var t := OnEvent(sections, s, es[0]);
      EventPreservesInv(sections, s, es[0]);
      assert t.current == s.current && t.showDetails && t.selectedCard == s.selectedCard;
      DetailsFreezeNavigation(sections, t, es[1..]);
    }
  }

  /** With the detail view closed, `k` presses of ArrowRight advance `k` sections, stopping
      at the last one, with the corrected Back and as written alike. */
  lemma {:induction false} ArrowRightPresses(sections: seq<Section>, s: UiState, k: nat)
    requires Catalogue(sections) && InRange(s.current) && !s.showDetails
    ensures Run(sections, s, Presses("ArrowRight", k)).current == Min(s.current + k, N - 1)
    ensures !Run(sections, s, Presses("ArrowRight", k)).showDetails
    ensures RunAsWritten(sections, s, Presses("ArrowRight", k)).current == Min(s.current + k, N - 1)
    decreases k
  {
    if k > 0 {
      var es := Presses("ArrowRight", k);
      var t := OnEvent(sections, s, es[0]);
      assert t == Went(s, 1);
      assert es[1..] == Presses("ArrowRight", k - 1);
      ArrowRightPresses(sections, t, k - 1);
    }
    RunAgreesWithoutBack(sections, s, Presses("ArrowRight", k));
  }

  /** From mount, three ArrowRight presses visit 1, 2 and 3, and a fourth stays at 3. */
  lemma ArrowRightScenario(sections: seq<Section>)
    requires Catalogue(sections)
    ensures Run(sections, Initial, Presses("ArrowRight", 1)).current == 1
    ensures Run(sections, Initial, Presses("ArrowRight", 2)).current == 2
    ensures Run(sections, Initial, Presses("ArrowRight", 3)).current == 3
    ensures Run(sections, Initial, Presses("ArrowRight", 4)).current == 3
  {
  }

  /** Opening the third section's details and going back keeps the third section current. */
  lemma DetailsRoundTripScenario(sections: seq<Section>)
    requires Catalogue(sections)
    ensures var viewing := OnEvent(sections, Went(Went(Initial, 1), 1), DetailsClick(2));
      viewing.showDetails && viewing.selectedCard == Some(sections[2]) && viewing.current == 2
    ensures var closed := OnEvent(sections, OnEvent(sections, Went(Went(Initial, 1), 1), DetailsClick(2)), BackClick);
      !closed.showDetails && closed.selectedCard == None && closed.current == 2
    ensures var closed := OnEventAsWritten(sections, OnEventAsWritten(sections, Went(Went(Initial, 1), 1), DetailsClick(2)), BackClick);
      !closed.showDetails && closed.selectedCard == None && closed.current == 2
  {
  }

  /** A resize leaves the state as it is; only the centering target is recomputed. */
  lemma ResizeKeepsState(sections: seq<Section>, s: UiState)
    requires Catalogue(sections)
    ensures OnEvent(sections, s, Resize) == s
    ensures OnEventAsWritten(sections, s, Resize) == s
  {
  }

  // ---------------------------------------------------------------------------
  // The touch listeners after the detail view

  /** As written, after opening and closing a detail view, a swipe well past the threshold
      at the first section does nothing, although it asks to step forward. */
  lemma SwipeLostAfterBackAsWritten(section: Section)
    ensures var s := DetailsClosedAsWritten(DetailsOpened(Initial, section));
      MainPage(s) && !s.swipeBound &&
      SwipeStep(-200.0, 0.0, false) == Some(1) && GoTarget(s.current, 1) == 1 &&
      TouchEnded(TouchStarted(s, 0.0, 0.0), -200.0, 0.0, false).current == 0
  {
  }

  /** With the listeners rebound on Back, closing the detail view keeps the invariant, so a
      swipe past the threshold on the carousel steps as it does before the view opened. */
  lemma SwipeWorksAfterBack(sections: seq<Section>, s: UiState, x: real, y: real, mobile: bool)
    requires Catalogue(sections) && Inv(sections, s) && s.showDetails
    ensures Inv(sections, DetailsClosed(s))
    ensures SwipeStep(x, y, mobile) == Some(1) ==>
      TouchEnded(TouchStarted(DetailsClosed(s), 0.0, 0.0), x, y, mobile) == Went(DetailsClosed(s), 1)
    ensures SwipeStep(x, y, mobile) == Some(-1) ==>
      TouchEnded(TouchStarted(DetailsClosed(s), 0.0, 0.0), x, y, mobile) == Went(DetailsClosed(s), -1)
  {
  }

  /** The inputs as the component handles them as written: the same as `OnEvent` except
      that Back leaves the touch listeners on the old, detached track. */
  function OnEventAsWritten(sections: seq<Section>, s: UiState, e: Event): UiState
    requires Catalogue(sections) && ValidEvent(e)
  {
    if e.BackClick? then (if MainPage(s) then s else DetailsClosedAsWritten(s))
    else OnEvent(sections, s, e)
  }

  /** The state after a sequence of inputs, as written. */
  function RunAsWritten(sections: seq<Section>, s: UiState, es: seq<Event>): UiState
    requires Catalogue(sections) && ValidEvents(es)
    decreases |es|
  {
    if |es| == 0 then s
    else RunAsWritten(sections, OnEventAsWritten(sections, s, es[0]), es[1..])
  }

  /** What every state reachable as written satisfies: a valid index, a selection exactly
      while the detail view is open and drawn from the static list, and no live swipe
      listeners while the detail view is open. Unlike `Inv`, it does not promise live
      listeners while the carousel is shown. */
  predicate InvAsWritten(sections: seq<Section>, s: UiState) {
    InRange(s.current) &&
    (s.showDetails <==> s.selectedCard.Some?) &&
    (s.selectedCard.Some? ==> s.selectedCard.value in sections) &&
    (s.showDetails ==> !s.swipeBound)
  }

  /** As written, every input keeps `InvAsWritten`. */
  lemma EventPreservesInvAsWritten(sections: seq<Section>, s: UiState, e: Event)
    requires Catalogue(sections) && ValidEvent(e) && InvAsWritten(sections, s)
    ensures InvAsWritten(sections, OnEventAsWritten(sections, s, e))
  {
  }

  /** As written, every sequence of inputs keeps `InvAsWritten`: `current` stays in
      `[0, N-1]` and the selection is present exactly while the detail view is open. */
  lemma {:induction false} RunPreservesInvAsWritten(sections: seq<Section>, s: UiState, es: seq<Event>)
    requires Catalogue(sections) && ValidEvents(es) && InvAsWritten(sections, s)
    ensures InvAsWritten(sections, RunAsWritten(sections, s, es))
    decreases |es|
  {
    if |es| > 0 {
      EventPreservesInvAsWritten(sections, s, es[0]);
      RunPreservesInvAsWritten(sections, OnEventAsWritten(sections, s, es[0]), es[1..]);
    }
  }

  /** Without Back, the component as written and with the corrected Back go through the
      same states, so what is proved of `Run` on such inputs holds of the code as written. */
  lemma {:induction false} RunAgreesWithoutBack(sections: seq<Section>, s: UiState, es: seq<Event>)
    requires Catalogue(sections) && ValidEvents(es)
    requires forall k :: 0 <= k < |es| ==> !es[k].BackClick?
    ensures RunAsWritten(sections, s, es) == Run(sections, s, es)
    decreases |es|
  {
    if |es| > 0 {
      RunAgreesWithoutBack(sections, OnEvent(sections, s, es[0]), es[1..]);
    }
  }

  /** While the detail view is open, as written too, no input other than Back changes
      `current` or closes it. */
  lemma DetailsFreezeNavigationAsWritten(sections: seq<Section>, s: UiState, es: seq<Event>)
    requires Catalogue(sections) && ValidEvents(es) && Inv(sections, s) && s.showDetails
    requires forall k :: 0 <= k < |es| ==> !es[k].BackClick?
    ensures RunAsWritten(sections, s, es).current == s.current
    ensures RunAsWritten(sections, s, es).showDetails
  {
    RunAgreesWithoutBack(sections, s, es);
    DetailsFreezeNavigation(sections, s, es);
  }

  /** As written, `Inv` is not kept: after Details and Back the carousel is shown with no
      live swipe listeners, while the same inputs keep `Inv` with the corrected Back. */
  lemma InvBrokenAsWritten(sections: seq<Section>)
    requires Catalogue(sections)
    ensures Inv(sections, Initial)
    ensures !Inv(sections, OnEventAsWritten(sections, OnEventAsWritten(sections, Initial, DetailsClick(0)), BackClick))
    ensures Inv(sections, OnEvent(sections, OnEvent(sections, Initial, DetailsClick(0)), BackClick))
  {
    assert sections[0] in sections;
  }

  // ---------------------------------------------------------------------------
  // The component

  /** The component instance: its state hooks as fields, its handlers as methods. */
  class Slider {
    const sections: seq<Section>
    var current: int
    var isDarkMode: bool
    var showDetails: bool
    var selectedCard: Option<Section>
    var sx: real
    var sy: real
    var swipeBound: bool

    function State(): UiState
      reads this
    {
      UiState(current, isDarkMode, showDetails, selectedCard, sx, sy, swipeBound)
    }

    predicate Valid()
      reads this
    {
      Catalogue(sections) && Inv(sections, State())
    }

    /** The body class, derived from the theme flag. */
    function BodyClassName(): (r: string)
      reads this
      ensures r == "dark-mode" <==> isDarkMode
    {
      BodyClass(isDarkMode)
    }

    constructor (sections: seq<Section>)
      requires Catalogue(sections)
      ensures Valid() && this.sections == sections && State() == Initial
    {
      this.sections := sections;
      current, isDarkMode, showDetails, selectedCard := 0, false, false, None;
      sx, sy, swipeBound := 0.0, 0.0, true;
    }

    /** `activate(i, scroll)`: reports whether the `[current]` effect recenters and whether
        a deferred centering is scheduled as well. */
    method Activate(i: int, scroll: bool) returns (recenter: bool, deferred: bool)
      requires Valid() && InRange(i)
      modifies this
      ensures Valid() && State() == Activated(old(State()), i)
      ensures recenter <==> i != old(current)
      ensures deferred <==> i != old(current) && scroll
    {
      recenter, deferred := false, false;
      if i == current {
        return;
      }
      swipeBound := MainPage(State());
      current := i;
      sx, sy := 0.0, 0.0;
      recenter := true;
      deferred := scroll;
    }

    /** `go(step)`. */
    method Go(step: int) returns (recenter: bool)
      requires Valid()
      modifies this
      ensures Valid() && State() == Went(old(State()), step)
      ensures current == GoTarget(old(current), step)
      ensures recenter <==> current != old(current)
    {
      var newIndex := Min(Max(current + step, 0), N - 1);
      var deferred;
      recenter, deferred := Activate(newIndex, true);
    }

    /** `handleDetails(section)`; the click does not reach the card, so `current` stays. */
    method HandleDetails(section: Section)
      requires Valid() && section in sections
      modifies this
      ensures Valid() && State() == DetailsOpened(old(State()), section)
      ensures showDetails && selectedCard == Some(section) && current == old(current)
    {
      selectedCard := Some(section);
      showDetails := true;
      swipeBound := false;
    }

    /** `handleBack`, with the touch listeners bound to the remounted track. */
    method HandleBack()
      requires Valid()
      modifies this
      ensures Valid() && State() == DetailsClosed(old(State()))
      ensures !showDetails && selectedCard == None && current == old(current)
    {
      showDetails := false;
      selectedCard := None;
      sx, sy, swipeBound := 0.0, 0.0, true;
    }

    /** `toggleTheme`. */
    method ToggleTheme()
      requires Valid()
      modifies this
      ensures Valid() && State() == ThemeToggled(old(State()))
      ensures BodyClassName() != old(BodyClassName())
    {
      isDarkMode := !isDarkMode;
    }

    /** `handleKeyDown`. */
    method HandleKeyDown(key: string) returns (recenter: bool)
      requires Valid()
      modifies this
      ensures Valid() && State() == KeyPressed(old(State()), key)
      ensures recenter <==> current != old(current)
    {
      recenter := false;
      if showDetails {
        return;
      }
      if key in ["ArrowRight", "ArrowDown"] {
        recenter := Go(1);
      }
      if key in ["ArrowLeft", "ArrowUp"] {
        recenter := Go(-1);
      }
    }

    /** `handleTouchStart`. */
    method HandleTouchStart(x: real, y: real)
      requires Valid()
      modifies this
      ensures Valid() && State() == TouchStarted(old(State()), x, y)
    {
      if Swipeable(State()) {
        sx, sy := x, y;
      }
    }

    /** `handleTouchEnd`. */
    method HandleTouchEnd(x: real, y: real, mobile: bool) returns (recenter: bool)
      requires Valid()
      modifies this
      ensures Valid() && State() == TouchEnded(old(State()), x, y, mobile)
      ensures recenter <==> current != old(current)
    {
      recenter := false;
      if !Swipeable(State()) {
        return;
      }
      var dx := x - sx;
      var dy := y - sy;
      if (if mobile then Abs(dy) > SwipeThreshold else Abs(dx) > SwipeThreshold) {
        recenter := Go(if (if mobile then dy else dx) > 0.0 then -1 else 1);
      }
    }

    /** `handleResize`: the state stays and the current card is recentered. */
    method HandleResize() returns (recenter: bool)
      requires Valid()
      ensures recenter
    {
      recenter := true;
    }

    /** One input from the rendered page, routed to its handler. */
    method Dispatch(e: Event) returns (recenter: bool)
      requires Valid() && ValidEvent(e)
      modifies this
      ensures Valid() && State() == OnEvent(sections, old(State()), e)
      ensures recenter <==> current != old(current) || e.Resize?
    {
      recenter := false;
      var deferred := false;
      match e {
        case KeyDown(key) =>
          recenter := HandleKeyDown(key);
        case TouchStart(x, y) =>
          HandleTouchStart(x, y);
        case TouchEnd(x, y, mobile) =>
          recenter := HandleTouchEnd(x, y, mobile);
        case CardClick(i) =>
          if MainPage(State()) {
            recenter, deferred := Activate(i, true);
          }
        case CardHover(i, hoverCapable) =>
          if MainPage(State()) && hoverCapable {
            recenter, deferred := Activate(i, true);
          }
        case DotClick(i) =>
          if MainPage(State()) {
            recenter, deferred := Activate(i, true);
          }
        case PrevClick =>
          if MainPage(State()) && !PrevDisabled(current) {
            recenter := Go(-1);
          }
        case NextClick =>
          if MainPage(State()) && !NextDisabled(current) {
            recenter := Go(1);
          }
        case DetailsClick(i) =>
          if MainPage(State()) {
            assert sections[i] in sections;
            HandleDetails(sections[i]);
          }
        case BackClick =>
          if !MainPage(State()) {
            HandleBack();
          }
        case ThemeClick =>
          ToggleTheme();
        case Resize =>
          recenter := HandleResize();
      }
    }
  }
}
