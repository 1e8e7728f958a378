/** The pure geometry of the carousel: the scroll offset that centers a card, and the
    decision a finished swipe makes. Pixel measures are `real`. */
module Geometry {
  import opened Options

  /** The measures of one card element that `center` reads. */
  datatype Card = Card(offsetLeft: real, offsetTop: real, clientWidth: real, clientHeight: real)

  /** The measures of the scrolling wrapper that `center` reads. */
  datatype Wrapper = Wrapper(clientWidth: real, clientHeight: real)

  /** What the two refs point at: the track's card children and the wrapper, when attached. */
  datatype Dom = Dom(track: Option<seq<Card>>, wrap: Option<Wrapper>)

  datatype Axis = Left | Top

  /** A smooth `scrollTo` request on one axis. */
  datatype ScrollTarget = ScrollTarget(axis: Axis, offset: real)

  /** The narrow layout scrolls vertically, the wide one horizontally. */
  function AxisFor(mobile: bool): Axis {
    if mobile then Top else Left
  }

  function CardStart(c: Card, mobile: bool): real {
    if mobile then c.offsetTop else c.offsetLeft
  }

  function CardSize(c: Card, mobile: bool): real {
    if mobile then c.clientHeight else c.clientWidth
  }

  function WrapSize(w: Wrapper, mobile: bool): real {
    if mobile then w.clientHeight else w.clientWidth
  }

  /** `center(i)`: no request when the track or the wrapper is absent or card `i` does not
      exist; otherwise a request on the layout's axis that puts the card's middle at the
      wrapper's middle. */
  function Center(dom: Dom, i: int, mobile: bool): (r: Option<ScrollTarget>)
    ensures r.Some? <==> dom.track.Some? && dom.wrap.Some? && 0 <= i < |dom.track.value|
    ensures r.Some? ==> r.value.axis == AxisFor(mobile)
    ensures r.Some? ==>
      r.value.offset + WrapSize(dom.wrap.value, mobile) / 2.0
        == CardStart(dom.track.value[i], mobile) + CardSize(dom.track.value[i], mobile) / 2.0
  {
    if dom.track.None? || dom.wrap.None? then None
    else if !(0 <= i < |dom.track.value|) then None
    else
      var card := dom.track.value[i];
      var wrap := dom.wrap.value;
      Some(ScrollTarget(AxisFor(mobile),
        CardStart(card, mobile) - (WrapSize(wrap, mobile) / 2.0 - CardSize(card, mobile) / 2.0)))
  }

  /** The DOM as the component mounts it: the track carries its ref, the wrapper ref is
      attached to no element. */
  function AsWrittenDom(cards: seq<Card>): Dom {
    Dom(Some(cards), None)
  }

  /** The DOM with the wrapper ref attached to the scrolling container around the track. */
  function MountedDom(cards: seq<Card>, wrapper: Wrapper): Dom {
    Dom(Some(cards), Some(wrapper))
  }

  /** As mounted, `center` never issues a scroll request, whatever the index. */
  lemma NeverCentersAsWritten(cards: seq<Card>, i: int, mobile: bool)
    ensures Center(AsWrittenDom(cards), i, mobile) == None
  {
  }

  /** With the wrapper attached, every existing card is centered on the layout's axis. */
  lemma CentersWhenWrapperAttached(cards: seq<Card>, wrapper: Wrapper, i: int, mobile: bool)
    requires 0 <= i < |cards|
    ensures Center(MountedDom(cards, wrapper), i, mobile).Some?
    ensures Center(MountedDom(cards, wrapper), i, mobile).value.axis == AxisFor(mobile)
    ensures Center(MountedDom(cards, wrapper), i, mobile).value.offset + WrapSize(wrapper, mobile) / 2.0
              == CardStart(cards[i], mobile) + CardSize(cards[i], mobile) / 2.0
  {
  }

  /** A swipe must move further than this, strictly, on the layout's axis. */
  const SwipeThreshold: real := 60.0

  /** The displacement on the layout's axis: vertical on the narrow layout. */
  function Along(dx: real, dy: real, mobile: bool): real {
    if mobile then dy else dx
  }

  function Abs(x: real): real {
    if x < 0.0 then -x else x
  }

  /** The step a finished swipe asks for: none within the threshold; back one section for a
      positive displacement beyond it, forward one for a negative one. */
  function SwipeStep(dx: real, dy: real, mobile: bool): (r: Option<int>)
    ensures r.None? <==> -SwipeThreshold <= Along(dx, dy, mobile) <= SwipeThreshold
    ensures r == Some(-1) <==> Along(dx, dy, mobile) > SwipeThreshold
    ensures r == Some(1) <==> Along(dx, dy, mobile) < -SwipeThreshold
  {
    var d := Along(dx, dy, mobile);
    if Abs(d) > SwipeThreshold then Some(if d > 0.0 then -1 else 1) else None
  }

  /** Movement on the other axis never decides a swipe. */
  lemma SwipeIgnoresCrossAxis(dx: real, dy: real, other: real, mobile: bool)
    ensures mobile ==> SwipeStep(dx, dy, mobile) == SwipeStep(other, dy, mobile)
    ensures !mobile ==> SwipeStep(dx, dy, mobile) == SwipeStep(dx, other, mobile)
  {
  }
}
