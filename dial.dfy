/** The dial widget: its mutable state, the click transition, the resize
    handler, and the values it derives from its state when it is drawn or
    asked for its accessibility actions. */
module Dial {
  import opened Resources
  import opened Fan

  /** Distance of the labels from the dial's edge. */
  const RadiusOffsetLabel: int := 30

  /** Distance of the indicator dot from the dial's edge (inwards). */
  const RadiusOffsetIndicator: int := -35

  /** The three configured colours, for Low, Medium and High. */
  datatype Palette = Palette(low: ColorInt, medium: ColorInt, max: ColorInt)

  /** The dial's background colour in a given position. */
  function BackgroundColor(s: FanSpeed, p: Palette): (c: ColorInt)
    ensures s == Off ==> c == Gray
    ensures s == Low ==> c == p.low
    ensures s == Medium ==> c == p.medium
    ensures s == High ==> c == p.max
  {
    match s
    case Off => Gray
    case Low => p.low
    case Medium => p.medium
    case High => p.max
  }

  /** With no configured colour equal to gray, the dial is gray exactly when it is off. */
  lemma GrayExactlyWhenOff(s: FanSpeed, p: Palette)
    requires p.low != Gray && p.medium != Gray && p.max != Gray
    ensures BackgroundColor(s, p) == Gray <==> s == Off
  {
  }

  /** The background colour of a running fan is one of the configured colours,
      and each running position shows a different one when the three differ. */
  lemma RunningColors(s: FanSpeed, t: FanSpeed, p: Palette)
    requires p.low != p.medium && p.medium != p.max && p.low != p.max
    ensures s != Off ==> BackgroundColor(s, p) in {p.low, p.medium, p.max}
    ensures s != Off && t != Off && BackgroundColor(s, p) == BackgroundColor(t, p) ==> s == t
  {
  }

  /** The text resource of the custom click action offered to accessibility
      services: "reset" when the click will bring the dial back to Off,
      "change" otherwise. */
  function ClickActionLabel(s: FanSpeed): (r: StringRes)
    ensures r == Reset <==> Next(s) == Off
    ensures r == Change <==> Next(s) != Off
  {
    if s != High then Change else Reset
  }

  /** Where something is drawn on the ring: an angle, in units of pi/8
      measured from the positive x axis, and a signed distance from the
      centre (a negative one puts the point on the opposite side). */
  datatype Placement = Placement(angleEighths: nat, distance: real)

  /** The angle of a position's slot on the ring, in units of pi/8:
      the start angle 9*pi/8 plus an eighth of a turn (pi/4) per ordinal. */
  function SlotAngle(s: FanSpeed): (a: nat)
    ensures 9 <= a <= 15 && a % 2 == 1
  {
    9 + 2 * Ordinal(s)
  }

  /** Each position has its own slot, and a step to the next position moves
      the slot an eighth of a turn (pi/4) clockwise on screen, except the wrap
      from High back to Off. */
  lemma SlotsDistinct(s: FanSpeed, t: FanSpeed)
    ensures SlotAngle(s) == SlotAngle(t) ==> s == t
    ensures s != High ==> SlotAngle(Next(s)) == SlotAngle(s) + 2
    ensures s == High ==> SlotAngle(Next(s)) == SlotAngle(s) - 6
  {
  }

  /** The widget. `strings` stands for the host's resource lookup. */
  class DialView {
    var radius: real
    var fanSpeed: FanSpeed
    var lowColor: ColorInt
    var mediumColor: ColorInt
    var maxColor: ColorInt
    var clickable: bool
    var contentDescription: string
    const strings: Strings

    /** The content description always reads the current position's label. */
    ghost predicate Valid()
      reads this
    {
      contentDescription == strings(Label(fanSpeed))
    }

    /** The three configured colours. */
    function Colors(): Palette
      reads this
    {
      Palette(lowColor, mediumColor, maxColor)
    }

    /** The background colour `onDraw` picks for the view's current position
        from its own configured colour fields. */
    function Background(): (c: ColorInt)
      reads this
      ensures fanSpeed == Off ==> c == Gray
      ensures fanSpeed == Low ==> c == lowColor
      ensures fanSpeed == Medium ==> c == mediumColor
      ensures fanSpeed == High ==> c == maxColor
    {
      BackgroundColor(fanSpeed, Colors())
    }

    /** A new view: off, clickable, radius 0, colours read from the layout's
        attributes (0 for any the layout leaves out), and described by Off's label. */
    constructor (strings: Strings, attrs: AttributeSet)
      ensures Valid()
      ensures this.strings == strings
      ensures fanSpeed == Off && contentDescription == strings(FanOff)
      ensures radius == 0.0 && clickable
      ensures lowColor == GetColor(attrs, FanColor1, 0)
      ensures mediumColor == GetColor(attrs, FanColor2, 0)
      ensures maxColor == GetColor(attrs, FanColor3, 0)
    {
      this.strings := strings;
      radius := 0.0;
      fanSpeed := Off;
      clickable := true;
      lowColor := GetColor(attrs, FanColor1, 0);
      mediumColor := GetColor(attrs, FanColor2, 0);
      maxColor := GetColor(attrs, FanColor3, 0);
      contentDescription := "";
      new;
      UpdateContentDescription();
    }

    /** Refreshes the content description from the current position. */
    method UpdateContentDescription()
      modifies this`contentDescription
      ensures Valid()
    {
      contentDescription := strings(Label(fanSpeed));
    }

    /** A click: `superHandled` is what the View superclass's own click
        handling reported. When it handled the click nothing changes; otherwise
        the dial steps to the next position and its description follows. The
        click always counts as handled. Radius and colours are outside the
        frame, so they never change. */
    method PerformClick(superHandled: bool) returns (handled: bool)
      requires Valid()
      modifies this`fanSpeed, this`contentDescription
      ensures Valid()
      ensures handled
      ensures fanSpeed == AfterClick(old(fanSpeed), superHandled)
      ensures superHandled ==> contentDescription == old(contentDescription)
      ensures !superHandled ==> fanSpeed == Next(old(fanSpeed))
    {
      if superHandled {
        return true;
      }
      fanSpeed := Next(fanSpeed);
      UpdateContentDescription();
      return true;
    }

    /** A resize to `w` by `h`: the dial fills 80% of half the smaller side,
        so it fits inside the view. */
    method OnSizeChanged(w: int, h: int)
      modifies this`radius
      ensures radius == (if w <= h then w else h) as real * 0.4
      ensures 0 <= w && 0 <= h ==> 0.0 <= radius && 2.0 * radius <= w as real && 2.0 * radius <= h as real
    {
      var smaller := if w <= h then w else h;
      radius := smaller as real / 2.0 * 0.8;
    }

    /** The indicator dot: in the current position's slot, 35 units inside the
        dial's edge. The distance is signed: below a radius of 35 (before the
        first resize, or on a small view) it is negative and the dot lands on
        the opposite side of the centre. */
    function Indicator(): (pl: Placement)
      reads this
      ensures pl.angleEighths == SlotAngle(fanSpeed)
      ensures radius - pl.distance == 35.0
    {
      Placement(SlotAngle(fanSpeed), radius + RadiusOffsetIndicator as real)
    }

    /** The labels drawn round the ring, one per position in `values()` order,
        each in its position's slot just outside the dial's edge. */
    method LabelLayout() returns (labels: seq<(string, Placement)>)
      ensures |labels| == |Values()|
      ensures forall i :: 0 <= i < |labels| ==>
        labels[i].0 == strings(Label(Values()[i])) &&
        labels[i].1 == Placement(9 + 2 * i, radius + 30.0)
      ensures forall i, j :: 0 <= i < j < |labels| ==> labels[i].1 != labels[j].1
    {
      var labelRadius := radius + RadiusOffsetLabel as real;
      var speeds := Values();
      labels := [];
      for i := 0 to |speeds|
        invariant |labels| == i
        invariant forall k :: 0 <= k < i ==>
          labels[k] == (strings(Label(speeds[k])), Placement(9 + 2 * k, labelRadius))
      {
        labels := labels + [(strings(Label(speeds[i])), Placement(SlotAngle(speeds[i]), labelRadius))];
      }
    }
  }

  /** A run of clicks delivered to one view, each flagged with what the
      superclass's click handling reported: the view ends where the pure
      click function says, and keeps its description in step. */
  method ClickRun(v: DialView, handled: seq<bool>)
    requires v.Valid()
    modifies v`fanSpeed, v`contentDescription
    ensures v.Valid()
    ensures v.fanSpeed == AfterClicks(old(v.fanSpeed), handled)
    decreases |handled|
  {
    if handled != [] {
      var _ := v.PerformClick(handled[0]);
      ClickRun(v, handled[1..]);
    }
  }
}
