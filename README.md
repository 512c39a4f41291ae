# CustomFanController dial, modelled in Dafny

CustomFanController is an Android app with one custom widget, `DialView`. It is a
round dial with four positions: off, low, medium and high. Each click moves the dial
to the next position, and a click at high goes back to off. The view keeps its
accessibility content description equal to the label of the current position. It
colours its background by position: gray when off, and one of three colours set in
the layout for the other positions. Accessibility services get a click action whose
text is "reset" at high and "change" in every other position. The indicator dot and
the four labels sit in slots round the ring, an eighth of a turn (pi/4) apart.

The model has three modules:

- `Resources` (resources.dfy): the host values the widget uses. These are string
  resource ids, the resource lookup (a function from id to text), 32-bit colour
  ints with `Color.GRAY`, and the layout's styled colour attributes with
  `getColor`'s default.
- `Fan` (fan.dfy): the `FanSpeed` enum, its ordinal, `values()`, labels and `next()`.
  It also has the position after one click and after a run of clicks, with the
  rotation lemmas.
- `Dial` (dial.dfy): the state-derived selections (background colour, accessibility
  action text, ring slot) and the class `DialView`. The class holds the fields the
  source updates. Its methods are the constructor (the `init` block),
  `UpdateContentDescription`, `PerformClick`, `OnSizeChanged`, and the label loop of
  `onDraw` without its canvas calls. Beside the class, `ClickRun` delivers a run of
  clicks to one view, as the host does one event at a time.

The result of the superclass's `performClick()` is a boolean parameter of
`PerformClick`. Resource lookup is the view's `strings` field. The layout's attributes
are a map given to the constructor. Angles are whole numbers of pi/8, and the radius
is an exact real.

## Model

| member | source | states |
|---|---|---|
| Fan.Ordinal | app/src/main/java/dev/decagon/godday/customfancontroller/DialView.kt:17-21 | the ordinal of each of the four declared positions is below 4 |
| Fan.Values | app/src/main/java/dev/decagon/godday/customfancontroller/DialView.kt:131 | `values()` lists the four positions, and the entry at index i has ordinal i |
| Fan.FromOrdinal | app/src/main/java/dev/decagon/godday/customfancontroller/DialView.kt:17-21 | each ordinal below 4 names a position with that ordinal |
| Fan.OrdinalRoundTrip | app/src/main/java/dev/decagon/godday/customfancontroller/DialView.kt:17-21 | the ordinal determines the position: `FromOrdinal(Ordinal(s)) == s` and `values()[ordinal] == s` |
| Fan.OrdinalInjective | app/src/main/java/dev/decagon/godday/customfancontroller/DialView.kt:17-21 | two positions with the same ordinal are equal |
| Fan.LabelInjective | app/src/main/java/dev/decagon/godday/customfancontroller/DialView.kt:17-21 | distinct positions carry distinct label resources |
| Fan.Next | app/src/main/java/dev/decagon/godday/customfancontroller/DialView.kt:23-28 | `next()` is total and a rotation by one: the successor's ordinal is the ordinal plus one, modulo 4, so HIGH goes to OFF |
| Fan.NextIterOrdinal | app/src/main/java/dev/decagon/godday/customfancontroller/DialView.kt:23-28 | n applications of `next()` add n to the ordinal, modulo 4 |
| Fan.FullCycle | app/src/main/java/dev/decagon/godday/customfancontroller/DialView.kt:23-28 | four applications of `next()` return every position to itself, and no shorter positive number of them does |
| Fan.NextIterPeriodic | app/src/main/java/dev/decagon/godday/customfancontroller/DialView.kt:23-28 | only the number of steps modulo 4 decides where repeated `next()` ends |
| Fan.NextBijective | app/src/main/java/dev/decagon/godday/customfancontroller/DialView.kt:23-28 | `next()` is a bijection: every position has exactly one predecessor, the position three steps on |
| Fan.AfterClick | app/src/main/java/dev/decagon/godday/customfancontroller/DialView.kt:86-94 | a click the superclass handled leaves the position as it is; any other click advances the ordinal by one, modulo 4 |
| Fan.Unhandled | app/src/main/java/dev/decagon/godday/customfancontroller/DialView.kt:86-87 | the number of clicks the superclass left to the dial is exactly the number of `false` entries in the run |
| Fan.AfterClicksSteps | app/src/main/java/dev/decagon/godday/customfancontroller/DialView.kt:86-94 | a run of clicks equals `next()` applied once per click the superclass did not handle, so the ordinal moves by that count modulo 4 |
| Fan.FromOffAfterClicks | app/src/main/java/dev/decagon/godday/customfancontroller/DialView.kt:86-94 | from OFF, after N clicks the superclass did not handle, the dial is at `values()[N mod 4]` and its ordinal is N mod 4 |
| Dial.BackgroundColor | app/src/main/java/dev/decagon/godday/customfancontroller/DialView.kt:111-116 | the background is GRAY at OFF, and the low, medium or max configured colour at LOW, MEDIUM or HIGH |
| Dial.GrayExactlyWhenOff | app/src/main/java/dev/decagon/godday/customfancontroller/DialView.kt:111-116 | when no configured colour is GRAY, the background is GRAY if and only if the dial is off |
| Dial.RunningColors | app/src/main/java/dev/decagon/godday/customfancontroller/DialView.kt:111-116 | a running fan shows one of the configured colours, and with three distinct colours no two running positions share one |
| Dial.ClickActionLabel | app/src/main/java/dev/decagon/godday/customfancontroller/DialView.kt:78-79 | the action text is "reset" exactly when the next click returns the dial to OFF (at HIGH) and "change" in every other position |
| Dial.SlotAngle | app/src/main/java/dev/decagon/godday/customfancontroller/DialView.kt:102-103 | a position's slot lies between 9*pi/8 and 15*pi/8, on an odd multiple of pi/8 |
| Dial.SlotsDistinct | app/src/main/java/dev/decagon/godday/customfancontroller/DialView.kt:102-103 | distinct positions have distinct slots; `next()` turns the slot by pi/4, except at the wrap from HIGH to OFF, which turns it back by 3*pi/4 |
| Dial.DialView.Background | app/src/main/java/dev/decagon/godday/customfancontroller/DialView.kt:111-116 | the colour `onDraw` picks from the view's own state: GRAY when the view is OFF, and the view's low, medium or max colour field at LOW, MEDIUM or HIGH |
| Dial.DialView.constructor | app/src/main/java/dev/decagon/godday/customfancontroller/DialView.kt:58-66 | a new view is OFF, clickable, radius 0, takes its colours from the layout (0 when an attribute is absent) and has OFF's label as its content description |
| Dial.DialView.UpdateContentDescription | app/src/main/java/dev/decagon/godday/customfancontroller/DialView.kt:138-140 | afterwards the content description is the current position's label text; nothing else changes |
| Dial.DialView.PerformClick | app/src/main/java/dev/decagon/godday/customfancontroller/DialView.kt:86-94 | always returns true. If the superclass handled the click, position and description are unchanged. Otherwise the position becomes `next()` of the old one and the description follows it. The description invariant holds afterwards, and only these two fields can change |
| Dial.DialView.OnSizeChanged | app/src/main/java/dev/decagon/godday/customfancontroller/DialView.kt:96-98 | the radius becomes 80% of half the smaller side, so for a non-negative size the dial fits inside the view; nothing else changes |
| Dial.DialView.Indicator | app/src/main/java/dev/decagon/godday/customfancontroller/DialView.kt:122-124 | the indicator dot is in the current position's slot, at the signed distance radius - 35 from the centre (negative, so on the opposite side, while the radius is below 35) |
| Dial.ClickRun | app/src/main/java/dev/decagon/godday/customfancontroller/DialView.kt:86-94 | a run of `performClick` calls on one view leaves it in the position the pure click function `AfterClicks` gives and keeps its description in step; with `FromOffAfterClicks` a new view is at `values()[N mod 4]` after N unhandled clicks |
| Dial.DialView.LabelLayout | app/src/main/java/dev/decagon/godday/customfancontroller/DialView.kt:129-135 | one label per position, in `values()` order. Each is the text of that position's label, in slot 9*pi/8 + i*pi/4, 30 units outside the edge. No two labels share a placement |

## Left out

- Canvas drawing (`drawCircle`, `drawText`), `Paint` set-up, the black paint colour of the dot and labels, the dot's size, and `invalidate()`. These are rendering calls into the graphics API.
- The trigonometry of `computeXYForSpeed`. Positions are kept as (angle in pi/8 units, distance from centre) and are never converted to x/y with `cos`/`sin`.
- The mutable scratch `PointF` that `onDraw` reuses. `LabelLayout` and `Indicator` return their placements instead.
- Dial.DialView.OnSizeChanged: the radius is an exact real. The source computes it in Double and rounds it to Float, and that rounding is not modelled.
- Reading styled attributes and resource strings through Android. They are a map and a lookup function given to the view.
- The `AccessibilityDelegateCompat` wiring. Only the choice between the "reset" and "change" texts is modelled, as `ClickActionLabel`.
- The internals of `View.performClick()`. Its result is the `superHandled` parameter.
- The constructor's `Context` and `defStyleAttr` arguments, which only feed attribute lookup.
