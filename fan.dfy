/** The four positions of the fan-speed dial and the cyclic order in which a
    click steps through them. */
module Fan {
  import opened Resources

  /** The dial's positions, in declaration order. */
  datatype FanSpeed = Off | Low | Medium | High

  /** Position in declaration order, as Kotlin's `ordinal`. */
  function Ordinal(s: FanSpeed): (n: nat)
    ensures n < 4
  {
    match s
    case Off => 0
    case Low => 1
    case Medium => 2
    case High => 3
  }

  /** All positions in declaration order, as the enum's `values()`. */
  function Values(): (vs: seq<FanSpeed>)
    ensures |vs| == 4
    ensures forall i :: 0 <= i < |vs| ==> Ordinal(vs[i]) == i
  {
    [Off, Low, Medium, High]
  }

  /** The position with a given ordinal. */
  function FromOrdinal(n: nat): (s: FanSpeed)
    requires n < 4
    ensures Ordinal(s) == n
  {
    Values()[n]
  }

  /** The ordinal determines the position: `FromOrdinal` undoes `Ordinal`. */
  lemma OrdinalRoundTrip(s: FanSpeed)
    ensures FromOrdinal(Ordinal(s)) == s
    ensures Values()[Ordinal(s)] == s
  {
  }

  /** The label resource each position carries. */
  function Label(s: FanSpeed): StringRes
  {
    match s
    case Off => FanOff
    case Low => FanLow
    case Medium => FanMedium
    case High => FanHigh
  }

  /** Distinct positions carry distinct labels. */
  lemma LabelInjective(a: FanSpeed, b: FanSpeed)
    ensures Label(a) == Label(b) ==> a == b
  {
  }

  /** The successor position, `next()`: one step round the ring, High back to Off. */
  function Next(s: FanSpeed): (t: FanSpeed)
    ensures Ordinal(t) == (Ordinal(s) + 1) % 4
  {
    match s
    case Off => Low
    case Low => Medium
    case Medium => High
    case High => Off
  }

  /** `Next` applied `n` times. */
  function NextIter(s: FanSpeed, n: nat): FanSpeed
  {
    if n == 0 then s else Next(NextIter(s, n - 1))
  }

  /** `n` steps turn the ring by `n` modulo 4. */
  lemma {:induction false} NextIterOrdinal(s: FanSpeed, n: nat)
    ensures Ordinal(NextIter(s, n)) == (Ordinal(s) + n) % 4
  {
    if n > 0 {
      NextIterOrdinal(s, n - 1);
    }
  }

  /** Two positions with the same ordinal are the same position. */
  lemma OrdinalInjective(a: FanSpeed, b: FanSpeed)
    ensures Ordinal(a) == Ordinal(b) ==> a == b
  {
  }

  /** Four steps bring every position back to itself. */
  lemma FullCycle(s: FanSpeed)
    ensures NextIter(s, 4) == s
    ensures forall k: nat :: k < 4 && NextIter(s, k) == s ==> k == 0
  {
  }

  /** Only the number of steps modulo 4 matters. */
  lemma NextIterPeriodic(s: FanSpeed, n: nat)
    ensures NextIter(s, n) == NextIter(s, n % 4)
  {
    NextIterOrdinal(s, n);
    NextIterOrdinal(s, n % 4);
    OrdinalInjective(NextIter(s, n), NextIter(s, n % 4));
  }

  /** `Next` is a bijection on the four positions: no two positions share a
      successor, and every position is the successor of the one three steps on. */
  lemma NextBijective(t: FanSpeed)
    ensures forall a :: Next(a) == t ==> a == NextIter(t, 3)
    ensures Next(NextIter(t, 3)) == t
  {
  }

  /** The position after one click: unchanged when the View superclass already
      handled the click, otherwise one step on. */
  function AfterClick(s: FanSpeed, superHandled: bool): (t: FanSpeed)
    ensures superHandled ==> t == s
    ensures !superHandled ==> Ordinal(t) == (Ordinal(s) + 1) % 4
  {
    if superHandled then s else Next(s)
  }

  /** The position after a run of clicks, each flagged with whether the
      superclass handled it. */
  function AfterClicks(s: FanSpeed, handled: seq<bool>): FanSpeed
    decreases handled
  {
    if handled == [] then s else AfterClicks(AfterClick(s, handled[0]), handled[1..])
  }

  /** The number of clicks in a run that the superclass left to the dial. */
  function Unhandled(handled: seq<bool>): (n: nat)
    ensures n == multiset(handled)[false]
  {
    if handled == [] then 0
    else
      assert handled == [handled[0]] + handled[1..];
      assert multiset(handled) == multiset([handled[0]]) + multiset(handled[1..]);
      (if handled[0] then 0 else 1) + Unhandled(handled[1..])
  }

  /** A run of clicks advances the dial once per click the superclass left to it. */
  lemma {:induction false} AfterClicksSteps(s: FanSpeed, handled: seq<bool>)
    decreases handled
    ensures AfterClicks(s, handled) == NextIter(s, Unhandled(handled))
    ensures Ordinal(AfterClicks(s, handled)) == (Ordinal(s) + Unhandled(handled)) % 4
  {
    if handled != [] {
      var s' := AfterClick(s, handled[0]);
      AfterClicksSteps(s', handled[1..]);
      NextIterOrdinal(s', Unhandled(handled[1..]));
      NextIterOrdinal(s, Unhandled(handled));
      OrdinalInjective(AfterClicks(s, handled), NextIter(s, Unhandled(handled)));
    } else {
      NextIterOrdinal(s, 0);
    }
  }

  /** From Off, after `N` clicks the dial left to itself, it shows `values()[N mod 4]`. */
  lemma FromOffAfterClicks(handled: seq<bool>)
    ensures AfterClicks(Off, handled) == Values()[Unhandled(handled) % 4]
    ensures Ordinal(AfterClicks(Off, handled)) == Unhandled(handled) % 4
  {
    AfterClicksSteps(Off, handled);
    OrdinalRoundTrip(AfterClicks(Off, handled));
  }
}
