/** The tooltip that shows the length of the segment being acquired while
    the mouse moves. The measured length, truncated to a whole number of
    metres, is the input of each move; the tooltip appears once the length
    exceeds one metre and from then on is redrawn whenever the number
    changes, red below four metres and green from four on. */
module DistanceToolTip {
  import opened Text
  import opened PyValues

  /** `showing` and `last_distance`. */
  datatype TipState = TipState(showing: bool, lastDistance: int)

  /** The state after `__init__`. */
  const Initial := TipState(false, 0)

  /** The colour of the number. */
  function Color(m: nat): (c: string)
    ensures c == "red" <==> m < 4
    ensures c == "green" <==> m >= 4
  {
    if m >= 4 then "green" else "red"
  }

  /** The tooltip's HTML for distance `m`. */
  function TipText(m: nat): string
  {
    "<p style='color:" + Color(m) + "'><b>" + NatToString(m) + "</b></p>"
  }

  /** Where the colour and the number sit in the tooltip's HTML. */
  lemma TipTextParts(m: nat)
    ensures |TipText(m)| == 16 + |Color(m)| + 5 + |NatToString(m)| + 8
    ensures TipText(m)[16] == Color(m)[0]
    ensures TipText(m)[16 + |Color(m)| + 5..|TipText(m)| - 8] == NatToString(m)
  {
    var head := "<p style='color:" + Color(m) + "'><b>";
    assert TipText(m) == head + NatToString(m) + "</b></p>";
    assert |head| == 16 + |Color(m)| + 5;
    assert (head + NatToString(m) + "</b></p>")[|head|..|head| + |NatToString(m)|] == NatToString(m);
  }

  /** Different distances are shown differently. */
  lemma TipTextInjective(m: nat, n: nat)
    requires TipText(m) == TipText(n)
    ensures m == n
  {
    TipTextParts(m);
    TipTextParts(n);
    assert Color(m) == Color(n);
    NatToStringInjective(m, n);
  }

  /** One `canvasMoveEvent` with truncated distance `m`: the new state and
      the text shown, if any. */
  function Move(st: TipState, m: nat): (TipState, Option<string>)
  {
    if st.showing then
      if m != st.lastDistance then (TipState(true, m), Some(TipText(m))) else (st, None)
    else
      if m > 1 then (TipState(true, m), Some(TipText(m))) else (st, None)
  }

  /** What a move does, case by case: hidden, a distance above 1 shows the
      tooltip; hidden, any other is ignored; shown, a new distance redraws
      it; shown, the same distance is ignored. Whatever shows is `TipText`
      of the distance, and a shown tooltip stays shown. */
  lemma MoveCases(st: TipState, m: nat)
    ensures !st.showing && m > 1 ==> Move(st, m) == (TipState(true, m), Some(TipText(m)))
    ensures !st.showing && m <= 1 ==> Move(st, m) == (st, None)
    ensures st.showing && m != st.lastDistance ==> Move(st, m) == (TipState(true, m), Some(TipText(m)))
    ensures st.showing && m == st.lastDistance ==> Move(st, m) == (st, None)
    ensures st.showing ==> Move(st, m).0.showing
    ensures Move(st, m).0.showing ==> Move(st, m).0.lastDistance == m
  {
  }

  /** A sequence of moves from `st`: the final state and the distances
      shown, in order. */
  function Run(st: TipState, ms: seq<nat>): (TipState, seq<nat>)
  {
    if |ms| == 0 then (st, [])
    else
      var (before, shown) := Run(st, ms[..|ms| - 1]);
      var m := ms[|ms| - 1];
      var (after, text) := Move(before, m);
      (after, if text.Some? then shown + [m] else shown)
  }

  /** From the initial state: the tooltip is showing exactly when some move
      exceeded one metre; it is showing exactly when something was shown,
      its last distance is the last one shown, and no distance is shown
      twice in a row. */
  lemma {:induction false} RunFromInitial(ms: seq<nat>)
    ensures Run(Initial, ms).0.showing <==> exists k :: 0 <= k < |ms| && ms[k] > 1
    ensures Run(Initial, ms).0.showing <==> |Run(Initial, ms).1| > 0
    ensures |Run(Initial, ms).1| > 0 ==> Run(Initial, ms).0.lastDistance == Run(Initial, ms).1[|Run(Initial, ms).1| - 1]
    ensures forall i :: 0 <= i < |Run(Initial, ms).1| - 1 ==> Run(Initial, ms).1[i] != Run(Initial, ms).1[i + 1]
    ensures !Run(Initial, ms).0.showing ==> Run(Initial, ms).0 == Initial
  {
    if |ms| > 0 {
      var p := ms[..|ms| - 1];
      RunFromInitial(p);
      var m := ms[|ms| - 1];
      assert forall k :: 0 <= k < |p| ==> p[k] == ms[k];
      var (before, shown) := Run(Initial, p);
      MoveCases(before, m);
      if exists k :: 0 <= k < |p| && p[k] > 1 {
        var k :| 0 <= k < |p| && p[k] > 1;
        assert ms[k] > 1;
      }
    }
  }

  /** Once shown, the tooltip stays shown whatever the moves. */
  lemma {:induction false} RunKeepsShowing(st: TipState, ms: seq<nat>)
    requires st.showing
    ensures Run(st, ms).0.showing
    ensures |ms| > 0 ==> Run(st, ms).0.lastDistance == ms[|ms| - 1]
  {
    if |ms| > 0 {
      RunKeepsShowing(st, ms[..|ms| - 1]);
      MoveCases(Run(st, ms[..|ms| - 1]).0, ms[|ms| - 1]);
    }
  }

  /** The tooltip tool: its state and the texts it has shown, in order. */
  class DistanceToolTip {
    var showing: bool
    var lastDistance: int
    var shownTexts: seq<string>

    function State(): TipState
      reads this
    {
      TipState(showing, lastDistance)
    }

    /** `__init__`: hidden, last distance 0. */
    constructor()
      ensures State() == Initial && shownTexts == []
    {
      showing := false;
      lastDistance := 0;
      shownTexts := [];
    }

    /** `canvasMoveEvent` with the measured distance truncated to `m`. */
    method CanvasMoveEvent(m: nat)
      modifies this
      ensures State() == Move(old(State()), m).0
      ensures shownTexts == old(shownTexts) + (if Move(old(State()), m).1.Some? then [TipText(m)] else [])
    {
      if showing {
        if m != lastDistance {
          var color := "red";
          if m >= 4 {
            color := "green";
          }
          var txt := "<p style='color:" + color + "'><b>" + NatToString(m) + "</b></p>";
          shownTexts := shownTexts + [txt];
          lastDistance := m;
        }
      } else {
        if m > 1 {
          var color := "red";
          if m >= 4 {
            color := "green";
          }
          var txt := "<p style='color:" + color + "'><b>" + NatToString(m) + "</b></p>";
          shownTexts := shownTexts + [txt];
          lastDistance := m;
          showing := true;
        }
      }
    }

    /** `deactivate`: the only way back to hidden; the last distance stays. */
    method Deactivate()
      modifies this
      ensures !showing && lastDistance == old(lastDistance) && shownTexts == old(shownTexts)
    {
      showing := false;
    }
  }
}
