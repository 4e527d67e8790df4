/**
 * The modal overlay's directional transition. The overlay slides in from one
 * screen edge (its placement) while it fades in, and slides back out while it
 * fades out. The travel distance is the overlay's own height or width, captured
 * once from the first layout pass. Two animated channels carry the motion:
 * the translation along the placement's axis and the opacity.
 */
module Modal {
  import opened Basics

  // ---------------------------------------------------------------------------
  // Placement and axis

  /** The `placement` prop after destructuring: `'bottom'` when it is not given. */
  function PlacementOrDefault(given: Option<string>): (placement: string)
    ensures given.Some? ==> placement == given.value
    ensures given.None? ==> placement == "bottom"
  {
    match given
    case Some(p) => p
    case None => "bottom"
  }

  /** `/^(top|bottom)$/.test(placement)` */
  predicate IsVertical(placement: string): (vertical: bool)
    ensures vertical <==> placement in {"top", "bottom"}
    ensures vertical ==> placement != "left" && placement != "right"
  {
    placement == "top" || placement == "bottom"
  }

  /** `/^(left|right)$/.test(placement)` */
  predicate IsHorizontal(placement: string): (horizontal: bool)
    ensures horizontal <==> placement in {"left", "right"}
    ensures horizontal ==> placement != "top" && placement != "bottom"
  {
    placement == "left" || placement == "right"
  }

  /** Without a `placement` prop the overlay is vertical and enters from below: offset +height, bound to translateY. */
  lemma DefaultPlacementIsBottom(layoutHeight: real, layoutWidth: real)
    ensures IsVertical(PlacementOrDefault(None)) && !IsHorizontal(PlacementOrDefault(None))
    ensures TransformSize(PlacementOrDefault(None), layoutHeight, layoutWidth) == layoutHeight
    ensures BindTranslate(PlacementOrDefault(None)) == TranslateStyle(true, false)
  {
  }

  /** For each of the four edges exactly one axis test holds; for any other string neither does. */
  lemma AxisIsExclusive(placement: string)
    ensures placement in {"top", "right", "bottom", "left"} ==> IsVertical(placement) != IsHorizontal(placement)
    ensures placement !in {"top", "right", "bottom", "left"} ==> !IsVertical(placement) && !IsHorizontal(placement)
  {
  }

  /** Which transform keys of `translateStyle` are bound to the translation channel. */
  datatype TranslateStyle = TranslateStyle(translateY: bool, translateX: bool)

  function BindTranslate(placement: string): (style: TranslateStyle)
    ensures style.translateY <==> placement == "top" || placement == "bottom"
    ensures style.translateX <==> placement == "left" || placement == "right"
    ensures !(style.translateY && style.translateX)
  {
    TranslateStyle(IsVertical(placement), IsHorizontal(placement))
  }

  /** The extent the overlay travels along: its height when vertical, its width when horizontal. */
  function AxisExtent(placement: string, layoutHeight: real, layoutWidth: real): real
  {
    if IsVertical(placement) then layoutHeight
    else if IsHorizontal(placement) then layoutWidth
    else 0.0
  }

  /** `getTransformSize`: the signed off-screen offset for the placement. */
  function TransformSize(placement: string, layoutHeight: real, layoutWidth: real): (offset: real)
    ensures placement == "top" ==> offset == -layoutHeight
    ensures placement == "bottom" ==> offset == layoutHeight
    ensures placement == "left" ==> offset == -layoutWidth
    ensures placement == "right" ==> offset == layoutWidth
    ensures placement !in {"top", "right", "bottom", "left"} ==> offset == 0.0
    ensures Abs(offset) == Abs(AxisExtent(placement, layoutHeight, layoutWidth))
    ensures Abs(offset) <= Max(Abs(layoutHeight), Abs(layoutWidth))
  {
    if placement == "top" then -layoutHeight
    else if placement == "bottom" then layoutHeight
    else if placement == "left" then -layoutWidth
    else if placement == "right" then layoutWidth
    else 0.0
  }

  // ---------------------------------------------------------------------------
  // The visibility effect, on values

  /** The snapshot of both animated channels: current values and the targets being animated toward. */
  datatype ChannelState = ChannelState(
    translation: real,
    translationTarget: real,
    opacity: real,
    opacityTarget: real)

  /** What one run of the visibility effect does. */
  datatype Transition =
    | Skip                 // offset is 0: nothing to animate to
    | Open(from: real)     // snap the translation to `from`, animate to on-screen and opaque
    | Close(to: real)      // animate the translation to `to` and the opacity to 0

  /** The branch the effect takes for the current props and measured extents. */
  function PlanEffect(placement: string, visible: bool, layoutHeight: real, layoutWidth: real): (t: Transition)
    ensures t.Skip? <==> AxisExtent(placement, layoutHeight, layoutWidth) == 0.0
    ensures t.Open? <==> visible && AxisExtent(placement, layoutHeight, layoutWidth) != 0.0
    ensures t.Close? <==> !visible && AxisExtent(placement, layoutHeight, layoutWidth) != 0.0
    ensures t.Open? ==> t.from == TransformSize(placement, layoutHeight, layoutWidth) != 0.0
    ensures t.Close? ==> t.to == TransformSize(placement, layoutHeight, layoutWidth) != 0.0
  {
    var result := TransformSize(placement, layoutHeight, layoutWidth);
    if result == 0.0 then Skip
    else if visible then Open(result)
    else Close(result)
  }

  /** The channels after the effect has run with transition `t`. */
  function ApplyTransition(ch: ChannelState, t: Transition): (next: ChannelState)
    ensures next.opacity == ch.opacity
    ensures t.Skip? ==> next == ch
    ensures t.Open? ==> next.translation == t.from && next.translationTarget == 0.0 && next.opacityTarget == 1.0
    ensures t.Close? ==> next.translation == ch.translation && next.translationTarget == t.to && next.opacityTarget == 0.0
  {
    match t
    case Skip => ch
    case Open(from) => ch.(translation := from, translationTarget := 0.0, opacityTarget := 1.0)
    case Close(to) => ch.(translationTarget := to, opacityTarget := 0.0)
  }

  /** Before any extent is measured, the effect changes neither channel, whatever the intent. */
  lemma UnmeasuredEffectIsNoOp(placement: string, visible: bool, ch: ChannelState)
    ensures ApplyTransition(ch, PlanEffect(placement, visible, 0.0, 0.0)) == ch
  {
  }

  /**
   * With a non-zero offset, opening snaps the translation to the offset and aims
   * both channels on screen; closing keeps the translation where it is and aims
   * it off screen and the opacity at 0.
   */
  lemma EffectBranches(placement: string, visible: bool, layoutHeight: real, layoutWidth: real, ch: ChannelState)
    requires TransformSize(placement, layoutHeight, layoutWidth) != 0.0
    ensures var offset := TransformSize(placement, layoutHeight, layoutWidth);
      var next := ApplyTransition(ch, PlanEffect(placement, visible, layoutHeight, layoutWidth));
      && next.opacity == ch.opacity
      && (visible ==> next.translation == offset && next.translationTarget == 0.0 && next.opacityTarget == 1.0)
      && (!visible ==> next.translation == ch.translation && next.translationTarget == offset && next.opacityTarget == 0.0)
  {
  }

  /** A re-run of the effect retargets both channels; the latest intent alone decides the targets. */
  lemma LatestIntentWins(ch: ChannelState, earlier: Transition, later: Transition)
    requires !later.Skip?
    ensures ApplyTransition(ApplyTransition(ch, earlier), later).translationTarget
      == ApplyTransition(ch, later).translationTarget
    ensures ApplyTransition(ApplyTransition(ch, earlier), later).opacityTarget
      == ApplyTransition(ch, later).opacityTarget
  {
  }

  /** Channel values and targets stay within what the measured extents allow. */
  predicate ChannelsWithin(ch: ChannelState, reach: real)
  {
    && 0.0 <= ch.opacity <= 1.0
    && (ch.opacityTarget == 0.0 || ch.opacityTarget == 1.0)
    && Abs(ch.translation) <= reach
    && Abs(ch.translationTarget) <= reach
  }

  /** The effect keeps both channels within range. */
  lemma EffectKeepsChannelsWithin(placement: string, visible: bool, layoutHeight: real, layoutWidth: real, ch: ChannelState)
    requires ChannelsWithin(ch, Max(Abs(layoutHeight), Abs(layoutWidth)))
    ensures ChannelsWithin(ApplyTransition(ch, PlanEffect(placement, visible, layoutHeight, layoutWidth)),
                           Max(Abs(layoutHeight), Abs(layoutWidth)))
  {
  }

  // ---------------------------------------------------------------------------
  // Animation, abstracted as a step toward the target

  /**
   * One frame of a channel's animation: move toward the target by at most
   * `rate`, never past it (the spring is configured with overshoot clamping).
   */
  function StepToward(value: real, target: real, rate: real): (next: real)
    requires rate >= 0.0
    ensures Between(next, value, target)
    ensures Abs(target - next) == Max(0.0, Abs(target - value) - rate)
  {
    if value < target then (if value + rate < target then value + rate else target)
    else (if value - rate > target then value - rate else target)
  }

  /** One frame of both channels; the targets are untouched. */
  function FrameStep(ch: ChannelState, translationRate: real, opacityRate: real): (next: ChannelState)
    requires translationRate >= 0.0 && opacityRate >= 0.0
    ensures next.translationTarget == ch.translationTarget && next.opacityTarget == ch.opacityTarget
    ensures Between(next.translation, ch.translation, ch.translationTarget)
    ensures Between(next.opacity, ch.opacity, ch.opacityTarget)
  {
    ch.(translation := StepToward(ch.translation, ch.translationTarget, translationRate),
        opacity := StepToward(ch.opacity, ch.opacityTarget, opacityRate))
  }

  /** The channels after `frames` frames without a new effect run. */
  function Animate(ch: ChannelState, translationRate: real, opacityRate: real, frames: nat): ChannelState
    requires translationRate >= 0.0 && opacityRate >= 0.0
    decreases frames
  {
    if frames == 0 then ch
    else Animate(FrameStep(ch, translationRate, opacityRate), translationRate, opacityRate, frames - 1)
  }

  /** However many frames pass, neither channel leaves the segment from its start to its target. */
  lemma {:induction false} AnimateNeverOvershoots(ch: ChannelState, translationRate: real, opacityRate: real, frames: nat)
    requires translationRate >= 0.0 && opacityRate >= 0.0
    ensures var last := Animate(ch, translationRate, opacityRate, frames);
      && last.translationTarget == ch.translationTarget
      && last.opacityTarget == ch.opacityTarget
      && Between(last.translation, ch.translation, ch.translationTarget)
      && Between(last.opacity, ch.opacity, ch.opacityTarget)
    decreases frames
  {
    if frames > 0 {
      AnimateNeverOvershoots(FrameStep(ch, translationRate, opacityRate), translationRate, opacityRate, frames - 1);
    }
  }

  /** Enough frames at positive rates settle both channels exactly on their targets. */
  lemma {:induction false} AnimateSettles(ch: ChannelState, translationRate: real, opacityRate: real, frames: nat)
    requires translationRate > 0.0 && opacityRate > 0.0
    requires frames as real * translationRate >= Abs(ch.translationTarget - ch.translation)
    requires frames as real * opacityRate >= Abs(ch.opacityTarget - ch.opacity)
    ensures Animate(ch, translationRate, opacityRate, frames).translation == ch.translationTarget
    ensures Animate(ch, translationRate, opacityRate, frames).opacity == ch.opacityTarget
    decreases frames
  {
    if frames > 0 {
      var next := FrameStep(ch, translationRate, opacityRate);
      assert (frames - 1) as real * translationRate == frames as real * translationRate - translationRate;
      assert (frames - 1) as real * opacityRate == frames as real * opacityRate - opacityRate;
      AnimateSettles(next, translationRate, opacityRate, frames - 1);
    }
  }

  /** An opened overlay that has settled is on screen and fully opaque; a closed one is off screen and transparent. */
  lemma TransitionEndStates(ch: ChannelState, t: Transition, translationRate: real, opacityRate: real, frames: nat)
    requires !t.Skip?
    requires 0.0 <= ch.opacity <= 1.0
    requires translationRate > 0.0 && opacityRate >= 1.0
    requires frames as real * translationRate >= Abs(ApplyTransition(ch, t).translationTarget - ApplyTransition(ch, t).translation)
    requires frames >= 1
    ensures var last := Animate(ApplyTransition(ch, t), translationRate, opacityRate, frames);
      && (t.Open? ==> last.translation == 0.0 && last.opacity == 1.0)
      && (t.Close? ==> last.translation == t.to && last.opacity == 0.0)
  {
    AnimateSettles(ApplyTransition(ch, t), translationRate, opacityRate, frames);
  }

  // ---------------------------------------------------------------------------
  // Layout capture, on values

  /** One `onLayout` report for one axis: the extent is taken only while it is still 0 and the axis matches. */
  function Capture(current: real, reported: real, axisMatches: bool): (next: real)
    ensures current != 0.0 ==> next == current
    ensures next != current ==> current == 0.0 && axisMatches && next == reported
    ensures current == 0.0 && axisMatches ==> next == reported
  {
    if current == 0.0 && axisMatches then reported else current
  }

  /** The extent after a series of layout reports for one axis. */
  function CaptureAll(current: real, reports: seq<real>, axisMatches: bool): real
    decreases reports
  {
    if reports == [] then current
    else CaptureAll(Capture(current, reports[0], axisMatches), reports[1..], axisMatches)
  }

  /** The first non-zero report, or 0 when there is none. */
  function FirstNonZero(reports: seq<real>): (first: real)
    ensures first != 0.0 ==> first in reports
  {
    if reports == [] then 0.0
    else if reports[0] != 0.0 then reports[0]
    else FirstNonZero(reports[1..])
  }

  /** On the placement's own axis, the first non-zero report wins and is kept for good. */
  lemma {:induction false} FirstNonZeroReportWins(reports: seq<real>)
    ensures CaptureAll(0.0, reports, true) == FirstNonZero(reports)
  {
    if reports != [] {
      if reports[0] == 0.0 {
        FirstNonZeroReportWins(reports[1..]);
      } else {
        CapturedExtentIsFinal(reports[0], reports[1..], true);
      }
    }
  }

  /** Once an extent is non-zero, or when the axis does not match, no later report changes it. */
  lemma {:induction false} CapturedExtentIsFinal(current: real, reports: seq<real>, axisMatches: bool)
    requires current != 0.0 || !axisMatches
    ensures CaptureAll(current, reports, axisMatches) == current
  {
    if reports != [] {
      CapturedExtentIsFinal(current, reports[1..], axisMatches);
    }
  }

  // ---------------------------------------------------------------------------
  // The component instance

  /** The values `useEffect` compares to decide whether to run again. */
  datatype EffectDeps = EffectDeps(visible: bool, layoutHeight: real, layoutWidth: real, placement: string)

  /**
   * The state of one mounted modal: the two write-once layout cells, the two
   * animated channels, and the dependencies the effect last ran with.
   */
  class ModalState {
    var layoutHeight: real
    var layoutWidth: real
    var translation: real
    var translationTarget: real
    var opacity: real
    var opacityTarget: real
    var lastDeps: Option<EffectDeps>

    function State(): ChannelState
      reads this
    {
      ChannelState(translation, translationTarget, opacity, opacityTarget)
    }

    function Reach(): real
      reads this
    {
      Max(Abs(layoutHeight), Abs(layoutWidth))
    }

    ghost predicate Valid()
      reads this
    {
      ChannelsWithin(State(), Reach())
    }

    /** Mount: nothing measured, both animated values at 0, the effect not yet run. */
    constructor ()
      ensures Valid()
      ensures layoutHeight == 0.0 && layoutWidth == 0.0
      ensures State() == ChannelState(0.0, 0.0, 0.0, 0.0)
      ensures lastDeps == None
    {
      layoutHeight, layoutWidth := 0.0, 0.0;
      translation, translationTarget := 0.0, 0.0;
      opacity, opacityTarget := 0.0, 0.0;
      lastDeps := None;
    }

    /** The inner view's `onLayout` handler. */
    method OnLayout(placement: string, height: real, width: real)
      requires Valid()
      modifies this`layoutHeight, this`layoutWidth
      ensures Valid()
      ensures layoutHeight == Capture(old(layoutHeight), height, IsVertical(placement))
      ensures layoutWidth == Capture(old(layoutWidth), width, IsHorizontal(placement))
      ensures old(layoutHeight) != 0.0 ==> layoutHeight == old(layoutHeight)
      ensures old(layoutWidth) != 0.0 ==> layoutWidth == old(layoutWidth)
    {
      if layoutHeight == 0.0 && IsVertical(placement) {
        layoutHeight := height;
      }
      if layoutWidth == 0.0 && IsHorizontal(placement) {
        layoutWidth := width;
      }
    }

    /** The body of the visibility effect. */
    method Effect(placement: string, visible: bool)
      requires Valid()
      modifies this`translation, this`translationTarget, this`opacityTarget
      ensures Valid()
      ensures State() == ApplyTransition(old(State()), PlanEffect(placement, visible, layoutHeight, layoutWidth))
    {
      var result := TransformSize(placement, layoutHeight, layoutWidth);
      if result == 0.0 {
        return;
      }
      if visible {
        translation := result;
        translationTarget := 0.0;
        opacityTarget := 1.0;
      }
      if !visible {
        translationTarget := result;
        opacityTarget := 0.0;
      }
    }

    /** A render commit: the effect runs on mount and whenever one of its dependencies changed. */
    method Commit(placement: string, visible: bool)
      requires Valid()
      modifies this`translation, this`translationTarget, this`opacityTarget, this`lastDeps
      ensures Valid()
      ensures lastDeps == Some(EffectDeps(visible, layoutHeight, layoutWidth, placement))
      ensures old(lastDeps) == lastDeps ==> State() == old(State())
      ensures old(lastDeps) != lastDeps ==>
        State() == ApplyTransition(old(State()), PlanEffect(placement, visible, layoutHeight, layoutWidth))
    {
      var deps := EffectDeps(visible, layoutHeight, layoutWidth, placement);
      if lastDeps != Some(deps) {
        lastDeps := Some(deps);
        Effect(placement, visible);
      }
    }

    /** One animation frame of both channels. */
    method Frame(translationRate: real, opacityRate: real)
      requires Valid()
      requires translationRate >= 0.0 && opacityRate >= 0.0
      modifies this`translation, this`opacity
      ensures Valid()
      ensures State() == FrameStep(old(State()), translationRate, opacityRate)
    {
      translation := StepToward(translation, translationTarget, translationRate);
      opacity := StepToward(opacity, opacityTarget, opacityRate);
    }
  }

  /** A bottom sheet 300 high: measured, opened, settled, closed and settled again. */
  method BottomSheetScenario()
  {
    var modal := new ModalState();
    modal.Commit("bottom", false);
    assert modal.State() == ChannelState(0.0, 0.0, 0.0, 0.0);

    modal.OnLayout("bottom", 300.0, 400.0);
    assert modal.layoutHeight == 300.0 && modal.layoutWidth == 0.0;

    modal.Commit("bottom", true);
    assert modal.State() == ChannelState(300.0, 0.0, 0.0, 1.0);
    modal.Frame(300.0, 1.0);
    assert modal.State() == ChannelState(0.0, 0.0, 1.0, 1.0);

    modal.OnLayout("bottom", 280.0, 400.0);
    assert modal.layoutHeight == 300.0;

    modal.Commit("bottom", false);
    assert modal.State() == ChannelState(0.0, 300.0, 1.0, 0.0);
    modal.Frame(150.0, 1.0);
    modal.Frame(150.0, 1.0);
    assert modal.State() == ChannelState(300.0, 300.0, 0.0, 0.0);
  }
}
