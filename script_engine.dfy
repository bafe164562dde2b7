/**
  The RenderScript engine used below API level 31: downscale the bitmap,
  blur it in stages of at most the primitive's limit, scale it back.
  A failure inside a blur pass's `try` block fails soft: the pass returns its
  input and releases the native resources it acquired.
 */
module ScriptEngine {
  import opened Platform

  const ReferenceSize: real := 540.0
  const MinScale: real := 0.1
  const MaxScale: real := 1.5
  /** The largest radius `ScriptIntrinsicBlur` accepts in one pass. */
  const LimitApplicableAtOnce: real := 25.0

  // ---------------------------------------------------------------------
  // Downscaling

  /** The downscale factor: the mean of 540/width and 540/height, clamped. */
  function ScaleFactor(width: Dimension, height: Dimension): real
  {
    var scaleX := ReferenceSize / width as real;
    var scaleY := ReferenceSize / height as real;
    Min(MaxScale, Max(MinScale, (scaleX + scaleY) / 2.0))
  }

  lemma ScaleFactorBounds(width: Dimension, height: Dimension)
    ensures MinScale <= ScaleFactor(width, height) <= MaxScale
    ensures var mean := (ReferenceSize / width as real + ReferenceSize / height as real) / 2.0;
            MinScale <= mean <= MaxScale ==> ScaleFactor(width, height) == mean
    ensures var mean := (ReferenceSize / width as real + ReferenceSize / height as real) / 2.0;
            mean < MinScale ==> ScaleFactor(width, height) == MinScale
    ensures var mean := (ReferenceSize / width as real + ReferenceSize / height as real) / 2.0;
            mean > MaxScale ==> ScaleFactor(width, height) == MaxScale
  {
  }

  /** A side of the downscaled bitmap: `(int) (side * scale)`. */
  function ScaledSide(side: Dimension, scale: real): int
  {
    FloatToInt(side as real * scale)
  }

  /**
    Whatever the source's proportions, both downscaled sides are at least one
    pixel, so `createScaledBitmap` never rejects them: a side clamped at 1.5
    keeps at least 1.5 pixels, one clamped at 0.1 is at least 2700 pixels to
    begin with, and an unclamped factor makes the side at least 270 pixels.
   */
  lemma {:induction false} ScaledSidePositive(width: Dimension, height: Dimension)
    ensures 1 <= ScaledSide(width, ScaleFactor(width, height))
    ensures 1 <= ScaledSide(height, ScaleFactor(width, height))
  {
    ScaledProductAtLeastOne(width, height);
    ScaledProductAtLeastOne(height, width);
    assert ScaleFactor(width, height) == ScaleFactor(height, width);
  }

  lemma ScaledProductAtLeastOne(side: Dimension, other: Dimension)
    ensures 1.0 <= side as real * ScaleFactor(side, other)
  {
    var w, h := side as real, other as real;
    var sx, sy := ReferenceSize / w, ReferenceSize / h;
    var mean := (sx + sy) / 2.0;
    var s := ScaleFactor(side, other);
    assert w * sx == ReferenceSize;
    assert sy > 0.0;
    if s == MaxScale {
      assert w * s >= 1.0 * s;
    } else if s == MinScale {
      assert mean <= MinScale;
      assert sx < 2.0 * MinScale;
      assert w * sx < w * (2.0 * MinScale);
      assert w * s >= 270.0;
    } else {
      assert s == mean;
      assert w * s == (w * sx + w * sy) / 2.0;
      assert w * sy > 0.0;
    }
  }

  // ---------------------------------------------------------------------
  // Stages

  /** `(int) Math.ceil(radius / 25)` */
  function Stages(radius: real): Int32
  {
    FloatToInt(Ceil(radius / LimitApplicableAtOnce) as real)
  }

  /**
    `radius / stages`. In Java the division by zero stages gives NaN or an
    infinity; it is never used then, because the loop runs no stage.
   */
  function StageRadius(radius: real): real
  {
    var stages := Stages(radius);
    if stages == 0 then 0.0 else radius / stages as real
  }

  /** How many times the stage loop runs. */
  function StageCount(radius: real): nat
  {
    var stages := Stages(radius);
    if stages < 0 then 0 else stages
  }

  /**
    For a positive radius (up to the `int` range of the stage count), the
    radius is split into at least one stage, every stage stays within the
    primitive's limit, and the stages add up to the whole radius.
   */
  lemma {:induction false} StagesSplitRadius(radius: real)
    requires 0.0 < radius <= LimitApplicableAtOnce * MaxInt as real
    ensures StageCount(radius) == Stages(radius) >= 1
    ensures 0.0 < StageRadius(radius) <= LimitApplicableAtOnce
    ensures Stages(radius) as real * StageRadius(radius) == radius
    ensures radius <= LimitApplicableAtOnce ==> Stages(radius) == 1
  {
    var q := radius / LimitApplicableAtOnce;
    var c := Ceil(q);
    assert q <= MaxInt as real;
    assert (c as real) < MaxInt as real + 1.0;
    assert Stages(radius) == c;
    assert c >= 1;
    var n := c as real;
    assert q <= n;
    assert radius <= LimitApplicableAtOnce * n;
    assert radius / n <= LimitApplicableAtOnce;
    if radius <= LimitApplicableAtOnce {
      assert q <= 1.0;
    }
  }

  lemma StagesExamples()
    ensures Stages(60.0) == 3 && StageRadius(60.0) == 20.0
    ensures Stages(25.0) == 1 && StageRadius(25.0) == 25.0
    ensures Stages(0.1) == 1
    ensures StageCount(0.0) == 0 && StageCount(-30.0) == 0
  {
    assert Ceil(60.0 / 25.0) == 3;
    assert Ceil(25.0 / 25.0) == 1;
    assert Ceil(0.1 / 25.0) == 1;
    assert Ceil(0.0 / 25.0) == 0;
    assert Ceil(-30.0 / 25.0) == -1;
  }

  // ---------------------------------------------------------------------
  // One blur pass with RenderScript

  /** The native resources a pass acquires, in acquisition order. */
  datatype Resource = RenderScriptContext | InputAllocation | OutputAllocation | BlurScript

  /** The calls inside the `try` block, in program order. */
  datatype Step =
    | CreateContext | CreateInput | CreateOutput | CreateScript
    | SetRadius | SetInput | ForEach | CopyTo

  function Ordinal(s: Step): nat
  {
    match s
    case CreateContext => 0
    case CreateInput => 1
    case CreateOutput => 2
    case CreateScript => 3
    case SetRadius => 4
    case SetInput => 5
    case ForEach => 6
    case CopyTo => 7
  }

  /** `ScriptIntrinsicBlur.setRadius` rejects radii outside (0, 25]. */
  predicate RadiusAccepted(radius: real)
  {
    0.0 < radius <= LimitApplicableAtOnce
  }

  /**
    Whether `step` throws: `fault` names the call at which the platform fails
    (an allocation, the native blur, ...), if any, and `setRadius` also throws
    on a radius it does not accept.
   */
  predicate Throws(step: Step, fault: Option<Step>, radius: real)
  {
    fault == Some(step) || (step == SetRadius && !RadiusAccepted(radius))
  }

  /** The first call of the `try` block that throws, if any. */
  function FirstThrow(fault: Option<Step>, radius: real): (first: Option<Step>)
    ensures first.Some? <==> fault.Some? || !RadiusAccepted(radius)
    ensures first.Some? && fault.Some? ==> Ordinal(first.value) <= Ordinal(fault.value)
    ensures first.Some? && !RadiusAccepted(radius) ==> Ordinal(first.value) <= Ordinal(SetRadius)
    ensures first.Some? ==> first == fault || first == Some(SetRadius)
    ensures first.Some? ==> Throws(first.value, fault, radius)
  {
    if RadiusAccepted(radius) then fault
    else if fault.Some? && Ordinal(fault.value) < Ordinal(SetRadius) then fault
    else Some(SetRadius)
  }

  /** The resources in the order the `try` block creates them. */
  const CreationOrder: seq<Resource> :=
    [RenderScriptContext, InputAllocation, OutputAllocation, BlurScript]

  /**
    How many resources exist when the `try` block ends: the ones whose
    creating call (the first four calls, in order) ran before the first throw.
   */
  function HeldCount(first: Option<Step>): (n: nat)
    ensures n <= 4
  {
    if first.None? || Ordinal(first.value) >= 4 then 4 else Ordinal(first.value)
  }

  /** The resources a pass holds when its `try` block ends, in acquisition order. */
  function Acquisitions(first: Option<Step>): seq<Resource>
  {
    CreatedFirst(HeldCount(first))
  }

  /** The first `held` resources of the creation order. */
  function CreatedFirst(held: nat): seq<Resource>
    requires held <= 4
  {
    if held == 0 then []
    else if held == 1 then [RenderScriptContext]
    else if held == 2 then [RenderScriptContext, InputAllocation]
    else if held == 3 then [RenderScriptContext, InputAllocation, OutputAllocation]
    else CreationOrder
  }

  /** The `finally` block destroys the script, input, output, context, in that order. */
  function ReleaseOrder(acquired: seq<Resource>): seq<Resource>
  {
    (if BlurScript in acquired then [BlurScript] else [])
    + (if InputAllocation in acquired then [InputAllocation] else [])
    + (if OutputAllocation in acquired then [OutputAllocation] else [])
    + (if RenderScriptContext in acquired then [RenderScriptContext] else [])
  }

  /**
    Whatever call throws, the `finally` block destroys each resource the pass
    created exactly once and nothing else: as many destroys as creations, the
    same resources, none destroyed twice.
   */
  lemma {:induction false} ReleasesEveryCreated(held: nat)
    requires held <= 4
    ensures var released := ReleaseOrder(CreatedFirst(held));
      && |released| == |CreatedFirst(held)|
      && (forall x :: x in released <==> x in CreatedFirst(held))
      && (forall i, j :: 0 <= i < j < |released| ==> released[i] != released[j])
  {
  }

  /**
    Whichever call of a pass throws, if any, the resources it destroys are
    exactly the ones it created, each once; a pass where nothing throws
    creates (and so destroys) all four.
   */
  lemma ReleasesEveryAcquired(fault: Option<Step>, radius: real)
    ensures var acquired := Acquisitions(FirstThrow(fault, radius));
      var released := ReleaseOrder(acquired);
      && |released| == |acquired|
      && (forall x :: x in released <==> x in acquired)
      && (forall i, j :: 0 <= i < j < |released| ==> released[i] != released[j])
      && (FirstThrow(fault, radius).None? ==> acquired == CreationOrder)
  {
    ReleasesEveryCreated(HeldCount(FirstThrow(fault, radius)));
  }

  /** A successful pass: a mutable copy, in the source's config or ARGB_8888, blurred. */
  function BlurredCopy(src: Bitmap, radius: real): (r: Bitmap)
    ensures r.width == src.width && r.height == src.height && r.mutable
    ensures r.config == (if src.config.Some? then src.config else Some(Argb8888))
    ensures r.pixels == Blurred(src.pixels, radius)
  {
    var config := if src.config.Some? then src.config.value else Argb8888;
    Copy(src, config).(pixels := Blurred(src.pixels, radius))
  }

  /** What one pass returns: the blurred copy, or the source itself when a call threw. */
  function BlurOutcome(src: Bitmap, radius: real, fault: Option<Step>): (r: Bitmap)
    ensures r.width == src.width && r.height == src.height
    ensures fault.None? && RadiusAccepted(radius) ==> r == BlurredCopy(src, radius)
    ensures fault.None? && RadiusAccepted(radius) ==> r.pixels == Blurred(src.pixels, radius)
    ensures fault.Some? || !RadiusAccepted(radius) ==> r == src
  {
    if FirstThrow(fault, radius).Some? then src else BlurredCopy(src, radius)
  }

  /**
    `blur(src, radius, context)`: one RenderScript pass. The calls of the
    `try` block run in order until one throws; `fault` says which call the
    platform fails, if any. The `finally` block destroys every resource that
    was created, and only those; on a throw the source itself is returned.
    The two ghost results log the native resources created and destroyed.
   */
  method Blur(src: Bitmap, radius: real, context: Context, fault: Option<Step>)
    returns (r: Bitmap, ghost acquired: seq<Resource>, ghost released: seq<Resource>)
    ensures r == BlurOutcome(src, radius, fault)
    ensures acquired == Acquisitions(FirstThrow(fault, radius))
    ensures released == ReleaseOrder(acquired)
  {
    ghost var first := FirstThrow(fault, radius);
    var config := if src.config.Some? then src.config.value else Argb8888;
    var bitmap := Copy(src, config);

    // the nullable locals, as "was created"
    var rs, input, output, script := false, false, false, false;
    acquired := [];

    // try: each call runs only if none before it threw
    var thrown := true;
    if !Throws(CreateContext, fault, radius) {
      rs := true;
      acquired := acquired + [RenderScriptContext];
      if !Throws(CreateInput, fault, radius) {
        input := true;
        acquired := acquired + [InputAllocation];
        if !Throws(CreateOutput, fault, radius) {
          output := true;
          acquired := acquired + [OutputAllocation];
          if !Throws(CreateScript, fault, radius) {
            script := true;
            acquired := acquired + [BlurScript];
            if !Throws(SetRadius, fault, radius)
              && !Throws(SetInput, fault, radius)
              && !Throws(ForEach, fault, radius)
              && !Throws(CopyTo, fault, radius)
            {
              bitmap := bitmap.(pixels := Blurred(bitmap.pixels, radius));
              thrown := false;
            }
          }
        }
      }
    }
    assert thrown == first.Some? by { ThrowSteps(fault, radius); }
    ghost var held := HeldCount(first);
    assert acquired == Acquisitions(first) by { ThrowSteps(fault, radius); }
    assert rs == (held >= 1) && input == (held >= 2) && output == (held >= 3) && script == (held >= 4)
    by { ThrowSteps(fault, radius); }

    // finally
    released := DestroyCreated(rs, input, output, script);
    assert released == ReleaseOrder(acquired) by {
      if held == 0 { assert acquired == []; }
      else if held == 1 { assert acquired == [RenderScriptContext]; }
      else if held == 2 { assert acquired == [RenderScriptContext, InputAllocation]; }
      else if held == 3 { assert acquired == [RenderScriptContext, InputAllocation, OutputAllocation]; }
      else { assert acquired == CreationOrder; }
    }

    r := if thrown then src else bitmap;
  }

  /**
    The `finally` block: destroy the script, the input, the output and the
    context, each only if it was created.
   */
  method DestroyCreated(rs: bool, input: bool, output: bool, script: bool)
    returns (ghost released: seq<Resource>)
    ensures released == (if script then [BlurScript] else []) + (if input then [InputAllocation] else [])
      + (if output then [OutputAllocation] else []) + (if rs then [RenderScriptContext] else [])
  {
    released := [];
    if script { released := released + [BlurScript]; }
    if input { released := released + [InputAllocation]; }
    if output { released := released + [OutputAllocation]; }
    if rs { released := released + [RenderScriptContext]; }
  }

  /** Whether a call with ordinal below `k` threw. */
  predicate ThrownBefore(k: nat, first: Option<Step>)
  {
    first.Some? && Ordinal(first.value) < k
  }

  /** The calls throw in order: the call `s` ends the block when it throws or one before it did. */
  lemma ThrowStep(s: Step, fault: Option<Step>, radius: real)
    ensures ThrownBefore(Ordinal(s) + 1, FirstThrow(fault, radius))
        == (ThrownBefore(Ordinal(s), FirstThrow(fault, radius)) || Throws(s, fault, radius))
  {
  }

  lemma ThrowSteps(fault: Option<Step>, radius: real)
    ensures forall s ::
      ThrownBefore(Ordinal(s) + 1, FirstThrow(fault, radius))
      == (ThrownBefore(Ordinal(s), FirstThrow(fault, radius)) || Throws(s, fault, radius))
    ensures !ThrownBefore(0, FirstThrow(fault, radius))
    ensures ThrownBefore(8, FirstThrow(fault, radius)) == FirstThrow(fault, radius).Some?
  {
    forall s { ThrowStep(s, fault, radius); }
  }

  // ---------------------------------------------------------------------
  // The staged blur

  /**
    The bitmap after the first `n` stages, each a pass of `stageRadius` on the
    previous stage's output, stage `i` failing as `faults(i)` says.
   */
  function Staged(b: Bitmap, stageRadius: real, n: nat, faults: nat -> Option<Step>): (r: Bitmap)
    ensures r.width == b.width && r.height == b.height
    decreases n
  {
    if n == 0 then b
    else BlurOutcome(Staged(b, stageRadius, n - 1, faults), stageRadius, faults(n - 1))
  }

  /** The width and height `apply` downscales to. */
  function DownscaledWidth(src: Bitmap): (w: int)
    ensures 1 <= w <= MaxInt
  {
    ScaledSidePositive(src.width, src.height);
    ScaledSide(src.width, ScaleFactor(src.width, src.height))
  }

  function DownscaledHeight(src: Bitmap): (h: int)
    ensures 1 <= h <= MaxInt
  {
    ScaledSidePositive(src.width, src.height);
    ScaledSide(src.height, ScaleFactor(src.width, src.height))
  }

  /**
    The downscaled sides are the floors of `side * scale` (short of the `int`
    range, where the cast saturates).
   */
  lemma DownscaledSidesAreFloors(src: Bitmap)
    ensures var s := ScaleFactor(src.width, src.height);
      && (src.width as real * s < MaxInt as real ==> DownscaledWidth(src) == (src.width as real * s).Floor)
      && (src.height as real * s < MaxInt as real ==> DownscaledHeight(src) == (src.height as real * s).Floor)
  {
  }

  /** What `apply` returns: downscale, run every stage, scale back to the source's size. */
  function ApplyResult(src: Bitmap, radius: real, faults: nat -> Option<Step>): (r: Bitmap)
    ensures r.width == src.width && r.height == src.height
    ensures r.mutable && r.config.Some? && r.config.value != Argb4444
  {
    var small := CreateScaledBitmap(src, DownscaledWidth(src), DownscaledHeight(src));
    var blurred := Staged(small, StageRadius(radius), StageCount(radius), faults);
    CreateScaledBitmap(blurred, src.width, src.height)
  }

  /** `apply(src, radius, context)` */
  method Apply(src: Bitmap, radius: real, context: Context, faults: nat -> Option<Step>)
    returns (r: Bitmap)
    ensures r == ApplyResult(src, radius, faults)
    ensures r.width == src.width && r.height == src.height
  {
    var scale := ScaleFactor(src.width, src.height);
    var width := ScaledSide(src.width, scale);
    var height := ScaledSide(src.height, scale);
    ScaledSidePositive(src.width, src.height);
    var bitmap := CreateScaledBitmap(src, width, height);
    ghost var small := bitmap;

    var stages := Stages(radius);
    var stageRadius := if stages == 0 then 0.0 else radius / stages as real;
    assert stageRadius == StageRadius(radius);
    var i := 0;
    while i < stages
      invariant 0 <= i <= StageCount(radius)
      invariant bitmap == Staged(small, stageRadius, i, faults)
    {
      ghost var acquired, released;
      bitmap, acquired, released := Blur(bitmap, stageRadius, context, faults(i));
      i := i + 1;
    }
    r := CreateScaledBitmap(bitmap, src.width, src.height);
  }

  /** `clean(view)`: this engine keeps no per-view state; nothing happens. */
  method Clean(view: View?)
    ensures view != null ==> view.State() == old(view.State())
  {
  }

  // ---------------------------------------------------------------------
  // Properties of the staged blur

  /** `n` passes of radius `r`, each on the previous pass's output. */
  function RepeatBlur(p: Pixels, r: real, n: nat): Pixels
  {
    if n == 0 then p else Blurred(RepeatBlur(p, r, n - 1), r)
  }

  /**
    When no stage fails and the stage radius is one the primitive accepts,
    the staged blur is exactly `n` passes of that radius on its input.
   */
  lemma {:induction false} StagedWithoutFaults(b: Bitmap, stageRadius: real, n: nat, faults: nat -> Option<Step>)
    requires RadiusAccepted(stageRadius)
    requires forall i :: 0 <= i < n ==> faults(i).None?
    ensures Staged(b, stageRadius, n, faults).pixels == RepeatBlur(b.pixels, stageRadius, n)
  {
    if n > 0 {
      StagedWithoutFaults(b, stageRadius, n - 1, faults);
    }
  }

  /**
    For a normalized radius and no platform failure, `apply` scales the source
    down, blurs it `ceil(radius / 25)` times with `radius / stages` (never
    tripping the primitive's 25 limit) and scales the result back up.
   */
  lemma ApplyWithoutFaults(src: Bitmap, radius: real, faults: nat -> Option<Step>)
    requires 0.0 < radius <= 200.0
    requires forall i :: 0 <= i < Stages(radius) ==> faults(i).None?
    ensures ApplyResult(src, radius, faults).pixels
         == Scaled(RepeatBlur(Scaled(src.pixels, DownscaledWidth(src), DownscaledHeight(src)),
                              StageRadius(radius), Stages(radius)),
                   src.width, src.height)
  {
    StagesSplitRadius(radius);
    var small := CreateScaledBitmap(src, DownscaledWidth(src), DownscaledHeight(src));
    StagedWithoutFaults(small, StageRadius(radius), StageCount(radius), faults);
  }

  /**
    The passes never see the source's own config: each reads the config of the
    downscaled bitmap, so an ARGB_4444 or config-less source is blurred as
    ARGB_8888, and every pass's result, failed or not, keeps that config.
   */
  lemma {:induction false} StagedConfig(src: Bitmap, stageRadius: real, n: nat, faults: nat -> Option<Step>)
    ensures var small := CreateScaledBitmap(src, DownscaledWidth(src), DownscaledHeight(src));
      Staged(small, stageRadius, n, faults).config == Some(ScaledConfig(src.config))
    decreases n
  {
    if n > 0 {
      StagedConfig(src, stageRadius, n - 1, faults);
    }
  }

  /** A stage that fails hands its input on unchanged to the next stage. */
  lemma FailedStageIsIdentity(b: Bitmap, stageRadius: real, n: nat, faults: nat -> Option<Step>)
    requires faults(n).Some?
    ensures Staged(b, stageRadius, n + 1, faults) == Staged(b, stageRadius, n, faults)
  {
  }
}
