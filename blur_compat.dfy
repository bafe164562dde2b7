/**
  The dispatch between the two blur engines on the platform's API level:
  the render-effect engine from Android 12 (API level 31) on, the RenderScript
  engine before it. The API level is a parameter.
 */
module BlurCompat {
  import opened Platform
  import ScriptEngine
  import EffectEngine

  /** `Build.VERSION_CODES.S` */
  const VersionS: int := 31

  datatype Engine = RenderScriptEngine | RenderEffectEngine

  /** The one test both `blur` and `clean` make. */
  function SelectEngine(sdk: int): (e: Engine)
    ensures e == RenderEffectEngine <==> sdk >= VersionS
  {
    if sdk >= VersionS then RenderEffectEngine else RenderScriptEngine
  }

  /** The bitmap `blur` returns. */
  function BlurResult(sdk: int, bitmap: Bitmap, radius: real, faults: nat -> Option<ScriptEngine.Step>): Bitmap
  {
    match SelectEngine(sdk)
    case RenderEffectEngine => bitmap
    case RenderScriptEngine => ScriptEngine.ApplyResult(bitmap, radius, faults)
  }

  /** The view `blur` leaves behind. */
  function BlurredView(sdk: int, s: ViewState, bitmap: Bitmap, radius: real): ViewState
  {
    match SelectEngine(sdk)
    case RenderEffectEngine => EffectEngine.AfterApply(s, bitmap, radius)
    case RenderScriptEngine => s
  }

  /** The view `clean` leaves behind. */
  function CleanedView(sdk: int, s: ViewState): ViewState
  {
    match SelectEngine(sdk)
    case RenderEffectEngine => EffectEngine.AfterClean(s)
    case RenderScriptEngine => s
  }

  /**
    `blur(context, bitmap, radius, view)`. The RenderScript engine's failures
    are the `faults` of its stages.
   */
  method Blur(sdk: int, context: Context, bitmap: Bitmap, radius: real, view: View,
              faults: nat -> Option<ScriptEngine.Step>)
    returns (r: Bitmap)
    modifies view
    ensures r == BlurResult(sdk, bitmap, radius, faults)
    ensures view.State() == BlurredView(sdk, old(view.State()), bitmap, radius)
  {
    if sdk >= VersionS {
      r := EffectEngine.Apply(bitmap, radius, view);
    } else {
      r := ScriptEngine.Apply(bitmap, radius, context, faults);
    }
  }

  /** `clean(view)` */
  method Clean(sdk: int, view: View?)
    modifies view
    ensures view != null ==> view.State() == CleanedView(sdk, old(view.State()))
  {
    if sdk >= VersionS {
      EffectEngine.Clean(view);
    } else {
      ScriptEngine.Clean(view);
    }
  }

  /**
    From API level 31 on, `blur` hands the bitmap back and puts the effect on
    the view; the context plays no part.
   */
  lemma EffectEngineOnNewPlatforms(sdk: int, s: ViewState, bitmap: Bitmap, radius: real,
                                   faults: nat -> Option<ScriptEngine.Step>)
    requires sdk >= VersionS
    ensures BlurResult(sdk, bitmap, radius, faults) == bitmap
    ensures BlurredView(sdk, s, bitmap, radius) == EffectEngine.AfterApply(s, bitmap, radius)
    ensures CleanedView(sdk, s) == EffectEngine.AfterClean(s)
  {
  }

  /**
    Below API level 31, `blur` returns the RenderScript result, which keeps the
    bitmap's size, and neither `blur` nor `clean` changes the view.
   */
  lemma ScriptEngineOnOldPlatforms(sdk: int, s: ViewState, bitmap: Bitmap, radius: real,
                                   faults: nat -> Option<ScriptEngine.Step>)
    requires sdk < VersionS
    ensures BlurResult(sdk, bitmap, radius, faults) == ScriptEngine.ApplyResult(bitmap, radius, faults)
    ensures BlurResult(sdk, bitmap, radius, faults).width == bitmap.width
    ensures BlurResult(sdk, bitmap, radius, faults).height == bitmap.height
    ensures BlurredView(sdk, s, bitmap, radius) == s
    ensures CleanedView(sdk, s) == s
  {
  }

  /**
    `blur` and `clean` reach the same engine: the view is touched by `clean`
    exactly when it is touched by `blur`.
   */
  lemma BlurAndCleanAgree(sdk: int, s: ViewState, bitmap: Bitmap, radius: real)
    ensures (CleanedView(sdk, s) == s) <==> (sdk < VersionS)
    ensures sdk >= VersionS ==> BlurredView(sdk, s, bitmap, radius).listenerTag == BooleanObject(true)
  {
    if sdk >= VersionS {
      assert CleanedView(sdk, s).invalidations == s.invalidations + 1;
    }
  }
}
