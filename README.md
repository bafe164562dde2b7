# Blur core of react-native-fast-image (Android), in Dafny

This project models the Android blur subsystem of react-native-fast-image and
proves properties of the model. The subsystem decides whether and how an image
is blurred, and what state it leaves on the image view. It has five parts, one
Dafny module each, plus a platform module:

- `Platform` (`platform.dfy`): the slice of Java and Android the blur code
  relies on.
  - Java `int` and the narrowing casts `(int)` and `intValue()`.
  - `Math.ceil`.
  - Bitmaps, whose pixel content is an uninterpreted term.
  - Loosely typed Java objects as seen through `instanceof`.
  - The image view as a class. Its fields are its size, three tags, its
    layout-change listeners, its render effect and an invalidation count.
- `ScriptEngine` (`script_engine.dfy`): the RenderScript engine used below
  API level 31. It works as follows.
  - It downscales the bitmap by a factor clamped to [0.1, 1.5].
  - It splits the radius into `ceil(radius / 25)` equal stages.
  - It runs one blur pass per stage and scales the result back.
  - Each pass is a method whose `try` calls may fail (the `fault` parameter).
    Ghost logs record the native resources it creates and destroys.
- `EffectEngine` (`effect_engine.dfy`): the render-effect engine used from
  API level 31 on.
  - `apply`, `blur`, `ensureDynamicApply`, the layout-change callback and
    `clean` are methods that modify the view.
  - Each method is specified by a function on the view's state snapshot.
  - The engine's behaviour is proved as lemmas about those functions:
    - the register-once guard;
    - an invariant every operation keeps;
    - the listener leak described below.
- `BlurCompat` (`blur_compat.dfy`): the choice of engine by `SDK_INT >= 31`,
  for `blur` and for `clean`.
- `BlurTransformation` (`blur_transformation.dfy`): the Glide transformation
  value. It covers:
  - radius normalization to [0.1, 200];
  - `equals`, which depends on the SDK level;
  - `hashCode`;
  - the disk-cache key bytes (the UTF-8 ID followed by the radius's bits, big-endian);
  - `transform` and `clean`.
- `BlurHelper` (`blur_helper.dfy`): the option gate. It reads `view`,
  `blurRadius` and `blurRadiusShouldClean` from the image options. It cleans
  the view when asked, and adds one transformation for a positive radius.

Floats are modelled as mathematical reals. IEEE 754 rounding is abstracted
away, and NaN and the infinities are not represented. The SDK level, the
platform failures and the library hashes are parameters.

**`clean` never unregisters the re-apply listener.** It removes a listener
only when the listener tag holds one
(transformations/FastImageBlurEffectEngine.java:82-85). `ensureDynamicApply`
only ever stores `Boolean true` in that tag (line 70). In every state the
engine can produce (`EffectEngine.Coherent`), `clean` therefore leaves the
listener list unchanged. Each apply/clean round registers one more re-apply
listener (`EffectEngine.CyclesLeakListeners`, `EffectEngine.ApplyCleanApply`).
A second `clean` in a row changes nothing but the invalidation count
(`EffectEngine.CleanTwice`), in every state, because the first `clean` sets the
listener tag to null.

## Model

| member | source | states |
|---|---|---|
| `Platform.Ceil` | android/src/main/java/com/dylanvann/fastimage/transformations/FastImageBlurScriptEngine.java:36 | `Math.ceil`: the least integer not below its argument |
| `Platform.FloatToInt` | android/src/main/java/com/dylanvann/fastimage/transformations/FastImageBlurScriptEngine.java:31-32 | `(int)` on a float truncates toward zero: the floor for non-negative values, the ceiling for negative ones, saturating at the `int` range |
| `Platform.LongToInt` | android/src/main/java/com/dylanvann/fastimage/FastImageBlurHelper.java:47 | `Long.intValue()` keeps the value modulo 2^32 in the `int` range, and is the identity on values that fit |
| `Platform.CreateScaledBitmap` | android/src/main/java/com/dylanvann/fastimage/transformations/FastImageBlurScriptEngine.java:33 | the scaled bitmap has exactly the requested sides, shows the scaled picture, is mutable and takes the config `ScaledConfig` chooses; sides must be positive |
| `Platform.ScaledConfig` | android/src/main/java/com/dylanvann/fastimage/transformations/FastImageBlurScriptEngine.java:33 | the config `createScaledBitmap` gives its result: RGB_565, ALPHA_8 and RGBA_F16 are kept, ARGB_4444, ARGB_8888 and a missing config become ARGB_8888, never ARGB_4444 |
| `Platform.Copy` | android/src/main/java/com/dylanvann/fastimage/transformations/FastImageBlurScriptEngine.java:51 | `copy(config, true)` keeps picture and size, takes the given config and is mutable |
| `ScriptEngine.ScaleFactorBounds` | android/src/main/java/com/dylanvann/fastimage/transformations/FastImageBlurScriptEngine.java:26-29 | the downscale factor is the mean of 540/width and 540/height clamped to [0.1, 1.5]: the mean when in range, 0.1 below it, 1.5 above it |
| `ScriptEngine.ScaledSidePositive` | android/src/main/java/com/dylanvann/fastimage/transformations/FastImageBlurScriptEngine.java:31-33 | for every bitmap size both downscaled sides are at least 1, so `createScaledBitmap` never rejects them |
| `ScriptEngine.ScaledProductAtLeastOne` | android/src/main/java/com/dylanvann/fastimage/transformations/FastImageBlurScriptEngine.java:26-31 | a side multiplied by the clamped factor is at least one pixel |
| `ScriptEngine.ScaledSide` | android/src/main/java/com/dylanvann/fastimage/transformations/FastImageBlurScriptEngine.java:31-32 | specification function of `(int) (side * scale)`, with no contract of its own; `ScaledSidePositive` and `DownscaledSidesAreFloors` state that it is at least 1 and the floor below the `int` limit |
| `ScriptEngine.DownscaledWidth` | android/src/main/java/com/dylanvann/fastimage/transformations/FastImageBlurScriptEngine.java:31 | the downscaled width is a valid bitmap side |
| `ScriptEngine.DownscaledHeight` | android/src/main/java/com/dylanvann/fastimage/transformations/FastImageBlurScriptEngine.java:32 | the downscaled height is a valid bitmap side |
| `ScriptEngine.DownscaledSidesAreFloors` | android/src/main/java/com/dylanvann/fastimage/transformations/FastImageBlurScriptEngine.java:31-32 | the downscaled sides are `floor(side * scale)` below the `int` limit |
| `ScriptEngine.ScaleFactor` | android/src/main/java/com/dylanvann/fastimage/transformations/FastImageBlurScriptEngine.java:26-29 | specification function of the downscale factor, with no contract of its own; its clamp is stated by `ScaleFactorBounds` |
| `ScriptEngine.Stages` | android/src/main/java/com/dylanvann/fastimage/transformations/FastImageBlurScriptEngine.java:36 | specification function of `(int) Math.ceil(radius / 25)`, with no contract of its own; its properties are stated by `StagesSplitRadius` and `StagesExamples` |
| `ScriptEngine.StageRadius` | android/src/main/java/com/dylanvann/fastimage/transformations/FastImageBlurScriptEngine.java:37 | specification function of `radius / stages`, with no contract of its own; `StagesSplitRadius` states that it lies in (0, 25] and that the stages add up to the radius |
| `ScriptEngine.StageCount` | android/src/main/java/com/dylanvann/fastimage/transformations/FastImageBlurScriptEngine.java:38 | specification function of how often the loop `i < stages` runs (0 for a non-positive count), with no contract of its own; `StagesSplitRadius` states that it equals `stages` for a positive radius and `StagesExamples` that it is 0 for radius 0 and −30 |
| `ScriptEngine.RadiusAccepted` | android/src/main/java/com/dylanvann/fastimage/transformations/FastImageBlurScriptEngine.java:64 | specification predicate of the radii `setRadius` accepts, (0, 25], with no contract of its own; `StagesWithinLimit` and `StagesSplitRadius` state that every stage radius `apply` uses is accepted |
| `ScriptEngine.Throws` | android/src/main/java/com/dylanvann/fastimage/transformations/FastImageBlurScriptEngine.java:58-67 | specification predicate of whether one `try` call throws (the platform's fault, or `setRadius` on a rejected radius), with no contract of its own; `FirstThrow` and `ThrowSteps` state how it decides where the block ends |
| `ScriptEngine.StagesSplitRadius` | android/src/main/java/com/dylanvann/fastimage/transformations/FastImageBlurScriptEngine.java:36-38 | for a radius in (0, 25 × (2^31 − 1)], where the stage count still fits an `int`: at least one stage, the loop runs exactly `stages` times, each stage radius is in (0, 25], stages × stage radius = radius, and a radius ≤ 25 is one stage |
| `ScriptEngine.StagesExamples` | android/src/main/java/com/dylanvann/fastimage/transformations/FastImageBlurScriptEngine.java:36-37 | 60 → 3 stages of 20, 25 → one stage of 25, 0.1 → one stage; radius 0 or −30 runs no stage |
| `ScriptEngine.FirstThrow` | android/src/main/java/com/dylanvann/fastimage/transformations/FastImageBlurScriptEngine.java:58-69 | a pass fails exactly when the platform faults or `setRadius` rejects the radius, at the earliest such call: the call it names does throw, and no platform fault comes earlier |
| `ScriptEngine.HeldCount` | android/src/main/java/com/dylanvann/fastimage/transformations/FastImageBlurScriptEngine.java:59-62 | at most the four resources exist when the `try` block ends |
| `ScriptEngine.ReleaseOrder` | android/src/main/java/com/dylanvann/fastimage/transformations/FastImageBlurScriptEngine.java:71-76 | specification function of the `finally` block's destroys (script, input, output, context, each if created), with no contract of its own; `ReleasesEveryCreated` and `ReleasesEveryAcquired` state that it destroys exactly what was created, once each |
| `ScriptEngine.ReleasesEveryCreated` | android/src/main/java/com/dylanvann/fastimage/transformations/FastImageBlurScriptEngine.java:71-76 | for every prefix of the creation order, the `finally` block destroys as many resources as were created: the same ones, none twice |
| `ScriptEngine.ReleasesEveryAcquired` | android/src/main/java/com/dylanvann/fastimage/transformations/FastImageBlurScriptEngine.java:53-76 | whichever call throws, the destroyed resources are exactly the created ones, each once; without a throw all four are created and destroyed |
| `ScriptEngine.DestroyCreated` | android/src/main/java/com/dylanvann/fastimage/transformations/FastImageBlurScriptEngine.java:71-76 | destroys script, input, output, context in that order, each only if it is non-null |
| `ScriptEngine.BlurredCopy` | android/src/main/java/com/dylanvann/fastimage/transformations/FastImageBlurScriptEngine.java:50-51 | a successful pass returns a mutable same-size copy in the source config (ARGB_8888 when null) showing the blurred picture |
| `ScriptEngine.BlurOutcome` | android/src/main/java/com/dylanvann/fastimage/transformations/FastImageBlurScriptEngine.java:69-78 | a pass keeps the size; when the platform faults or `setRadius` rejects the radius it returns the source itself; otherwise it returns the blurred copy |
| `ScriptEngine.Blur` | android/src/main/java/com/dylanvann/fastimage/transformations/FastImageBlurScriptEngine.java:49-79 | the pass returns the outcome above, creates resources in order until the first throw, and destroys exactly those in `finally` order |
| `ScriptEngine.ThrowStep` | android/src/main/java/com/dylanvann/fastimage/transformations/FastImageBlurScriptEngine.java:58-67 | the `try` calls run in order: the block has ended after a call iff it ended before it or that call throws |
| `ScriptEngine.ThrowSteps` | android/src/main/java/com/dylanvann/fastimage/transformations/FastImageBlurScriptEngine.java:58-69 | the per-call fact above for every call; nothing has thrown before the first call and the block threw iff some call did |
| `ScriptEngine.Staged` | android/src/main/java/com/dylanvann/fastimage/transformations/FastImageBlurScriptEngine.java:38-40 | each stage preserves the bitmap's size |
| `ScriptEngine.ApplyResult` | android/src/main/java/com/dylanvann/fastimage/transformations/FastImageBlurScriptEngine.java:42 | the result of `apply` has the source's width and height; it is mutable and has a config, never ARGB_4444 |
| `ScriptEngine.Apply` | android/src/main/java/com/dylanvann/fastimage/transformations/FastImageBlurScriptEngine.java:23-43 | the loop runs the pass once per stage, each on the previous output; the result has the source's size |
| `ScriptEngine.StagedWithoutFaults` | android/src/main/java/com/dylanvann/fastimage/transformations/FastImageBlurScriptEngine.java:38-40 | with no failures the stages are exactly `n` blurs of the stage radius chained on each other |
| `ScriptEngine.ApplyWithoutFaults` | android/src/main/java/com/dylanvann/fastimage/transformations/FastImageBlurScriptEngine.java:31-42 | for a radius in (0, 200] and no failures: downscale, `ceil(r/25)` blurs of `r/stages`, scale back |
| `ScriptEngine.StagedConfig` | android/src/main/java/com/dylanvann/fastimage/transformations/FastImageBlurScriptEngine.java:33-40 | every stage reads and keeps the downscaled bitmap's config, so an ARGB_4444 or config-less source is blurred as ARGB_8888 |
| `ScriptEngine.FailedStageIsIdentity` | android/src/main/java/com/dylanvann/fastimage/transformations/FastImageBlurScriptEngine.java:69-70 | a failing stage passes its input on unchanged |
| `ScriptEngine.Clean` | android/src/main/java/com/dylanvann/fastimage/transformations/FastImageBlurScriptEngine.java:86 | does nothing: the view's state is unchanged |
| `EffectEngine.EffectScale` | android/src/main/java/com/dylanvann/fastimage/transformations/FastImageBlurEffectEngine.java:29-33 | the source size cancels: the scale is `(viewWidth + viewHeight) / 2 / 540` |
| `EffectEngine.EffectRadius` | android/src/main/java/com/dylanvann/fastimage/transformations/FastImageBlurEffectEngine.java:35-36 | the effect radius is `radius * scale` clamped to [0.1, 200]: unchanged in range, the bound outside |
| `EffectEngine.Resized` | android/src/main/java/com/dylanvann/fastimage/transformations/FastImageBlurEffectEngine.java:59 | the callback's resize test: true iff the new and old widths, or heights, differ modulo 2^32, as the `int` subtractions wrap |
| `Platform.LongToIntCongruent` | android/src/main/java/com/dylanvann/fastimage/transformations/FastImageBlurEffectEngine.java:59 | two values read as the same `int` iff they agree modulo 2^32 |
| `EffectEngine.Sub` | android/src/main/java/com/dylanvann/fastimage/transformations/FastImageBlurEffectEngine.java:59 | specification function of Java's wrapping `int` subtraction, with no contract of its own; `Resized` and `Platform.LongToIntCongruent` state that it compares differences modulo 2^32 |
| `EffectEngine.AfterEnsureDynamicApply` | android/src/main/java/com/dylanvann/fastimage/transformations/FastImageBlurEffectEngine.java:54-71 | specification function of the view state `ensureDynamicApply` leaves, with no contract of its own; `ApplyRegistersOnce` and `RepeatedApplyAddsNoListener` state the register-once guard |
| `EffectEngine.AfterBlur` | android/src/main/java/com/dylanvann/fastimage/transformations/FastImageBlurEffectEngine.java:43-48 | specification function of the view state `blur` leaves, with no contract of its own; `ApplyStoresArguments` states the effect and the single invalidation |
| `EffectEngine.AfterApply` | android/src/main/java/com/dylanvann/fastimage/transformations/FastImageBlurEffectEngine.java:24-38 | specification function of the view state `apply` leaves, with no contract of its own; its properties are stated by `ApplyStoresArguments` and `ApplyRegistersOnce` |
| `EffectEngine.AfterLayoutChange` | android/src/main/java/com/dylanvann/fastimage/transformations/FastImageBlurEffectEngine.java:58-69 | specification function of the view state the callback leaves, with no contract of its own; its properties are stated by `LayoutChangeReappliesOnlyOnResize` and `CallbackAddsNoListener` |
| `EffectEngine.AfterClean` | android/src/main/java/com/dylanvann/fastimage/transformations/FastImageBlurEffectEngine.java:76-90 | specification function of the view state `clean` leaves, with no contract of its own; its properties are stated by `CleanKeepsListeners` and `CleanTwice` |
| `EffectEngine.FirstIndex` | android/src/main/java/com/dylanvann/fastimage/transformations/FastImageBlurEffectEngine.java:84 | finds the first registration of a listener |
| `EffectEngine.RemoveFirst` | android/src/main/java/com/dylanvann/fastimage/transformations/FastImageBlurEffectEngine.java:84 | specification function of `removeOnLayoutChangeListener`, with no contract of its own; `RemoveFirstDropsOne` states that it drops exactly one registration of a registered listener |
| `EffectEngine.RemoveFirstDropsOne` | android/src/main/java/com/dylanvann/fastimage/transformations/FastImageBlurEffectEngine.java:84 | removing a registered listener drops exactly one occurrence of it |
| `EffectEngine.Apply` | android/src/main/java/com/dylanvann/fastimage/transformations/FastImageBlurEffectEngine.java:24-38 | returns the source bitmap; the new view state is the one `apply` specifies |
| `EffectEngine.Blur` | android/src/main/java/com/dylanvann/fastimage/transformations/FastImageBlurEffectEngine.java:43-48 | returns the source; sets a blur effect of that radius on both axes and invalidates once |
| `EffectEngine.EnsureDynamicApply` | android/src/main/java/com/dylanvann/fastimage/transformations/FastImageBlurEffectEngine.java:54-71 | registers the re-apply listener and sets the tag to `true` unless the tag is already `Boolean true` |
| `EffectEngine.OnLayoutChange` | android/src/main/java/com/dylanvann/fastimage/transformations/FastImageBlurEffectEngine.java:58-69 | the callback: no change unless resized with a bitmap and a number stored, else `apply` with them |
| `EffectEngine.Clean` | android/src/main/java/com/dylanvann/fastimage/transformations/FastImageBlurEffectEngine.java:76-90 | null: nothing; otherwise no effect, one invalidation, listener removed only if the tag holds one, three tags null |
| `EffectEngine.ApplyStoresArguments` | android/src/main/java/com/dylanvann/fastimage/transformations/FastImageBlurEffectEngine.java:25-47 | after `apply` the tags hold its arguments, the guard is set, the effect radius is the clamped `radius·(w+h)/2/540`, one invalidation, size untouched |
| `EffectEngine.ApplyRegistersOnce` | android/src/main/java/com/dylanvann/fastimage/transformations/FastImageBlurEffectEngine.java:55-70 | `apply` appends one re-apply listener iff the guard was not set, and none otherwise |
| `EffectEngine.RepeatedApplyAddsNoListener` | android/src/main/java/com/dylanvann/fastimage/transformations/FastImageBlurEffectEngine.java:55-56 | a second `apply`, with any arguments, registers nothing |
| `EffectEngine.LayoutChangeReappliesOnlyOnResize` | android/src/main/java/com/dylanvann/fastimage/transformations/FastImageBlurEffectEngine.java:59-68 | unchanged size or a missing/ill-typed tag: the view is untouched; otherwise the callback re-applies with the stored bitmap and radius |
| `EffectEngine.CoherentInitially` | android/src/main/java/com/dylanvann/fastimage/transformations/FastImageBlurEffectEngine.java:54-56 | a view without tags, listeners or effect is in an engine state |
| `EffectEngine.CoherentPreserved` | android/src/main/java/com/dylanvann/fastimage/transformations/FastImageBlurEffectEngine.java:24-90 | `apply`, the callback and `clean` keep the invariant: a stored source implies the guard, the guard implies a registered listener, the tag never holds a listener |
| `EffectEngine.CallbackAddsNoListener` | android/src/main/java/com/dylanvann/fastimage/transformations/FastImageBlurEffectEngine.java:58-70 | in an engine state the re-apply from the callback never registers another listener |
| `EffectEngine.CleanKeepsListeners` | android/src/main/java/com/dylanvann/fastimage/transformations/FastImageBlurEffectEngine.java:77-89 | `clean` removes the effect, invalidates, clears the tags, and leaves every listener registered |
| `EffectEngine.CleanTwice` | android/src/main/java/com/dylanvann/fastimage/transformations/FastImageBlurEffectEngine.java:76-90 | a second `clean` changes nothing but the invalidation count |
| `EffectEngine.CyclesLeakListeners` | android/src/main/java/com/dylanvann/fastimage/transformations/FastImageBlurEffectEngine.java:70-85 | `n` apply/clean rounds on an unregistered view leave exactly `n` more re-apply listeners |
| `EffectEngine.ApplyCleanApply` | android/src/main/java/com/dylanvann/fastimage/transformations/FastImageBlurEffectEngine.java:24-90 | apply, clean, apply on a fresh view leaves two re-apply listeners and the guard set |
| `BlurCompat.SelectEngine` | android/src/main/java/com/dylanvann/fastimage/transformations/FastImageBlurCompat.java:17 | the render-effect engine is chosen exactly when `SDK_INT >= 31` |
| `BlurCompat.Blur` | android/src/main/java/com/dylanvann/fastimage/transformations/FastImageBlurCompat.java:16-22 | delegates to the effect engine with (bitmap, radius, view) or to the script engine with (bitmap, radius, context) |
| `BlurCompat.Clean` | android/src/main/java/com/dylanvann/fastimage/transformations/FastImageBlurCompat.java:24-30 | cleans with the engine the same test selects |
| `BlurCompat.BlurResult` | android/src/main/java/com/dylanvann/fastimage/transformations/FastImageBlurCompat.java:16-22 | specification function of the bitmap `blur` returns, with no contract of its own; `EffectEngineOnNewPlatforms` and `ScriptEngineOnOldPlatforms` state it per API level |
| `BlurCompat.BlurredView` | android/src/main/java/com/dylanvann/fastimage/transformations/FastImageBlurCompat.java:16-22 | specification function of the view state `blur` leaves, with no contract of its own; `EffectEngineOnNewPlatforms`, `ScriptEngineOnOldPlatforms` and `BlurAndCleanAgree` state it per API level |
| `BlurCompat.CleanedView` | android/src/main/java/com/dylanvann/fastimage/transformations/FastImageBlurCompat.java:24-30 | specification function of the view state `clean` leaves, with no contract of its own; `BlurAndCleanAgree` states that it changes the view iff the API level is at least 31 |
| `BlurCompat.EffectEngineOnNewPlatforms` | android/src/main/java/com/dylanvann/fastimage/transformations/FastImageBlurCompat.java:17-18 | from API 31 on `blur` returns the bitmap and applies the effect to the view; the context plays no part |
| `BlurCompat.ScriptEngineOnOldPlatforms` | android/src/main/java/com/dylanvann/fastimage/transformations/FastImageBlurCompat.java:19-28 | below API 31 `blur` returns the RenderScript result of the bitmap's size, and neither `blur` nor `clean` changes the view |
| `BlurCompat.BlurAndCleanAgree` | android/src/main/java/com/dylanvann/fastimage/transformations/FastImageBlurCompat.java:17-25 | `clean` touches the view exactly when the platform uses the engine that `blur` puts on the view |
| `BlurTransformation.NormalizeBlurRadius` | android/src/main/java/com/dylanvann/fastimage/FastImageBlurTransformation.java:64-66 | the stored radius is in [0.1, 200]: unchanged in range, 0.1 below, 200 above |
| `BlurTransformation.NormalizeIsIdempotent` | android/src/main/java/com/dylanvann/fastimage/FastImageBlurTransformation.java:64-66 | normalizing a normalized radius changes nothing |
| `BlurTransformation.NormalizeIsMonotone` | android/src/main/java/com/dylanvann/fastimage/FastImageBlurTransformation.java:64-66 | normalization preserves order |
| `Platform.ApplicationContext` | android/src/main/java/com/dylanvann/fastimage/FastImageBlurTransformation.java:30 | specification function of `getApplicationContext()`, with no contract of its own; `BlurHelper.PositiveRadiusAddsOneTransformation` states that the new transformation holds it |
| `BlurTransformation.Create` | android/src/main/java/com/dylanvann/fastimage/FastImageBlurTransformation.java:29-33 | the constructor as a function, with no contract of its own: application context, normalized radius, view; `NormalizeBlurRadius` states the radius's range |
| `BlurTransformation.Transform` | android/src/main/java/com/dylanvann/fastimage/FastImageBlurTransformation.java:36-38 | hands the bitmap with the stored radius, context and view to the dispatcher unchanged |
| `BlurTransformation.StagesWithinLimit` | android/src/main/java/com/dylanvann/fastimage/FastImageBlurTransformation.java:31 | a stored radius always splits into 1 to 8 RenderScript stages the primitive accepts |
| `BlurTransformation.TransformOnOldPlatforms` | android/src/main/java/com/dylanvann/fastimage/FastImageBlurTransformation.java:36-38 | below API 31 and without failures the transformed bitmap keeps its size and is the staged blur of the downscaled picture, scaled back |
| `BlurTransformation.NeverEqualOnNewPlatforms` | android/src/main/java/com/dylanvann/fastimage/FastImageBlurTransformation.java:42-44 | from API 31 on `equals` is false for every argument, the object itself included |
| `BlurTransformation.EqualsComparesRadius` | android/src/main/java/com/dylanvann/fastimage/FastImageBlurTransformation.java:46-50 | below API 31 `equals` holds iff the other object is a transformation with the same radius; view and context are ignored |
| `BlurTransformation.Equals` | android/src/main/java/com/dylanvann/fastimage/FastImageBlurTransformation.java:41-51 | specification function of `equals`, with no contract of its own; its properties are stated by `NeverEqualOnNewPlatforms`, `EqualsComparesRadius` and `EqualsIsEquivalence` |
| `BlurTransformation.EqualsIsEquivalence` | android/src/main/java/com/dylanvann/fastimage/FastImageBlurTransformation.java:41-51 | below API 31 `equals` is reflexive, symmetric and transitive on transformations |
| `BlurTransformation.HashCode` | android/src/main/java/com/dylanvann/fastimage/FastImageBlurTransformation.java:54-56 | specification function of `hashCode` (a wrapping `int` sum), with no contract of its own; its properties are stated by `HashCodeFollowsRadiusBits` and `EqualImpliesSameHash` |
| `BlurTransformation.HashCodeFollowsRadiusBits` | android/src/main/java/com/dylanvann/fastimage/FastImageBlurTransformation.java:54-56 | the hash code depends only on the radius: equal for equal bit patterns, different for different ones |
| `BlurTransformation.EqualImpliesSameHash` | android/src/main/java/com/dylanvann/fastimage/FastImageBlurTransformation.java:41-56 | transformations that are equal have equal hash codes |
| `BlurTransformation.EncodeChar` | android/src/main/java/com/dylanvann/fastimage/FastImageBlurTransformation.java:23 | UTF-8 encodes a character in 1 to 4 bytes, one byte (its code) exactly for ASCII |
| `BlurTransformation.Utf8` | android/src/main/java/com/dylanvann/fastimage/FastImageBlurTransformation.java:23 | specification function of `getBytes` with UTF-8, which also defines `IdBytes` (`ID_BYTES`), with no contract of its own; `EncodeChar` states each character's encoding and `Utf8OfAscii` the one-byte-per-character case |
| `BlurTransformation.Utf8OfAscii` | android/src/main/java/com/dylanvann/fastimage/FastImageBlurTransformation.java:22-23 | a general fact about the encoding: an ASCII string encodes to one byte per character, its code |
| `BlurTransformation.Unsigned` | android/src/main/java/com/dylanvann/fastimage/FastImageBlurTransformation.java:61 | the unsigned reading of an `int` is below 2^32 and reads back as the same `int` |
| `BlurTransformation.SplitBigEndian` | android/src/main/java/com/dylanvann/fastimage/FastImageBlurTransformation.java:61 | `putFloat` writes exactly four bytes; `CombineSplit` and `SplitCombine` state that they are the word, most significant byte first |
| `BlurTransformation.CombineBigEndian` | android/src/main/java/com/dylanvann/fastimage/FastImageBlurTransformation.java:61 | specification function of reading four big-endian bytes back as an `int`, with no contract of its own; it is the inverse `CombineSplit` and `SplitCombine` prove |
| `BlurTransformation.CombineSplit` | android/src/main/java/com/dylanvann/fastimage/FastImageBlurTransformation.java:61 | recombining the four big-endian bytes of a word gives the word back |
| `BlurTransformation.SplitCombine` | android/src/main/java/com/dylanvann/fastimage/FastImageBlurTransformation.java:61 | splitting the word read from four bytes gives the bytes back |
| `BlurTransformation.AppendWord` | android/src/main/java/com/dylanvann/fastimage/FastImageBlurTransformation.java:60-61 | feeding a prefix and a word adds exactly four bytes after the prefix, which read back as the word |
| `BlurTransformation.DiskCacheKey` | android/src/main/java/com/dylanvann/fastimage/FastImageBlurTransformation.java:59-62 | the key is `ID_BYTES` followed by exactly four bytes, which read back, big-endian, as the radius's bit pattern |
| `BlurTransformation.DiskCacheKeyInjective` | android/src/main/java/com/dylanvann/fastimage/FastImageBlurTransformation.java:59-62 | two keys are equal iff the radii's bit patterns are |
| `BlurTransformation.EqualImpliesSameKey` | android/src/main/java/com/dylanvann/fastimage/FastImageBlurTransformation.java:46-62 | equal transformations write the same key |
| `BlurTransformation.Clean` | android/src/main/java/com/dylanvann/fastimage/FastImageBlurTransformation.java:68-70 | cleans through the dispatcher |
| `BlurHelper.Transform` | android/src/main/java/com/dylanvann/fastimage/FastImageBlurHelper.java:16-39 | returns the options the gate specifies; it cleans the view (through the dispatcher) exactly when an image view is given and the flag is `true`, and touches no other view |
| `BlurHelper.Get` | android/src/main/java/com/dylanvann/fastimage/FastImageBlurHelper.java:23-28 | specification function of `Map.get`, null for a missing key, with no contract of its own; `NoViewNoChange` and `CleanIndependentOfRadius` state what the gate does with each value read |
| `BlurHelper.TargetView` | android/src/main/java/com/dylanvann/fastimage/FastImageBlurHelper.java:21-25 | specification function of the view the gate acts on (none for null options or a non-image view), with no contract of its own; `NoViewNoChange` states the no-view case and `Transform`'s frame is this view alone |
| `BlurHelper.CleanRequested` | android/src/main/java/com/dylanvann/fastimage/FastImageBlurHelper.java:28-32 | specification predicate of when the gate cleans, with no contract of its own; `Transform` states that the view is cleaned exactly then and `CleanIndependentOfRadius` that the radius plays no part |
| `BlurHelper.WithTransform` | android/src/main/java/com/dylanvann/fastimage/FastImageBlurHelper.java:35 | specification function of `options.transform(t)` as appending `t`, with no contract of its own; `PositiveRadiusAddsOneTransformation` states that exactly one transformation is added and the rest kept |
| `BlurHelper.TransformResult` | android/src/main/java/com/dylanvann/fastimage/FastImageBlurHelper.java:21-38 | the options `transform` returns keep every transformation already requested, in order, and gain at most one |
| `BlurHelper.GetImageView` | android/src/main/java/com/dylanvann/fastimage/FastImageBlurHelper.java:41-44 | specification function of `getImageView`, with no contract of its own; `OptionValuesRead` states that it is non-null iff the value is an image view |
| `BlurHelper.GetInt` | android/src/main/java/com/dylanvann/fastimage/FastImageBlurHelper.java:46-48 | specification function of `getInt`, with no contract of its own; `OptionValuesRead`, `FractionalRadiusTruncated` and `LongRadiusWraps` state how each kind of value is read |
| `BlurHelper.GetBoolean` | android/src/main/java/com/dylanvann/fastimage/FastImageBlurHelper.java:50-52 | specification function of `getBoolean`, with no contract of its own; `OptionValuesRead` states that it holds iff the value is `Boolean true` |
| `BlurHelper.NoViewNoChange` | android/src/main/java/com/dylanvann/fastimage/FastImageBlurHelper.java:21-25 | null options, or no image view under `view`: the options come back unchanged and nothing is cleaned |
| `BlurHelper.OptionValuesRead` | android/src/main/java/com/dylanvann/fastimage/FastImageBlurHelper.java:41-52 | a non-number reads as radius 0; an `Integer` reads as itself; only `Boolean true` cleans; only an image view is a view |
| `BlurHelper.FractionalRadiusTruncated` | android/src/main/java/com/dylanvann/fastimage/FastImageBlurHelper.java:46-48 | a float or double radius is truncated: it is positive iff the value is at least 1, and for a value in [0, 2^31 − 1) it is its integer part (larger values are capped at the largest `int`) |
| `BlurHelper.LongRadiusWraps` | android/src/main/java/com/dylanvann/fastimage/FastImageBlurHelper.java:47 | a `Long` radius keeps its low 32 bits: 2^32 reads as 0, 2^32 + 5 as 5 |
| `BlurHelper.CleanIndependentOfRadius` | android/src/main/java/com/dylanvann/fastimage/FastImageBlurHelper.java:28-32 | whether the view is cleaned does not depend on the radius option |
| `BlurHelper.NonPositiveRadiusKeepsOptions` | android/src/main/java/com/dylanvann/fastimage/FastImageBlurHelper.java:34-38 | a radius ≤ 0 leaves the options unchanged |
| `BlurHelper.PositiveRadiusAddsOneTransformation` | android/src/main/java/com/dylanvann/fastimage/FastImageBlurHelper.java:34-35 | a radius > 0 appends exactly one transformation, for that view and the application context, with radius `min(blurRadius, 200)` ≥ 1 |

## Left out

- Floating point: floats are reals.
  - IEEE 754 rounding of the scale, radius and stage arithmetic is not modelled.
  - NaN and the infinities are not represented; the division of a radius by zero stages is therefore not modelled, since no stage runs then.
  - `floatToIntBits` and `floatToRawIntBits` differ only on NaN, so one parameter, `floatBits`, stands for both.
- Library hashes: `String.hashCode` of the ID and the bit pattern of a float are parameters.
  - `BlurTransformation.HashCode`: the ID's hash value is not computed.
  - `MessageDigest` hashing is not modelled; only the bytes fed to the digest are.
  - The byte length of `ID_BYTES` (51) is not computed.
- Pixel work is not modelled: the contents of `createScaledBitmap`, `ScriptIntrinsicBlur` and the `RenderEffect` blur are uninterpreted terms.
- RenderScript failures are a parameter naming the call that throws.
  - A failing `src.copy` (which returns null) is covered as a failure of the input allocation.
  - An exception thrown by a `destroy` call is not modelled.
- `ScriptEngine.Blur`: only a failure inside the `try` block fails soft in the model. In the code, `src.getConfig()` and `src.copy(config, true)` run before the `try`. A throw there leaves `blur` and `apply` instead of returning the source. `copy` throws, for example, for a `HARDWARE` bitmap, a config the model's `Config` leaves out. An `Error`, which `catch (Exception e)` does not catch, also escapes. The model's `Copy` is total.
- `Platform.CreateScaledBitmap`: when the requested size equals the source's and the source is immutable, Android returns the source itself, with its own config and immutability; the model always makes a new mutable bitmap with a scaled picture term. This case arises in `apply` for a 540×540 source, whose scale factor is exactly 1.
- `ScriptEngine.Apply`: the two `createScaledBitmap` calls are outside any `try`. A platform failure there (out of memory, say) escapes `apply`. The model's `CreateScaledBitmap` is total on positive sides.
- Glide's own behaviour is not modelled:
  - `RequestOptions` is reduced to the sequence of transformations requested on it.
  - Glide's merging of transformations and its caching through `equals`, `hashCode` and the disk-cache key are not modelled.
  - `transform`'s `BitmapPool`, `outWidth` and `outHeight` arguments are unused by the code and are left out.
- `BlurTransformation.Transformation`: the Java constructor would accept a null view. The model takes the view non-null, since the only caller passes a checked image view.
- View layout:
  - The view's size is not tied to the bounds passed to the layout-change callback.
  - The platform's dispatch of a layout change to every registered listener is not modelled; one callback invocation is.
- Listener identity: every re-apply listener the engine registers is a distinct lambda object in Java, but the model treats them as one value. This only matters to removal, which the engine never performs.
- Threading: the model assumes every operation runs to completion before the next starts. Glide calls `transform` on its own decode threads, so from API level 31 on `apply` writes the view's tags, listeners and effect off the UI thread, while the layout callback and `clean` run on the UI thread. The model does not capture `apply` interleaving with the callback or with `clean`.
- `FastImageViewModuleImplementation.java` is not part of this model: Glide request building, promises and asynchronous cache queries.
