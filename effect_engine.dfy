/**
  The render-effect blur engine (Android 12, API level 31, and later). It does
  not touch the pixels: it stores the source bitmap and the radius on the view
  as tags, sets a blur render effect on the view and registers, once, a
  layout-change listener that re-applies the effect when the view's size
  changes.

  Every method is specified by a function on the view's observable state
  (`View.State()`); the properties of the engine are lemmas about those
  functions.
 */
module EffectEngine {
  import opened Platform

  const ReferenceSize: real := 540.0
  const MinInput: real := 0.1
  const MaxInput: real := 200.0

  // ---------------------------------------------------------------------
  // Arithmetic

  /**
    The scale of `apply`, computed through the source's per-axis factors. The
    source size cancels out: only the view's size matters.
   */
  function EffectScale(srcWidth: Dimension, srcHeight: Dimension, viewWidth: nat, viewHeight: nat): (scale: real)
    ensures scale == (viewWidth + viewHeight) as real / 2.0 / ReferenceSize
  {
    var scaleFactorX := srcWidth as real / ReferenceSize;
    var scaleFactorY := srcHeight as real / ReferenceSize;
    var scaleX := viewWidth as real * scaleFactorX / srcWidth as real;
    var scaleY := viewHeight as real * scaleFactorY / srcHeight as real;
    assert scaleX == viewWidth as real / ReferenceSize;
    assert scaleY == viewHeight as real / ReferenceSize;
    (scaleX + scaleY) / 2.0
  }

  /** The radius handed to the render effect: `radius * scale` clamped to [0.1, 200]. */
  function EffectRadius(radius: real, scale: real): (r: real)
    ensures MinInput <= r <= MaxInput
    ensures MinInput <= radius * scale <= MaxInput ==> r == radius * scale
    ensures radius * scale < MinInput ==> r == MinInput
    ensures radius * scale > MaxInput ==> r == MaxInput
  {
    Max(MinInput, Min(MaxInput, radius * scale))
  }

  /** Java `int` subtraction, which wraps around. */
  function Sub(a: Int32, b: Int32): Int32
  {
    LongToInt(a - b)
  }

  /** The edges a layout-change callback receives, for the new or the old layout. */
  datatype Bounds = Bounds(left: Int32, top: Int32, right: Int32, bottom: Int32)

  /**
    The callback's test: width or height differ between the two layouts. As
    the subtractions wrap, two widths (or heights) count as the same exactly
    when they agree modulo 2^32.
   */
  predicate Resized(bounds: Bounds, oldBounds: Bounds)
    ensures Resized(bounds, oldBounds) <==>
      || ((bounds.right - bounds.left) - (oldBounds.right - oldBounds.left)) % 0x1_0000_0000 != 0
      || ((bounds.bottom - bounds.top) - (oldBounds.bottom - oldBounds.top)) % 0x1_0000_0000 != 0
  {
    LongToIntCongruent(bounds.right - bounds.left, oldBounds.right - oldBounds.left);
    LongToIntCongruent(bounds.bottom - bounds.top, oldBounds.bottom - oldBounds.top);
    Sub(bounds.right, bounds.left) != Sub(oldBounds.right, oldBounds.left)
    || Sub(bounds.bottom, bounds.top) != Sub(oldBounds.bottom, oldBounds.top)
  }

  // ---------------------------------------------------------------------
  // The engine's effect on a view, as functions on its state

  /** The listener tag says a re-apply listener was registered. */
  predicate Registered(s: ViewState)
  {
    s.listenerTag == BooleanObject(true)
  }

  function AfterEnsureDynamicApply(s: ViewState): ViewState
  {
    if Registered(s) then s
    else s.(listeners := s.listeners + [ReapplyOnResize], listenerTag := BooleanObject(true))
  }

  function AfterBlur(s: ViewState, radius: real): ViewState
  {
    s.(effect := Some(BlurEffect(radius, radius)), invalidations := s.invalidations + 1)
  }

  function AfterApply(s: ViewState, src: Bitmap, radius: real): ViewState
  {
    var tagged := s.(sourceTag := BitmapObject(src), radiusTag := FloatObject(radius));
    var scale := EffectScale(src.width, src.height, s.width, s.height);
    AfterBlur(AfterEnsureDynamicApply(tagged), EffectRadius(radius, scale))
  }

  function AfterLayoutChange(s: ViewState, bounds: Bounds, oldBounds: Bounds): ViewState
  {
    if !Resized(bounds, oldBounds) then s
    else if !s.sourceTag.BitmapObject? then s
    else if !s.radiusTag.IsNumber() then s
    else AfterApply(s, s.sourceTag.bitmap, s.radiusTag.FloatValue())
  }

  function AfterClean(s: ViewState): ViewState
  {
    var listeners :=
      if s.listenerTag.ListenerObject? then RemoveFirst(s.listeners, s.listenerTag.listener)
      else s.listeners;
    s.(effect := None, invalidations := s.invalidations + 1, listeners := listeners,
       sourceTag := Null, radiusTag := Null, listenerTag := Null)
  }

  /** Where `x` is first registered in `xs`. */
  function FirstIndex(xs: seq<Listener>, x: Listener): (i: nat)
    requires x in xs
    ensures i < |xs| && xs[i] == x && x !in xs[..i]
  {
    if xs[0] == x then 0
    else
      var i := FirstIndex(xs[1..], x);
      assert xs[..i + 1] == [xs[0]] + xs[1..][..i];
      i + 1
  }

  /** `removeOnLayoutChangeListener`: drops the first registration of `x`, if any. */
  function RemoveFirst(xs: seq<Listener>, x: Listener): seq<Listener>
  {
    if x in xs then
      var i := FirstIndex(xs, x);
      xs[..i] + xs[i + 1..]
    else xs
  }

  lemma {:induction false} RemoveFirstDropsOne(xs: seq<Listener>, x: Listener)
    requires x in xs
    ensures |RemoveFirst(xs, x)| == |xs| - 1
    ensures multiset(RemoveFirst(xs, x)) + multiset{x} == multiset(xs)
  {
    var i := FirstIndex(xs, x);
    assert xs == xs[..i] + [x] + xs[i + 1..];
  }

  // ---------------------------------------------------------------------
  // The engine

  /** `apply`: tags the view, registers the listener once, then blurs. */
  method Apply(src: Bitmap, radius: real, view: View) returns (r: Bitmap)
    modifies view
    ensures r == src
    ensures view.State() == AfterApply(old(view.State()), src, radius)
  {
    view.sourceTag := BitmapObject(src);
    view.radiusTag := FloatObject(radius);
    EnsureDynamicApply(view);
    var scale := EffectScale(src.width, src.height, view.width, view.height);
    var radiusNormalized := EffectRadius(radius, scale);
    r := Blur(src, radiusNormalized, view);
  }

  /** `blur`: sets a blur render effect of that radius on the view and invalidates it. */
  method Blur(src: Bitmap, radius: real, view: View) returns (r: Bitmap)
    modifies view
    ensures r == src
    ensures view.State() == AfterBlur(old(view.State()), radius)
  {
    view.effect := Some(BlurEffect(radius, radius));
    view.invalidations := view.invalidations + 1;
    r := src;
  }

  /** `ensureDynamicApply`: registers the re-apply listener unless the tag says it is there. */
  method EnsureDynamicApply(view: View)
    modifies view
    ensures view.State() == AfterEnsureDynamicApply(old(view.State()))
  {
    var tag := view.listenerTag;
    if tag.BooleanObject? && tag.b {
      return;
    }
    view.listeners := view.listeners + [ReapplyOnResize];
    view.listenerTag := BooleanObject(true);
  }

  /** The body of the listener `ensureDynamicApply` registers. */
  method OnLayoutChange(view: View, bounds: Bounds, oldBounds: Bounds)
    modifies view
    ensures view.State() == AfterLayoutChange(old(view.State()), bounds, oldBounds)
  {
    if !Resized(bounds, oldBounds) {
      return;
    }
    var srcTag := view.sourceTag;
    if !srcTag.BitmapObject? {
      return;
    }
    var radiusTag := view.radiusTag;
    if !radiusTag.IsNumber() {
      return;
    }
    var radius := radiusTag.FloatValue();
    var _ := Apply(srcTag.bitmap, radius, view);
  }

  /** `clean`: removes the effect and clears the three tags. */
  method Clean(view: View?)
    modifies view
    ensures view != null ==> view.State() == AfterClean(old(view.State()))
  {
    if view == null {
      return;
    }
    view.effect := None;
    view.invalidations := view.invalidations + 1;
    var tag := view.listenerTag;
    if tag.ListenerObject? {
      view.listeners := RemoveFirst(view.listeners, tag.listener);
    }
    view.sourceTag := Null;
    view.radiusTag := Null;
    view.listenerTag := Null;
  }

  // ---------------------------------------------------------------------
  // Properties

  /**
    What `apply` leaves on a view: the tags hold its arguments, the guard is
    set, the effect's radius is `radius * (w + h) / 2 / 540` for the view's
    size `w` x `h`, clamped to [0.1, 200], and the view was invalidated once;
    its size is untouched.
   */
  lemma ApplyStoresArguments(s: ViewState, src: Bitmap, radius: real)
    ensures var t := AfterApply(s, src, radius);
      var er := EffectRadius(radius, (s.width + s.height) as real / 2.0 / ReferenceSize);
      && t.sourceTag == BitmapObject(src) && t.radiusTag == FloatObject(radius)
      && Registered(t)
      && t.effect == Some(BlurEffect(er, er))
      && MinInput <= er <= MaxInput
      && t.invalidations == s.invalidations + 1
      && t.width == s.width && t.height == s.height
  {
  }

  /**
    The register-once guard: `apply` adds the re-apply listener exactly when
    the tag did not already say it was registered.
   */
  lemma ApplyRegistersOnce(s: ViewState, src: Bitmap, radius: real)
    ensures AfterApply(s, src, radius).listeners
      == s.listeners + (if Registered(s) then [] else [ReapplyOnResize])
  {
  }

  /** A second `apply`, with any arguments, registers nothing more. */
  lemma RepeatedApplyAddsNoListener(s: ViewState, src: Bitmap, radius: real, src': Bitmap, radius': real)
    ensures var t := AfterApply(s, src, radius);
      AfterApply(t, src', radius').listeners == t.listeners
  {
    var t := AfterApply(s, src, radius);
    ApplyStoresArguments(s, src, radius);
    ApplyRegistersOnce(t, src', radius');
  }

  /**
    The layout callback changes the view only when its width or height
    changed and the view holds a bitmap and a number in its tags; it then
    re-applies with the stored values.
   */
  lemma LayoutChangeReappliesOnlyOnResize(s: ViewState, bounds: Bounds, oldBounds: Bounds)
    ensures !Resized(bounds, oldBounds) ==> AfterLayoutChange(s, bounds, oldBounds) == s
    ensures !s.sourceTag.BitmapObject? || !s.radiusTag.IsNumber() ==> AfterLayoutChange(s, bounds, oldBounds) == s
    ensures Resized(bounds, oldBounds) && s.sourceTag.BitmapObject? && s.radiusTag.IsNumber() ==>
      AfterLayoutChange(s, bounds, oldBounds) == AfterApply(s, s.sourceTag.bitmap, s.radiusTag.FloatValue())
  {
  }

  /**
    The states the engine can leave a view in: a stored source implies the
    guard is set, a set guard implies the listener is registered, and the
    listener tag never holds a listener object.
   */
  predicate Coherent(s: ViewState)
  {
    && (s.sourceTag.BitmapObject? ==> Registered(s))
    && (Registered(s) ==> ReapplyOnResize in s.listeners)
    && !s.listenerTag.ListenerObject?
  }

  lemma {:induction false} CoherentInitially(width: nat, height: nat)
    ensures Coherent(ViewState(width, height, Null, Null, Null, [], None, 0))
  {
  }

  /** Every operation of the engine keeps a view coherent. */
  lemma CoherentPreserved(s: ViewState, src: Bitmap, radius: real, bounds: Bounds, oldBounds: Bounds)
    requires Coherent(s)
    ensures Coherent(AfterApply(s, src, radius))
    ensures Coherent(AfterLayoutChange(s, bounds, oldBounds))
    ensures Coherent(AfterClean(s))
  {
  }

  /** In a coherent view the re-apply from the callback adds no listener. */
  lemma {:induction false} CallbackAddsNoListener(s: ViewState, bounds: Bounds, oldBounds: Bounds)
    requires Coherent(s)
    ensures AfterLayoutChange(s, bounds, oldBounds).listeners == s.listeners
  {
    if Resized(bounds, oldBounds) && s.sourceTag.BitmapObject? && s.radiusTag.IsNumber() {
      ApplyRegistersOnce(s, s.sourceTag.bitmap, s.radiusTag.FloatValue());
    }
  }

  /**
    `clean` drops the effect, clears the tags and invalidates the view, but
    in a coherent view it leaves every registered listener in place: the
    listener tag only ever holds `true`, never the listener itself.
   */
  lemma CleanKeepsListeners(s: ViewState)
    requires Coherent(s)
    ensures var t := AfterClean(s);
      && t.effect == None && t.invalidations == s.invalidations + 1
      && t.sourceTag == Null && t.radiusTag == Null && t.listenerTag == Null
      && t.width == s.width && t.height == s.height
      && t.listeners == s.listeners
  {
  }

  /** A second `clean` changes nothing but the invalidation count. */
  lemma CleanTwice(s: ViewState)
    ensures AfterClean(AfterClean(s)) == AfterClean(s).(invalidations := s.invalidations + 2)
  {
  }

  /** `n` rounds of `apply` followed by `clean`. */
  function Cycles(s: ViewState, src: Bitmap, radius: real, n: nat): ViewState
    decreases n
  {
    if n == 0 then s else Cycles(AfterClean(AfterApply(s, src, radius)), src, radius, n - 1)
  }

  /**
    Because `clean` never unregisters the listener, every apply-then-clean
    round on an unregistered view leaves one more re-apply listener behind.
   */
  lemma {:induction false} CyclesLeakListeners(s: ViewState, src: Bitmap, radius: real, n: nat)
    requires !Registered(s) && !s.listenerTag.ListenerObject?
    decreases n
    ensures Cycles(s, src, radius, n).listeners == s.listeners + seq(n, _ => ReapplyOnResize)
  {
    if n > 0 {
      var next := AfterClean(AfterApply(s, src, radius));
      ApplyRegistersOnce(s, src, radius);
      assert next.listeners == s.listeners + [ReapplyOnResize];
      CyclesLeakListeners(next, src, radius, n - 1);
      assert [ReapplyOnResize] + seq(n - 1, _ => ReapplyOnResize) == seq(n, _ => ReapplyOnResize);
    }
  }

  /**
    The same leak on a real view object: apply, clean, apply leaves two
    re-apply listeners on a fresh view.
   */
  method ApplyCleanApply(src: Bitmap, radius: real) returns (view: View)
    ensures view.listeners == [ReapplyOnResize, ReapplyOnResize]
    ensures view.listenerTag == BooleanObject(true)
  {
    view := new View(100, 100);
    var _ := Apply(src, radius, view);
    Clean(view);
    var _ := Apply(src, radius, view);
  }
}
