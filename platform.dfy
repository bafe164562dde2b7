/**
  The slice of the Android and Java platform that the blur code talks to:
  bitmaps (with their pixel content as an uninterpreted term), loosely typed
  Java objects as they appear in option maps and view tags, the image view
  with the per-view state the render-effect engine keeps on it, and the Java
  numeric conversions the code relies on.
 */
module Platform {

  datatype Option<+T> = None | Some(value: T)

  // ---------------------------------------------------------------------
  // Java numbers

  const MinInt: int := -0x8000_0000
  const MaxInt: int := 0x7FFF_FFFF

  /** A Java `int`. */
  type Int32 = x: int | MinInt <= x <= MaxInt

  function Min(a: real, b: real): real { if a <= b then a else b }
  function Max(a: real, b: real): real { if a >= b then a else b }

  /** `Math.ceil` on a finite value (IEEE rounding is abstracted away). */
  function Ceil(x: real): (r: int)
    ensures x <= r as real < x + 1.0
  {
    -((-x).Floor)
  }

  /**
    The Java narrowing conversion `(int) x` from a float or double, which is
    also `Number.intValue()` for Float and Double: truncation toward zero,
    saturating at the ends of the `int` range.
   */
  function FloatToInt(x: real): (r: Int32)
    ensures 0.0 <= x ==> 0 <= r && r as real <= x
    ensures 0.0 <= x < MaxInt as real ==> x < r as real + 1.0
    ensures x <= 0.0 ==> r <= 0 && x <= r as real
    ensures MinInt as real < x <= 0.0 ==> r as real - 1.0 < x
    ensures x >= MaxInt as real ==> r == MaxInt
    ensures x <= MinInt as real ==> r == MinInt
  {
    if x >= MaxInt as real then MaxInt
    else if x <= MinInt as real then MinInt
    else if x >= 0.0 then x.Floor
    else -((-x).Floor)
  }

  /** `Long.intValue()`: keeps the low 32 bits, read as a signed `int`. */
  function LongToInt(x: int): (r: Int32)
    ensures (r - x) % 0x1_0000_0000 == 0
    ensures MinInt <= x <= MaxInt ==> r == x
  {
    var low := x % 0x1_0000_0000;
    if low <= MaxInt then low else low - 0x1_0000_0000
  }

  /** Two values read as the same `int` exactly when they agree modulo 2^32. */
  lemma {:induction false} LongToIntCongruent(x: int, y: int)
    ensures LongToInt(x) == LongToInt(y) <==> (x - y) % 0x1_0000_0000 == 0
  {
    var m := 0x1_0000_0000;
    var rx, ry := LongToInt(x), LongToInt(y);
    var a, b := (rx - x) / m, (ry - y) / m;
    assert rx - x == m * a;
    assert ry - y == m * b;
    if rx == ry {
      assert x - y == m * (b - a);
    }
    if (x - y) % m == 0 {
      var c := (x - y) / m;
      assert x - y == m * c;
      var k := c + a - b;
      assert rx - ry == m * k;
    }
  }

  // ---------------------------------------------------------------------
  // Bitmaps

  /** A bitmap side: Android bitmaps are at least one pixel wide and high. */
  type Dimension = n: int | 0 < n <= MaxInt witness 1

  datatype Config = Alpha8 | Rgb565 | Argb4444 | Argb8888 | RgbaF16

  /**
    What a bitmap shows, as the term of the operations that produced it. The
    platform's pixel operations are left uninterpreted: the same operations
    give the same picture. The converse is not claimed of the platform:
    scaling a bitmap to its own size shows the same picture, yet its term
    differs from its input's.
   */
  datatype Pixels =
    | Decoded(id: nat)
    | Scaled(of: Pixels, width: int, height: int)
    | Blurred(of: Pixels, radius: real)

  datatype Bitmap = Bitmap(
    pixels: Pixels,
    width: Dimension,
    height: Dimension,
    config: Option<Config>,  // `getConfig()` may return null
    mutable: bool)

  /**
    The config a scaled bitmap gets: RGB_565, ALPHA_8 and RGBA_F16 are kept;
    ARGB_4444, ARGB_8888 and a missing config all become ARGB_8888.
   */
  function ScaledConfig(config: Option<Config>): (r: Config)
    ensures r != Argb4444
    ensures config.Some? && config.value in {Rgb565, Alpha8, RgbaF16} ==> r == config.value
    ensures config.None? || config.value in {Argb4444, Argb8888} ==> r == Argb8888
  {
    match config
    case Some(Rgb565) => Rgb565
    case Some(Alpha8) => Alpha8
    case Some(RgbaF16) => RgbaF16
    case _ => Argb8888
  }

  /**
    `Bitmap.createScaledBitmap(src, w, h, true)`. The platform throws for a
    side that is not positive, hence the precondition. The result is a new
    mutable bitmap in the config `ScaledConfig` chooses, showing the
    uninterpreted scaling of the source's picture.
   */
  function CreateScaledBitmap(src: Bitmap, w: int, h: int): (r: Bitmap)
    requires 0 < w <= MaxInt && 0 < h <= MaxInt
    ensures r.width == w && r.height == h
    ensures r.pixels == Scaled(src.pixels, w, h)
    ensures r.config == Some(ScaledConfig(src.config)) && r.mutable
  {
    Bitmap(Scaled(src.pixels, w, h), w, h, Some(ScaledConfig(src.config)), true)
  }

  /** `src.copy(config, true)`: same picture and size, given config, mutable. */
  function Copy(src: Bitmap, config: Config): (r: Bitmap)
    ensures r.pixels == src.pixels && r.width == src.width && r.height == src.height
    ensures r.config == Some(config) && r.mutable
  {
    Bitmap(src.pixels, src.width, src.height, Some(config), true)
  }

  /** The application context a component holds on to. */
  datatype Context = Context(id: nat, application: nat)

  function ApplicationContext(c: Context): Context
  {
    Context(c.application, c.application)
  }

  // ---------------------------------------------------------------------
  // Views

  /**
    A layout-change listener registered on a view: the blur engine's own
    re-apply callback, or one that other code registered.
   */
  datatype Listener = ReapplyOnResize | OtherListener(id: nat)

  /** `RenderEffect.createBlurEffect(radiusX, radiusY, Shader.TileMode.CLAMP)`. */
  datatype RenderEffect = BlurEffect(radiusX: real, radiusY: real)

  /** A Java object as the code sees it through `instanceof` tests. */
  datatype JObject =
    | Null
    | ImageViewObject(view: View)
    | BitmapObject(bitmap: Bitmap)
    | BooleanObject(b: bool)
    | IntegerObject(i: Int32)
    | LongObject(l: int)
    | FloatObject(f: real)
    | DoubleObject(d: real)
    | ListenerObject(listener: Listener)
    | OtherObject(id: nat)
  {
    /** `instanceof Number` */
    predicate IsNumber() {
      IntegerObject? || LongObject? || FloatObject? || DoubleObject?
    }

    /** `Number.floatValue()` (float rounding abstracted away) */
    function FloatValue(): real
      requires IsNumber()
    {
      match this
      case IntegerObject(i) => i as real
      case LongObject(l) => l as real
      case FloatObject(f) => f
      case DoubleObject(d) => d
    }

    /** `Number.intValue()` */
    function IntValue(): Int32
      requires IsNumber()
    {
      match this
      case IntegerObject(i) => i
      case LongObject(l) => LongToInt(l)
      case FloatObject(f) => FloatToInt(f)
      case DoubleObject(d) => FloatToInt(d)
    }
  }

  /** A snapshot of everything the blur code can observe on a view. */
  datatype ViewState = ViewState(
    width: nat,
    height: nat,
    sourceTag: JObject,
    radiusTag: JObject,
    listenerTag: JObject,
    listeners: seq<Listener>,
    effect: Option<RenderEffect>,
    invalidations: nat)

  /**
    An image view, reduced to what the blur code reads and writes: its laid-out
    size, the three tags the render-effect engine stores under its private tag
    ids, its layout-change listeners (in registration order), its render effect
    (`null` is None) and how many times it has been invalidated.
   */
  class View {
    var width: nat
    var height: nat
    var sourceTag: JObject    // tag 0xcafebabe
    var radiusTag: JObject    // tag 0xbabecafe
    var listenerTag: JObject  // tag 0xdeadbeef
    var listeners: seq<Listener>
    var effect: Option<RenderEffect>
    var invalidations: nat

    constructor (width: nat, height: nat)
      ensures this.width == width && this.height == height
      ensures sourceTag == Null && radiusTag == Null && listenerTag == Null
      ensures listeners == [] && effect == None && invalidations == 0
    {
      this.width, this.height := width, height;
      sourceTag, radiusTag, listenerTag := Null, Null, Null;
      listeners, effect, invalidations := [], None, 0;
    }

    function State(): ViewState
      reads this
    {
      ViewState(width, height, sourceTag, radiusTag, listenerTag, listeners, effect, invalidations)
    }
  }
}
