/**
  The blur transformation Glide runs on a decoded bitmap: an immutable value
  holding the application context, the normalized radius and the target view.
  Its identity for Glide's caches is given by `equals`, `hashCode` and the
  bytes it contributes to the disk-cache key.
 */
module BlurTransformation {
  import opened Platform
  import ScriptEngine
  import BlurCompat

  const MinInput: real := 0.1
  const MaxInput: real := 200.0

  /**
    The transformation's identifier, also the prefix of its cache key. It is
    written as two literals joined so that the verifier does not unfold `Utf8`
    over the whole literal wherever `IdBytes` is used.
   */
  const ID: string := "com.dylanvann.fastimage." + "FastImageBlurTransformation"

  /** A radius `normalizeBlurRadius` can return. */
  type NormalizedRadius = r: real | MinInput <= r <= MaxInput witness MinInput

  datatype Transformation = Transformation(context: Context, radius: NormalizedRadius, view: View)

  /** `normalizeBlurRadius`: clamps to [0.1, 200]. */
  function NormalizeBlurRadius(radius: real): (r: NormalizedRadius)
    ensures MinInput <= radius <= MaxInput ==> r == radius
    ensures radius < MinInput ==> r == MinInput
    ensures radius > MaxInput ==> r == MaxInput
  {
    Min(MaxInput, Max(MinInput, radius))
  }

  lemma NormalizeIsIdempotent(radius: real)
    ensures NormalizeBlurRadius(NormalizeBlurRadius(radius)) == NormalizeBlurRadius(radius)
  {
  }

  lemma NormalizeIsMonotone(a: real, b: real)
    requires a <= b
    ensures NormalizeBlurRadius(a) <= NormalizeBlurRadius(b)
  {
  }

  /** The constructor: keeps the application context and the normalized radius. */
  function Create(context: Context, radius: real, view: View): Transformation
  {
    Transformation(ApplicationContext(context), NormalizeBlurRadius(radius), view)
  }

  /**
    `transform(pool, toTransform, outWidth, outHeight)`: hands the bitmap, the
    stored radius, context and view to the engine dispatch.
   */
  method Transform(t: Transformation, sdk: int, toTransform: Bitmap,
                   faults: nat -> Option<ScriptEngine.Step>)
    returns (r: Bitmap)
    modifies t.view
    ensures r == BlurCompat.BlurResult(sdk, toTransform, t.radius, faults)
    ensures t.view.State() == BlurCompat.BlurredView(sdk, old(t.view.State()), toTransform, t.radius)
  {
    r := BlurCompat.Blur(sdk, t.context, toTransform, t.radius, t.view, faults);
  }

  /**
    Below API level 31 a transformation's radius always splits into between one
    and eight RenderScript stages, each within the platform's limit of 25.
   */
  lemma {:induction false} StagesWithinLimit(t: Transformation)
    ensures 1 <= ScriptEngine.Stages(t.radius) <= 8
    ensures ScriptEngine.RadiusAccepted(ScriptEngine.StageRadius(t.radius))
  {
    ScriptEngine.StagesSplitRadius(t.radius);
    var c := Ceil(t.radius / 25.0);
    assert c < 9 by {
      assert t.radius / 25.0 <= 8.0;
    }
    assert ScriptEngine.Stages(t.radius) == c;
  }

  /**
    Below API level 31 and with no RenderScript failure, transforming scales
    the bitmap down, blurs it in `ceil(radius / 25)` equal passes and scales it
    back to its own size.
   */
  lemma {:induction false} TransformOnOldPlatforms(t: Transformation, sdk: int, bitmap: Bitmap,
                                                   faults: nat -> Option<ScriptEngine.Step>)
    requires sdk < BlurCompat.VersionS
    requires forall i :: 0 <= i < ScriptEngine.Stages(t.radius) ==> faults(i).None?
    ensures var r := BlurCompat.BlurResult(sdk, bitmap, t.radius, faults);
      && r.width == bitmap.width && r.height == bitmap.height
      && r.pixels == Scaled(ScriptEngine.RepeatBlur(
                              Scaled(bitmap.pixels, ScriptEngine.DownscaledWidth(bitmap), ScriptEngine.DownscaledHeight(bitmap)),
                              ScriptEngine.StageRadius(t.radius), ScriptEngine.Stages(t.radius)),
                            bitmap.width, bitmap.height)
  {
    ScriptEngine.ApplyWithoutFaults(bitmap, t.radius, faults);
  }

  // ---------------------------------------------------------------------
  // Identity

  /** The argument of `equals`: another transformation, or any other object. */
  datatype Candidate = TransformationObject(other: Transformation) | OtherCandidate(object: JObject)

  /** `equals(o)`, for the platform's API level `sdk`. */
  predicate Equals(sdk: int, t: Transformation, o: Candidate)
  {
    if sdk >= BlurCompat.VersionS then false
    else match o
      case TransformationObject(other) => t.radius == other.radius
      case OtherCandidate(_) => false
  }

  /**
    From API level 31 on no transformation equals anything, itself included,
    so Glide never reuses a cached result for it.
   */
  lemma NeverEqualOnNewPlatforms(sdk: int, t: Transformation, o: Candidate)
    requires sdk >= BlurCompat.VersionS
    ensures !Equals(sdk, t, o)
    ensures !Equals(sdk, t, TransformationObject(t))
  {
  }

  /**
    Below API level 31 two transformations are equal exactly when their radii
    are; context and view do not matter.
   */
  lemma EqualsComparesRadius(sdk: int, t: Transformation, o: Candidate, context: Context, view: View)
    requires sdk < BlurCompat.VersionS
    ensures Equals(sdk, t, o) <==> o.TransformationObject? && o.other.radius == t.radius
    ensures Equals(sdk, t, TransformationObject(Transformation(context, t.radius, view)))
  {
  }

  /** Below API level 31 `equals` is an equivalence on transformations. */
  lemma EqualsIsEquivalence(sdk: int, a: Transformation, b: Transformation, c: Transformation)
    requires sdk < BlurCompat.VersionS
    ensures Equals(sdk, a, TransformationObject(a))
    ensures Equals(sdk, a, TransformationObject(b)) ==> Equals(sdk, b, TransformationObject(a))
    ensures Equals(sdk, a, TransformationObject(b)) && Equals(sdk, b, TransformationObject(c))
      ==> Equals(sdk, a, TransformationObject(c))
  {
  }

  /**
    `hashCode()`: `String.hashCode` of the ID plus `Float.hashCode(radius)`,
    in Java `int` arithmetic, which wraps around. Both library hashes are
    parameters: `stringHash`, and `floatBits`, the radius's 32-bit pattern read
    as an `int`, which is what `Float.hashCode` returns for a number.
   */
  function HashCode(t: Transformation, stringHash: string -> Int32, floatBits: real -> Int32): Int32
  {
    LongToInt(stringHash(ID) + floatBits(t.radius))
  }

  /**
    The hash code depends on the radius alone, and separates radii whose bit
    patterns differ.
   */
  lemma HashCodeFollowsRadiusBits(a: Transformation, b: Transformation,
                                  stringHash: string -> Int32, floatBits: real -> Int32)
    ensures HashCode(a, stringHash, floatBits) == HashCode(b, stringHash, floatBits)
      <==> floatBits(a.radius) == floatBits(b.radius)
  {
  }

  /** Transformations that are equal below API level 31 have the same hash code. */
  lemma EqualImpliesSameHash(sdk: int, a: Transformation, b: Transformation,
                             stringHash: string -> Int32, floatBits: real -> Int32)
    requires Equals(sdk, a, TransformationObject(b))
    ensures HashCode(a, stringHash, floatBits) == HashCode(b, stringHash, floatBits)
  {
  }

  // ---------------------------------------------------------------------
  // Disk-cache key

  /** An octet of the digest's input. */
  type Byte = b: int | 0 <= b < 0x100

  /** The UTF-8 encoding of one character. */
  function EncodeChar(c: char): (bytes: seq<Byte>)
    ensures 1 <= |bytes| <= 4
    ensures |bytes| == 1 <==> c as int < 0x80
    ensures c as int < 0x80 ==> bytes[0] == c as int
  {
    var n := c as int;
    if n < 0x80 then [n]
    else if n < 0x800 then [0xC0 + n / 0x40, 0x80 + n % 0x40]
    else if n < 0x1_0000 then [0xE0 + n / 0x1000, 0x80 + n / 0x40 % 0x40, 0x80 + n % 0x40]
    else [0xF0 + n / 0x4_0000, 0x80 + n / 0x1000 % 0x40, 0x80 + n / 0x40 % 0x40, 0x80 + n % 0x40]
  }

  /** `String.getBytes` with the UTF-8 charset. */
  function Utf8(s: string): seq<Byte>
  {
    if s == [] then [] else EncodeChar(s[0]) + Utf8(s[1..])
  }

  /**
    A general fact about the encoding: an ASCII string (the kind `ID` is)
    encodes to one byte per character, its code.
   */
  lemma {:induction false} Utf8OfAscii(s: string)
    requires forall i :: 0 <= i < |s| ==> s[i] as int < 0x80
    ensures |Utf8(s)| == |s|
    ensures forall i :: 0 <= i < |s| ==> Utf8(s)[i] == s[i] as int
  {
    if s != [] {
      Utf8OfAscii(s[1..]);
    }
  }

  /** `ID_BYTES` */
  const IdBytes: seq<Byte> := Utf8(ID)

  /** The 32-bit pattern of an `int`, as an unsigned number. */
  function Unsigned(w: Int32): (u: nat)
    ensures u < 0x1_0000_0000
    ensures LongToInt(u) == w
  {
    if w < 0 then w + 0x1_0000_0000 else w
  }

  /** `ByteBuffer.putInt` / `putFloat`: the word's four bytes, most significant first. */
  function SplitBigEndian(w: Int32): (bytes: seq<Byte>)
    ensures |bytes| == 4
  {
    var u := Unsigned(w);
    var q1 := u / 0x100;
    var q2 := q1 / 0x100;
    var q3 := q2 / 0x100;
    [q3 % 0x100, q2 % 0x100, q1 % 0x100, u % 0x100]
  }

  /** `ByteBuffer.getInt`: reads four bytes, most significant first, back into a word. */
  function CombineBigEndian(bytes: seq<Byte>): Int32
    requires |bytes| == 4
  {
    LongToInt(((bytes[0] as int * 0x100 + bytes[1]) * 0x100 + bytes[2]) * 0x100 + bytes[3])
  }

  lemma {:induction false} CombineSplit(w: Int32)
    ensures CombineBigEndian(SplitBigEndian(w)) == w
  {
    var u := Unsigned(w);
    var q1 := u / 0x100;
    var q2 := q1 / 0x100;
    var q3 := q2 / 0x100;
    assert u == q1 * 0x100 + u % 0x100;
    assert q1 == q2 * 0x100 + q1 % 0x100;
    assert q2 == q3 * 0x100 + q2 % 0x100;
    assert q3 % 0x100 == q3;
  }

  lemma {:induction false} SplitCombine(bytes: seq<Byte>)
    requires |bytes| == 4
    ensures SplitBigEndian(CombineBigEndian(bytes)) == bytes
  {
    var q2 := bytes[0] as int * 0x100 + bytes[1];
    var q1 := q2 * 0x100 + bytes[2];
    var u := q1 * 0x100 + bytes[3];
    assert Unsigned(LongToInt(u)) == u;
    assert u / 0x100 == q1 && u % 0x100 == bytes[3];
    assert q1 / 0x100 == q2 && q1 % 0x100 == bytes[2];
    assert q2 / 0x100 == bytes[0] && q2 % 0x100 == bytes[1];
  }

  /** Feeds `prefix` and then the four bytes of `putInt(w)` to a digest. */
  function AppendWord(prefix: seq<Byte>, w: Int32): (out: seq<Byte>)
    ensures |out| == |prefix| + 4
    ensures out[..|prefix|] == prefix
    ensures CombineBigEndian(out[|prefix|..]) == w
  {
    var word := SplitBigEndian(w);
    CombineSplit(w);
    assert (prefix + word)[|prefix|..] == word;
    prefix + word
  }

  /**
    `updateDiskCacheKey`: the bytes it feeds the digest, the ID's bytes and
    then the radius's 32-bit pattern in big-endian order.
   */
  function DiskCacheKey(t: Transformation, floatBits: real -> Int32): (key: seq<Byte>)
    ensures |key| == |IdBytes| + 4
    ensures key[..|IdBytes|] == IdBytes
    ensures CombineBigEndian(key[|IdBytes|..]) == floatBits(t.radius)
  {
    AppendWord(IdBytes, floatBits(t.radius))
  }

  /** Two transformations write the same key exactly when their radii have the same bits. */
  lemma {:induction false} DiskCacheKeyInjective(a: Transformation, b: Transformation, floatBits: real -> Int32)
    ensures DiskCacheKey(a, floatBits) == DiskCacheKey(b, floatBits) <==> floatBits(a.radius) == floatBits(b.radius)
  {
    var ka, kb := DiskCacheKey(a, floatBits), DiskCacheKey(b, floatBits);
    if ka == kb {
      assert ka[|IdBytes|..] == kb[|IdBytes|..];
    }
  }

  /** Equal transformations write the same key. */
  lemma EqualImpliesSameKey(sdk: int, a: Transformation, b: Transformation, floatBits: real -> Int32)
    requires Equals(sdk, a, TransformationObject(b))
    ensures DiskCacheKey(a, floatBits) == DiskCacheKey(b, floatBits)
  {
  }

  /** `clean(view)`: the engine dispatch's `clean`. */
  method Clean(sdk: int, view: View?)
    modifies view
    ensures view != null ==> view.State() == BlurCompat.CleanedView(sdk, old(view.State()))
  {
    BlurCompat.Clean(sdk, view);
  }
}
