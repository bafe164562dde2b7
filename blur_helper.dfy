/**
  The gate between the loosely typed image options coming from JavaScript and
  Glide's request: it reads `view`, `blurRadius` and `blurRadiusShouldClean`,
  cleans the view when asked to and adds one blur transformation when the
  radius is positive.
 */
module BlurHelper {
  import opened Platform
  import BlurCompat
  import BlurTransformation

  /**
    Glide's request options, reduced to the transformations requested on them,
    in the order `transform` was called.
   */
  datatype RequestOptions = RequestOptions(transformations: seq<BlurTransformation.Transformation>)

  /** `options.transform(t)` */
  function WithTransform(options: RequestOptions, t: BlurTransformation.Transformation): RequestOptions
  {
    options.(transformations := options.transformations + [t])
  }

  /** `Map.get`: null for a missing key. */
  function Get(m: map<string, JObject>, key: string): JObject
  {
    if key in m then m[key] else Null
  }

  /** `getImageView`: the value when it is an image view, null otherwise. */
  function GetImageView(value: JObject): View?
  {
    if value.ImageViewObject? then value.view else null
  }

  /** `getInt`: a number's `intValue()`, 0 for anything else. */
  function GetInt(value: JObject): Int32
  {
    if value.IsNumber() then value.IntValue() else 0
  }

  /** `getBoolean`: true only for a Boolean holding true. */
  predicate GetBoolean(value: JObject)
  {
    value.BooleanObject? && value.b
  }

  /** The view the options name, or null when there are no options or no image view. */
  function TargetView(imageOptions: Option<map<string, JObject>>): View?
  {
    if imageOptions.None? then null else GetImageView(Get(imageOptions.value, "view"))
  }

  /** Whether `transform` cleans the view. */
  predicate CleanRequested(imageOptions: Option<map<string, JObject>>)
  {
    TargetView(imageOptions) != null && GetBoolean(Get(imageOptions.value, "blurRadiusShouldClean"))
  }

  /** The options `transform` returns. */
  function TransformResult(context: Context, options: RequestOptions,
                           imageOptions: Option<map<string, JObject>>): (r: RequestOptions)
    ensures options.transformations <= r.transformations
    ensures |r.transformations| <= |options.transformations| + 1
  {
    var view := TargetView(imageOptions);
    if view == null then options
    else
      var blurRadius := GetInt(Get(imageOptions.value, "blurRadius"));
      if blurRadius > 0 then WithTransform(options, BlurTransformation.Create(context, blurRadius as real, view))
      else options
  }

  /** `transform(context, options, imageOptions)` on a platform of API level `sdk`. */
  method Transform(sdk: int, context: Context, options: RequestOptions,
                   imageOptions: Option<map<string, JObject>>)
    returns (r: RequestOptions)
    modifies TargetView(imageOptions)
    ensures r == TransformResult(context, options, imageOptions)
    ensures var view := TargetView(imageOptions);
      view != null ==>
        view.State() == if CleanRequested(imageOptions) then BlurCompat.CleanedView(sdk, old(view.State()))
                        else old(view.State())
  {
    if imageOptions.None? {
      return options;
    }
    var m := imageOptions.value;
    var view := GetImageView(Get(m, "view"));
    if view == null {
      return options;
    }
    var blurRadius := GetInt(Get(m, "blurRadius"));
    var shouldClean := GetBoolean(Get(m, "blurRadiusShouldClean"));
    if shouldClean {
      BlurTransformation.Clean(sdk, view);
    }
    if blurRadius > 0 {
      return WithTransform(options, BlurTransformation.Create(context, blurRadius as real, view));
    }
    return options;
  }

  // ---------------------------------------------------------------------
  // Properties

  /** Without image options, or without an image view in them, nothing happens. */
  lemma NoViewNoChange(context: Context, options: RequestOptions, imageOptions: Option<map<string, JObject>>)
    requires imageOptions.None? || !Get(imageOptions.value, "view").ImageViewObject?
    ensures TargetView(imageOptions) == null
    ensures TransformResult(context, options, imageOptions) == options
    ensures !CleanRequested(imageOptions)
  {
  }

  /** How option values are read: only numbers give a radius, only `true` cleans. */
  lemma OptionValuesRead(value: JObject, i: Int32)
    ensures !value.IsNumber() ==> GetInt(value) == 0
    ensures GetInt(IntegerObject(i)) == i
    ensures GetBoolean(value) <==> value == BooleanObject(true)
    ensures (GetImageView(value) != null) <==> value.ImageViewObject?
  {
  }

  /**
    A fractional radius is truncated: a float or double `d` gives a positive
    radius exactly when `d >= 1`, and then its integer part (capped at the
    largest `int`).
   */
  lemma FractionalRadiusTruncated(d: real)
    ensures GetInt(DoubleObject(d)) > 0 <==> d >= 1.0
    ensures GetInt(FloatObject(d)) == GetInt(DoubleObject(d))
    ensures 0.0 <= d < MaxInt as real ==> GetInt(DoubleObject(d)) == d.Floor
  {
  }

  /** A long is read through its low 32 bits: 2^32 reads as 0 and so blurs nothing. */
  lemma LongRadiusWraps()
    ensures GetInt(LongObject(0x1_0000_0000)) == 0
    ensures GetInt(LongObject(0x1_0000_0005)) == 5
  {
  }

  /** The clean flag is honoured whatever the radius is. */
  lemma CleanIndependentOfRadius(imageOptions: Option<map<string, JObject>>, radius: JObject)
    requires imageOptions.Some?
    ensures CleanRequested(imageOptions) == CleanRequested(Some(imageOptions.value["blurRadius" := radius]))
  {
    var m := imageOptions.value;
    var m' := m["blurRadius" := radius];
    assert Get(m', "view") == Get(m, "view");
    assert Get(m', "blurRadiusShouldClean") == Get(m, "blurRadiusShouldClean");
  }

  /** A radius that is not positive leaves the options as they were. */
  lemma NonPositiveRadiusKeepsOptions(context: Context, options: RequestOptions,
                                      imageOptions: Option<map<string, JObject>>)
    requires imageOptions.Some? && GetInt(Get(imageOptions.value, "blurRadius")) <= 0
    ensures TransformResult(context, options, imageOptions) == options
  {
  }

  /**
    A positive radius with an image view appends exactly one transformation,
    for that view, with the radius capped at 200, and the application context.
   */
  lemma PositiveRadiusAddsOneTransformation(context: Context, options: RequestOptions,
                                            imageOptions: Option<map<string, JObject>>)
    requires TargetView(imageOptions) != null
    requires GetInt(Get(imageOptions.value, "blurRadius")) > 0
    ensures var r := TransformResult(context, options, imageOptions);
      var blurRadius := GetInt(Get(imageOptions.value, "blurRadius"));
      && |r.transformations| == |options.transformations| + 1
      && r.transformations[..|options.transformations|] == options.transformations
      && var t := r.transformations[|options.transformations|];
      && t.view == TargetView(imageOptions)
      && t.context == ApplicationContext(context)
      && t.radius == Min(blurRadius as real, 200.0)
      && 1.0 <= t.radius
  {
    var r := TransformResult(context, options, imageOptions);
    assert r.transformations[..|options.transformations|] == options.transformations;
  }
}
