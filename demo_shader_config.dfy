/**
 * The integer parts of the demo's per-frame parameter updates: each configuration turns the
 * frame timestamp (milliseconds, a Kotlin `Long`) into the values it writes to its own
 * uniforms. Float divisions are kept as numerator/denominator pairs.
 */
module DemoShaderConfig {
  import opened Params

  /**
   * Kotlin `Long` division: truncates toward zero, so the part of `a` that `b * q` leaves over
   * is below `b` in size and has the sign of `a`.
   */
  function KDiv(a: int, b: int): (q: int)
    requires b > 0
    ensures a >= 0 ==> 0 <= a - b * q < b
    ensures a < 0 ==> -b < a - b * q <= 0
  {
    if a >= 0 then a / b else -((-a) / b)
  }

  /** Kotlin `Long` remainder: takes the sign of the dividend. */
  function KRem(a: int, b: int): (r: int)
    requires b > 0
    ensures a == b * KDiv(a, b) + r
    ensures a >= 0 ==> 0 <= r < b
    ensures a < 0 ==> -b < r <= 0
  {
    a - b * KDiv(a, b)
  }

  const MaxBlurSize := 25
  const ColorSteps := 254
  const OffsetPeriodU := 5000
  const OffsetPeriodV := 1000

  /** A value handed to `updateValue`, with every float division kept as a fraction. */
  datatype UniformValue =
    | IntValue(value: int)
    /** `(1 / width, 1 / height)` */
    | InverseSize(width: int, height: int)
    /** `(r / denominator, g / denominator, b / denominator, alpha)` */
    | ColorFraction(red: int, green: int, blue: int, denominator: int, alpha: int)
    /** `(u / uDenominator, v / vDenominator)` */
    | OffsetFraction(u: int, uDenominator: int, v: int, vDenominator: int)

  datatype Update = Update(name: string, value: UniformValue)

  /** Whether a value has the shape of a parameter of the given kind. */
  predicate Fits(value: UniformValue, kind: Kind) {
    match value
    case IntValue(_) => kind == Integer
    case InverseSize(_, _) => kind == Vec2f
    case ColorFraction(_, _, _, _, _) => kind == Vec4f
    case OffsetFraction(_, _, _, _) => kind == Vec2f
  }

  /** Every update names a declared parameter and fits its kind. */
  predicate UpdatesDeclared(updates: seq<Update>, declared: ParamSet) {
    forall k :: 0 <= k < |updates| ==> updates[k].name in declared && Fits(updates[k].value, declared[updates[k].name])
  }

  function Names(updates: seq<Update>): set<string> {
    set k | 0 <= k < |updates| :: updates[k].name
  }

  const BlurParams: ParamSet := map["uTexture" := Texture2D, "uScale" := Vec2f, "uBlurSize" := Integer]
  const CircleColorParams: ParamSet := map["diffuseColor" := Vec4f]
  const AnimatedTextureParams: ParamSet := map["uTexture" := Texture2D, "uOffset" := Vec2f]

  /**
   * `(timestamp / 100) % 25 + 1`; with truncating arithmetic a negative timestamp can give a
   * size down to -23, so the narrowing to a 32-bit `Int` never loses information.
   */
  function BlurSize(timestamp: int): (size: int)
    ensures -(MaxBlurSize - 2) <= size <= MaxBlurSize
    ensures timestamp >= 0 ==> 1 <= size <= MaxBlurSize
  {
    KRem(KDiv(timestamp, 100), MaxBlurSize) + 1
  }

  /**
   * `BlurShader.onUpdate`: writes exactly `uBlurSize` and `uScale`, both declared with matching
   * kinds; the blur size is an integer in [1, 25] for a non-negative timestamp.
   */
  function BlurUpdate(timestamp: int, width: int, height: int): (r: seq<Update>)
    ensures Names(r) == {"uBlurSize", "uScale"}
    ensures UpdatesDeclared(r, BlurParams)
    ensures r[0].name == "uBlurSize" && r[0].value.IntValue?
    ensures timestamp >= 0 ==> 1 <= r[0].value.value <= MaxBlurSize
  {
    var r := [Update("uBlurSize", IntValue(BlurSize(timestamp))), Update("uScale", InverseSize(width, height))];
    assert r[0].name in Names(r) && r[1].name in Names(r);
    r
  }

  /** `CircleColorShader.onUpdate`: writes exactly `diffuseColor`, a declared `Vec4f`. */
  function CircleColorUpdate(timestamp: int): (r: seq<Update>)
    ensures Names(r) == {"diffuseColor"}
    ensures UpdatesDeclared(r, CircleColorParams)
    ensures r[0].value.ColorFraction?
  {
    var r := [Update("diffuseColor", ColorFraction(KRem(KDiv(timestamp, 10), ColorSteps), KRem(KDiv(timestamp, 50), ColorSteps),
                                                 KRem(KDiv(timestamp, 100), ColorSteps), ColorSteps, 1))];
    assert r[0].name in Names(r);
    r
  }

  /** `AnimatedTextureShader.onUpdate`: writes exactly `uOffset`, a declared `Vec2f`. */
  function AnimatedTextureUpdate(timestamp: int): (r: seq<Update>)
    ensures Names(r) == {"uOffset"}
    ensures UpdatesDeclared(r, AnimatedTextureParams)
    ensures r[0].value.OffsetFraction?
  {
    var r := [Update("uOffset", OffsetFraction(KRem(timestamp, OffsetPeriodU), OffsetPeriodU, KRem(timestamp, OffsetPeriodV), OffsetPeriodV))];
    assert r[0].name in Names(r);
    r
  }

  /** The blur size repeats every 2500 ms. */
  lemma BlurSizePeriodic(timestamp: int)
    requires timestamp >= 0
    ensures BlurSize(timestamp + 100 * MaxBlurSize) == BlurSize(timestamp)
  {
    var q := timestamp / 100;
    assert (timestamp + 100 * MaxBlurSize) / 100 == q + MaxBlurSize;
    assert (q + MaxBlurSize) % MaxBlurSize == q % MaxBlurSize;
  }

  /** Within a cycle the blur size grows by one every 100 ms, and falls back to 1 after 25. */
  lemma BlurSizeSteps(timestamp: int)
    requires timestamp >= 0
    ensures KRem(KDiv(timestamp, 100), MaxBlurSize) < MaxBlurSize - 1 ==> BlurSize(timestamp + 100) == BlurSize(timestamp) + 1
    ensures KRem(KDiv(timestamp, 100), MaxBlurSize) == MaxBlurSize - 1 ==> BlurSize(timestamp + 100) == 1
  {
    var q := timestamp / 100;
    assert (timestamp + 100) / 100 == q + 1;
    var r := q % MaxBlurSize;
    assert q == MaxBlurSize * (q / MaxBlurSize) + r;
    if r < MaxBlurSize - 1 {
      assert q + 1 == MaxBlurSize * (q / MaxBlurSize) + (r + 1);
      assert (q + 1) % MaxBlurSize == r + 1;
    } else {
      assert q + 1 == MaxBlurSize * (q / MaxBlurSize + 1);
      assert (q + 1) % MaxBlurSize == 0;
    }
  }

  /**
   * The colour numerators stay below the denominator 254 (never negative for a non-negative
   * timestamp) and the alpha is always 1, so every component lies in [0, 1).
   */
  lemma CircleColorInRange(timestamp: int)
    ensures var c := CircleColorUpdate(timestamp)[0].value;
      && c.denominator == ColorSteps && c.alpha == 1
      && -ColorSteps < c.red < ColorSteps && -ColorSteps < c.green < ColorSteps && -ColorSteps < c.blue < ColorSteps
      && (timestamp >= 0 ==> 0 <= c.red < ColorSteps && 0 <= c.green < ColorSteps && 0 <= c.blue < ColorSteps)
  {
  }

  /** The texture offsets cycle through [0, 5000) and [0, 1000) for a non-negative timestamp. */
  lemma AnimatedOffsetInRange(timestamp: int)
    ensures var o := AnimatedTextureUpdate(timestamp)[0].value;
      && o.uDenominator == OffsetPeriodU && o.vDenominator == OffsetPeriodV
      && -OffsetPeriodU < o.u < OffsetPeriodU && -OffsetPeriodV < o.v < OffsetPeriodV
      && (timestamp >= 0 ==> 0 <= o.u < OffsetPeriodU && 0 <= o.v < OffsetPeriodV)
  {
  }
}
