/**
 * `FlavorDrawable`: a drawable that fills a rounded rectangle either with a
 * solid colour or with a linear, radial or sweep gradient, and caches the
 * gradient's shader until a property that affects it changes.
 *
 * The configuration is first described as a value (`DrawableState`) with
 * one pure function per transition; the class `FlavorDrawable` holds the
 * same fields as mutable state, and each of its methods is proved to move
 * `State()` exactly as the matching function does. The class invariant
 * `Valid()` is the cache's correctness condition: a cached shader is always
 * the one the current configuration would build.
 */
module Flavor {
  import opened Options
  import opened Geometry

  // ---------------------------------------------------------------------
  // Constants
  // ---------------------------------------------------------------------

  /** Gradient kinds (`GradientType`). */
  const LINEAR: int := 0
  const RADIAL: int := 1
  const SWEEP: int := 2

  /** Linear directions (`Direction`), as angles in degrees, counter-clockwise from "left to right". */
  const LEFT_RIGHT: int := 0
  const BL_TR: int := 45
  const BOTTOM_TOP: int := 90
  const BR_TL: int := 135
  const RIGHT_LEFT: int := 180
  const TR_BL: int := 225
  const TOP_BOTTOM: int := 270
  const TL_BR: int := 315

  predicate IsDirection(d: int)
  {
    d in {LEFT_RIGHT, BL_TR, BOTTOM_TOP, BR_TL, RIGHT_LEFT, TR_BL, TOP_BOTTOM, TL_BR}
  }

  predicate IsGradientType(k: int)
  {
    k in {LINEAR, RADIAL, SWEEP}
  }

  /** Colours are Android colour Ints: ARGB packed into a signed 32-bit integer. */
  const TRANSPARENT: int := 0
  const WHITE: int := -1
  const BLACK: int := -0x100_0000

  /** `"#rrggbb".toColorInt()`: alpha 0xFF over the given RGB, read as a signed Int. */
  function Opaque(rgb: int): (c: int)
    requires 0 <= rgb < 0x100_0000
    ensures -0x100_0000 <= c < 0
    ensures c % 0x100_0000 == rgb
  {
    rgb - 0x100_0000
  }

  // ---------------------------------------------------------------------
  // Themes
  // ---------------------------------------------------------------------

  datatype Theme =
    | BERRY | CANDY | CITRUS | MANGO | AQUA
    | DEFAULT_BLUE | YELLOW | RED | GREEN | ORANGE
    | TEAL_BLUE | LAVENDER_PURPLE | CORAL_PINK | BRIGHT_PURPLE | AQUA_BLUE | HOT_PINK

  /** The three colours of a gradient theme. */
  datatype Palette = Palette(start: int, center: int, end: int)

  /** The five gradient themes and their colours; `None` for the single-colour themes. */
  function ThemeGradient(t: Theme): (p: Option<Palette>)
    ensures p.Some? <==> t == BERRY || t == CANDY || t == CITRUS || t == MANGO || t == AQUA
  {
    match t
    case BERRY => Some(Palette(Opaque(0x005fff), Opaque(0x9200ff), Opaque(0xff2e19)))
    case CANDY => Some(Palette(Opaque(0xff8fb2), Opaque(0xa797ff), Opaque(0x00e5ff)))
    case CITRUS => Some(Palette(Opaque(0xffd200), Opaque(0x6edf00), Opaque(0x00dfbb)))
    case MANGO => Some(Palette(Opaque(0xffdc2d), Opaque(0xff9616), Opaque(0xff4f00)))
    case AQUA => Some(Palette(Opaque(0x19c9ff), Opaque(0x00e6d2), Opaque(0x0ee6b7)))
    case _ => None
  }

  /**
   * The colour of a single-colour theme. For a gradient theme the inner
   * `when` falls through to its "should not happen" branch: TRANSPARENT.
   */
  function SolidColorOf(t: Theme): (c: int)
    ensures ThemeGradient(t).None? <==> c != TRANSPARENT
  {
    match t
    case DEFAULT_BLUE => Opaque(0x0084ff)
    case YELLOW => Opaque(0xffc300)
    case RED => Opaque(0xfa3c4c)
    case GREEN => Opaque(0x13cf13)
    case ORANGE => Opaque(0xff7e29)
    case TEAL_BLUE => Opaque(0x44bec7)
    case LAVENDER_PURPLE => Opaque(0xd696bb)
    case CORAL_PINK => Opaque(0xe68585)
    case BRIGHT_PURPLE => Opaque(0x7646ff)
    case AQUA_BLUE => Opaque(0x20cef5)
    case HOT_PINK => Opaque(0xff5ca1)
    case _ => TRANSPARENT
  }

  // ---------------------------------------------------------------------
  // Shaders, as records of the parameters they are built from
  // ---------------------------------------------------------------------

  datatype Endpoints = Endpoints(x0: int, y0: int, x1: int, y1: int)

  datatype Shader =
    | LinearGradient(endpoints: Endpoints, colors: seq<int>, positions: Option<seq<real>>)
    | RadialGradient(cx: real, cy: real, radius: real, colors: seq<int>, positions: Option<seq<real>>)
    | SweepGradient(cx: real, cy: real, colors: seq<int>, positions: Option<seq<real>>)

  function Sign(x: int): int
  {
    if x > 0 then 1 else if x < 0 then -1 else 0
  }

  /** Sign of the cosine of an angle given in degrees, 0 <= d < 360. */
  function CosSign(d: int): int
  {
    if d == 90 || d == 270 then 0 else if 90 < d < 270 then -1 else 1
  }

  /** Sign of the sine of an angle given in degrees, 0 <= d < 360. */
  function SinSign(d: int): int
  {
    if d == 0 || d == 180 then 0 else if 0 < d < 180 then 1 else -1
  }

  /**
   * The start and end points of a linear gradient over the bounds `b`.
   * Both points lie on the rectangle's edges; on a rectangle with area the
   * vector from start to end points along the direction's angle (screen y
   * grows downwards, hence `y0 - y1` for the upward component). Codes other
   * than the eight directions behave as LEFT_RIGHT.
   */
  function LinearEndpoints(direction: int, b: Rect): (e: Endpoints)
    ensures (e.x0 == b.left || e.x0 == b.right) && (e.x1 == b.left || e.x1 == b.right)
    ensures (e.y0 == b.top || e.y0 == b.bottom) && (e.y1 == b.top || e.y1 == b.bottom)
    ensures direction == LEFT_RIGHT || direction == RIGHT_LEFT ==> e.y0 == e.y1 == b.top
    ensures direction == BOTTOM_TOP || direction == TOP_BOTTOM ==> e.x0 == e.x1 == b.left
    ensures IsDirection(direction) && b.HasArea() ==>
      Sign(e.x1 - e.x0) == CosSign(direction) && Sign(e.y0 - e.y1) == SinSign(direction)
    ensures !IsDirection(direction) ==> e == Endpoints(b.left, b.top, b.right, b.top)
  {
    if direction == LEFT_RIGHT then Endpoints(b.left, b.top, b.right, b.top)
    else if direction == BL_TR then Endpoints(b.left, b.bottom, b.right, b.top)
    else if direction == BOTTOM_TOP then Endpoints(b.left, b.bottom, b.left, b.top)
    else if direction == BR_TL then Endpoints(b.right, b.bottom, b.left, b.top)
    else if direction == RIGHT_LEFT then Endpoints(b.right, b.top, b.left, b.top)
    else if direction == TR_BL then Endpoints(b.right, b.top, b.left, b.bottom)
    else if direction == TOP_BOTTOM then Endpoints(b.left, b.top, b.left, b.bottom)
    else if direction == TL_BR then Endpoints(b.left, b.top, b.right, b.bottom)
    else Endpoints(b.left, b.top, b.right, b.top)
  }

  function Reversed(e: Endpoints): Endpoints
  {
    Endpoints(e.x1, e.y1, e.x0, e.y0)
  }

  /** Opposite directions run the same segment the other way round. */
  lemma OppositeDirectionsSwapEndpoints(d: int, b: Rect)
    requires IsDirection(d)
    ensures LinearEndpoints((d + 180) % 360, b) == Reversed(LinearEndpoints(d, b))
  {
  }

  /** `RectF.centerX()` and `RectF.centerY()`. */
  function CenterX(b: Rect): real { (b.left + b.right) as real / 2.0 }

  function CenterY(b: Rect): real { (b.top + b.bottom) as real / 2.0 }

  /** A linear gradient from the direction's start point to its end point on the bounds. */
  function CreateLinearGradient(direction: int, b: Rect, colors: seq<int>, positions: Option<seq<real>>): (sh: Shader)
    ensures sh.LinearGradient? && sh.colors == colors && sh.positions == positions
    ensures sh.endpoints == LinearEndpoints(direction, b)
    ensures direction == TOP_BOTTOM && b.HasArea() ==> sh.endpoints.y0 == b.top < sh.endpoints.y1 == b.bottom
  {
    LinearGradient(LinearEndpoints(direction, b), colors, positions)
  }

  /** A radial gradient centred on the bounds, with radius half the longer side. */
  function CreateRadialGradient(b: Rect, colors: seq<int>, positions: Option<seq<real>>): (sh: Shader)
    ensures sh.RadialGradient? && sh.colors == colors && sh.positions == positions
    ensures sh.cx - b.left as real == b.right as real - sh.cx
    ensures sh.cy - b.top as real == b.bottom as real - sh.cy
    ensures 2.0 * sh.radius >= b.Width() as real && 2.0 * sh.radius >= b.Height() as real
    ensures 2.0 * sh.radius == b.Width() as real || 2.0 * sh.radius == b.Height() as real
  {
    var radius := if b.Width() > b.Height() then b.Width() as real / 2.0 else b.Height() as real / 2.0;
    RadialGradient(CenterX(b), CenterY(b), radius, colors, positions)
  }

  /** A sweep gradient centred on the bounds. */
  function CreateSweepGradient(b: Rect, colors: seq<int>, positions: Option<seq<real>>): (sh: Shader)
    ensures sh.SweepGradient? && sh.colors == colors && sh.positions == positions
    ensures sh.cx - b.left as real == b.right as real - sh.cx
    ensures sh.cy - b.top as real == b.bottom as real - sh.cy
  {
    SweepGradient(CenterX(b), CenterY(b), colors, positions)
  }

  // ---------------------------------------------------------------------
  // The drawable's configuration as a value
  // ---------------------------------------------------------------------

  datatype DrawableState = DrawableState(
    theme: Theme,
    color: int,
    gradientType: int,
    startColor: int,
    centerColor: Option<int>,
    endColor: int,
    direction: int,
    cornerRadius: real,
    centerX: real,
    centerY: real,
    useSolidColor: bool,
    shader: Option<Shader>,   // the cached shader
    bounds: Rect)             // the rectangle drawn into, copied from the last bounds

  function ColorsOf(s: DrawableState): seq<int>
  {
    if s.centerColor.Some? then [s.startColor, s.centerColor.value, s.endColor]
    else [s.startColor, s.endColor]
  }

  function PositionsOf(s: DrawableState): Option<seq<real>>
  {
    if s.centerColor.Some? then Some([0.0, 0.5, 1.0]) else None
  }

  /**
   * The shader that the configuration calls for on its bounds: three
   * colours with stops at 0, 1/2 and 1 exactly when a centre colour is set,
   * otherwise the two end colours spread evenly; none for an unknown
   * gradient type.
   */
  function BuildShader(s: DrawableState): (sh: Option<Shader>)
    ensures sh.None? <==> !IsGradientType(s.gradientType)
    ensures sh.Some? ==>
      var cs := sh.value.colors;
      && (s.centerColor.Some? ==> |cs| == 3 && cs[1] == s.centerColor.value)
      && (s.centerColor.None? ==> |cs| == 2)
      && cs[0] == s.startColor && cs[|cs| - 1] == s.endColor
      && (sh.value.positions == Some([0.0, 0.5, 1.0]) <==> s.centerColor.Some?)
      && (sh.value.positions.None? <==> s.centerColor.None?)
    ensures sh.Some? ==>
      && (sh.value.LinearGradient? <==> s.gradientType == LINEAR)
      && (sh.value.RadialGradient? <==> s.gradientType == RADIAL)
      && (sh.value.SweepGradient? <==> s.gradientType == SWEEP)
    ensures sh.Some? && sh.value.LinearGradient? ==>
      sh.value.endpoints == LinearEndpoints(s.direction, s.bounds)
    // radial and sweep gradients are centred on the bounds; the radius is half the longer side
    ensures sh.Some? && (sh.value.RadialGradient? || sh.value.SweepGradient?) ==>
      && sh.value.cx - s.bounds.left as real == s.bounds.right as real - sh.value.cx
      && sh.value.cy - s.bounds.top as real == s.bounds.bottom as real - sh.value.cy
    ensures sh.Some? && sh.value.RadialGradient? ==>
      var (w, h) := (s.bounds.Width() as real, s.bounds.Height() as real);
      && 2.0 * sh.value.radius >= w && 2.0 * sh.value.radius >= h
      && (2.0 * sh.value.radius == w || 2.0 * sh.value.radius == h)
  {
    var colors := ColorsOf(s);
    var positions := PositionsOf(s);
    if s.gradientType == LINEAR then Some(CreateLinearGradient(s.direction, s.bounds, colors, positions))
    else if s.gradientType == RADIAL then Some(CreateRadialGradient(s.bounds, colors, positions))
    else if s.gradientType == SWEEP then Some(CreateSweepGradient(s.bounds, colors, positions))
    else None
  }

  /**
   * The theme, the solid colour, the corner radius, the solid-mode flag,
   * the cache itself and the centre fractions `centerX`/`centerY` play no
   * part in the shader that is built.
   */
  lemma ShaderIgnoresUnrelatedProperties(s: DrawableState, t: Theme, color: int, radius: real,
                                         cx: real, cy: real, solid: bool, cached: Option<Shader>)
    ensures BuildShader(s.(theme := t, color := color, cornerRadius := radius, centerX := cx,
                           centerY := cy, useSolidColor := solid, shader := cached)) == BuildShader(s)
  {
  }

  /** The cache is correct: whatever it holds is what the configuration builds now. */
  predicate CacheCoherent(s: DrawableState)
  {
    s.shader.Some? ==> s.bounds.HasArea() && s.shader == BuildShader(s)
  }

  // The transitions. Every gradient-affecting setter stores its value,
  // leaves solid mode and empties the cache.

  function ResetShader(s: DrawableState): DrawableState { s.(shader := None) }

  function WithColor(s: DrawableState, v: int): DrawableState
  {
    ResetShader(s.(color := v, useSolidColor := false))
  }

  function WithGradientType(s: DrawableState, v: int): DrawableState
  {
    ResetShader(s.(gradientType := v, useSolidColor := false))
  }

  function WithStartColor(s: DrawableState, v: int): DrawableState
  {
    ResetShader(s.(startColor := v, useSolidColor := false))
  }

  function WithCenterColor(s: DrawableState, v: Option<int>): DrawableState
  {
    ResetShader(s.(centerColor := v, useSolidColor := false))
  }

  function WithEndColor(s: DrawableState, v: int): DrawableState
  {
    ResetShader(s.(endColor := v, useSolidColor := false))
  }

  function WithDirection(s: DrawableState, v: int): DrawableState
  {
    ResetShader(s.(direction := v, useSolidColor := false))
  }

  function WithCenterX(s: DrawableState, v: real): DrawableState
  {
    ResetShader(s.(centerX := v, useSolidColor := false))
  }

  function WithCenterY(s: DrawableState, v: real): DrawableState
  {
    ResetShader(s.(centerY := v, useSolidColor := false))
  }

  /**
   * The corner radius setter leaves solid mode but keeps the cache: the
   * radius is not a shader parameter, so a correct cache stays correct.
   */
  function WithCornerRadius(s: DrawableState, v: real): (r: DrawableState)
    ensures r.shader == s.shader && !r.useSolidColor && r.cornerRadius == v
    ensures CacheCoherent(s) ==> CacheCoherent(r)
  {
    s.(cornerRadius := v, useSolidColor := false)
  }

  /** `onBoundsChange`: copy the new bounds and empty the cache. */
  function WithBounds(s: DrawableState, b: Rect): (r: DrawableState)
  {
    ResetShader(s.(bounds := b))
  }

  /**
   * `applyTheme`: reset the colour, the gradient type and the centre colour
   * through their setters, then assign the theme's colours through the
   * setters, then drop the cache. For a single-colour theme the solid flag
   * is raised just before the colour setter, which lowers it again, so no
   * theme ends in solid mode.
   */
  function ApplyThemeTo(s: DrawableState, t: Theme): (r: DrawableState)
    ensures r.gradientType == LINEAR && r.shader == None && !r.useSolidColor
    ensures r.theme == s.theme && r.direction == s.direction && r.cornerRadius == s.cornerRadius
    ensures r.centerX == s.centerX && r.centerY == s.centerY && r.bounds == s.bounds
    ensures ThemeGradient(t).Some? ==>
      var p := ThemeGradient(t).value;
      && r.color == TRANSPARENT
      && r.startColor == p.start && r.centerColor == Some(p.center) && r.endColor == p.end
    ensures ThemeGradient(t).None? ==>
      && r.color == SolidColorOf(t) && r.color != TRANSPARENT
      && r.centerColor == None
      && r.startColor == s.startColor && r.endColor == s.endColor
  {
    var reset := WithCenterColor(WithGradientType(WithColor(s, TRANSPARENT), LINEAR), None).(useSolidColor := false);
    var themed :=
      match ThemeGradient(t)
      case Some(p) => WithEndColor(WithCenterColor(WithStartColor(reset, p.start), Some(p.center)), p.end)
      case None => WithColor(reset.(useSolidColor := true), SolidColorOf(t));
    ResetShader(themed)
  }

  /** The property initialisers, before the constructor applies the theme. */
  function Defaults(): DrawableState
  {
    DrawableState(CANDY, TRANSPARENT, LINEAR, WHITE, None, BLACK, TOP_BOTTOM,
                  0.0, 0.5, 0.5, false, None, EMPTY_RECT)
  }

  /** A freshly constructed drawable: the CANDY gradient, top to bottom, square corners. */
  function FreshState(): (s: DrawableState)
    ensures s.theme == CANDY && s.direction == TOP_BOTTOM && s.cornerRadius == 0.0
    ensures s.gradientType == LINEAR && s.color == TRANSPARENT && !s.useSolidColor && s.shader == None
    ensures s.startColor == Opaque(0xff8fb2) && s.centerColor == Some(Opaque(0xa797ff))
    ensures s.endColor == Opaque(0x00e5ff)
    ensures s.centerX == 0.5 && s.centerY == 0.5 && s.bounds == EMPTY_RECT
  {
    ApplyThemeTo(Defaults(), CANDY)
  }

  /**
   * A fresh drawable switched to TEAL_BLUE, once it has bounds, still builds
   * a gradient: the two CANDY end colours from top to bottom, with the teal
   * colour stored but never used.
   */
  lemma TealBlueOnFreshDrawableDrawsCandyGradient(b: Rect)
    ensures
      var s := ApplyThemeTo(FreshState().(theme := TEAL_BLUE), TEAL_BLUE);
      && !s.useSolidColor && s.color == Opaque(0x44bec7)
      && BuildShader(WithBounds(s, b)) ==
         Some(LinearGradient(LinearEndpoints(TOP_BOTTOM, b), [Opaque(0xff8fb2), Opaque(0x00e5ff)], None))
  {
  }

  /** What `canvas.drawRoundRect(flavorRectF, cornerRadius, cornerRadius, flavorPaint)` receives. */
  datatype RoundRectCall = RoundRectCall(rect: Rect, radius: real, paintColor: int, paintShader: Option<Shader>)

  // ---------------------------------------------------------------------
  // The drawable as an object
  // ---------------------------------------------------------------------

  class FlavorDrawable {
    var theme: Theme
    var color: int
    var gradientType: int
    var startColor: int
    var centerColor: Option<int>
    var endColor: int
    var direction: int
    var cornerRadius: real
    var centerX: real
    var centerY: real
    var useSolidColor: bool
    var shader: Option<Shader>         // the cached shader
    var rect: Rect                     // flavorRectF, always copied from integer bounds
    var paintColor: int                // flavorPaint.color
    var paintShader: Option<Shader>    // flavorPaint.shader
    ghost var invalidations: nat       // how often invalidateSelf() was called

    function State(): DrawableState
      reads this
    {
      DrawableState(theme, color, gradientType, startColor, centerColor, endColor, direction,
                    cornerRadius, centerX, centerY, useSolidColor, shader, rect)
    }

    predicate Valid()
      reads this
    {
      CacheCoherent(State())
    }

    /** The property initialisers, then `applyTheme(theme)` from the init block. */
    constructor ()
      ensures Valid() && State() == FreshState()
      ensures paintColor == BLACK && paintShader == None
      ensures invalidations == 7
    {
      theme, color, gradientType := CANDY, TRANSPARENT, LINEAR;
      startColor, centerColor, endColor := WHITE, None, BLACK;
      direction, cornerRadius, centerX, centerY := TOP_BOTTOM, 0.0, 0.5, 0.5;
      useSolidColor, shader, rect := false, None, EMPTY_RECT;
      paintColor, paintShader := BLACK, None;
      invalidations := 0;
      new;
      ApplyTheme(theme);
    }

    method ResetShader()
      modifies this`shader, this`invalidations
      ensures shader == None && invalidations == old(invalidations) + 1
    {
      shader := None;
      invalidations := invalidations + 1;
    }

    method SetColor(value: int)
      modifies this`color, this`useSolidColor, this`shader, this`invalidations
      ensures State() == WithColor(old(State()), value) && Valid()
      ensures invalidations == old(invalidations) + 1
    {
      color := value;
      useSolidColor := false;
      ResetShader();
    }

    method SetGradientType(value: int)
      modifies this`gradientType, this`useSolidColor, this`shader, this`invalidations
      ensures State() == WithGradientType(old(State()), value) && Valid()
      ensures invalidations == old(invalidations) + 1
    {
      gradientType := value;
      useSolidColor := false;
      ResetShader();
    }

    method SetStartColor(value: int)
      modifies this`startColor, this`useSolidColor, this`shader, this`invalidations
      ensures State() == WithStartColor(old(State()), value) && Valid()
      ensures invalidations == old(invalidations) + 1
    {
      startColor := value;
      useSolidColor := false;
      ResetShader();
    }

    method SetCenterColor(value: Option<int>)
      modifies this`centerColor, this`useSolidColor, this`shader, this`invalidations
      ensures State() == WithCenterColor(old(State()), value) && Valid()
      ensures invalidations == old(invalidations) + 1
    {
      centerColor := value;
      useSolidColor := false;
      ResetShader();
    }

    method SetEndColor(value: int)
      modifies this`endColor, this`useSolidColor, this`shader, this`invalidations
      ensures State() == WithEndColor(old(State()), value) && Valid()
      ensures invalidations == old(invalidations) + 1
    {
      endColor := value;
      useSolidColor := false;
      ResetShader();
    }

    method SetDirection(value: int)
      modifies this`direction, this`useSolidColor, this`shader, this`invalidations
      ensures State() == WithDirection(old(State()), value) && Valid()
      ensures invalidations == old(invalidations) + 1
    {
      direction := value;
      useSolidColor := false;
      ResetShader();
    }

    method SetCenterX(value: real)
      modifies this`centerX, this`useSolidColor, this`shader, this`invalidations
      ensures State() == WithCenterX(old(State()), value) && Valid()
      ensures invalidations == old(invalidations) + 1
    {
      centerX := value;
      useSolidColor := false;
      ResetShader();
    }

    method SetCenterY(value: real)
      modifies this`centerY, this`useSolidColor, this`shader, this`invalidations
      ensures State() == WithCenterY(old(State()), value) && Valid()
      ensures invalidations == old(invalidations) + 1
    {
      centerY := value;
      useSolidColor := false;
      ResetShader();
    }

    /** Stores the radius and leaves solid mode; the cache is kept and a redraw requested. */
    method SetCornerRadius(value: real)
      requires Valid()
      modifies this`cornerRadius, this`useSolidColor, this`invalidations
      ensures State() == WithCornerRadius(old(State()), value) && Valid()
      ensures invalidations == old(invalidations) + 1
    {
      cornerRadius := value;
      useSolidColor := false;
      invalidations := invalidations + 1;
    }

    method SetTheme(value: Theme)
      modifies this`theme, this`color, this`gradientType, this`startColor, this`centerColor,
               this`endColor, this`useSolidColor, this`shader, this`invalidations
      ensures State() == ApplyThemeTo(old(State()).(theme := value), value) && Valid()
      ensures theme == value
      ensures ThemeGradient(value).Some? ==> invalidations == old(invalidations) + 7
      ensures ThemeGradient(value).None? ==> invalidations == old(invalidations) + 5
    {
      theme := value;
      ApplyTheme(value);
    }

    method ApplyTheme(t: Theme)
      modifies this`color, this`gradientType, this`startColor, this`centerColor,
               this`endColor, this`useSolidColor, this`shader, this`invalidations
      ensures State() == ApplyThemeTo(old(State()), t) && Valid()
      // three resetting setters, three palette setters or one colour setter, then resetShader
      ensures ThemeGradient(t).Some? ==> invalidations == old(invalidations) + 7
      ensures ThemeGradient(t).None? ==> invalidations == old(invalidations) + 5
    {
      SetColor(TRANSPARENT);
      SetGradientType(LINEAR);
      SetCenterColor(None);
      useSolidColor := false;
      var palette := ThemeGradient(t);
      match palette {
        case Some(p) =>
          SetStartColor(p.start);
          SetCenterColor(Some(p.center));
          SetEndColor(p.end);
        case None =>
          useSolidColor := true;
          SetColor(SolidColorOf(t));
      }
      ResetShader();
    }

    method OnBoundsChange(bounds: Rect)
      modifies this`rect, this`shader, this`invalidations
      ensures State() == WithBounds(old(State()), bounds) && Valid()
      ensures invalidations == old(invalidations) + 1
    {
      rect := bounds;
      ResetShader();
    }

    /** Fills the cache from the configuration, unless the bounds are empty. */
    method UpdateShader()
      modifies this`shader
      ensures !rect.HasArea() ==> shader == old(shader)
      ensures rect.HasArea() ==> shader == BuildShader(State())
      ensures old(Valid()) ==> Valid()
    {
      if rect.Width() <= 0 || rect.Height() <= 0 {
        return;
      }
      var colors := if centerColor.Some? then [startColor, centerColor.value, endColor]
                    else [startColor, endColor];
      var positions := if centerColor.Some? then Some([0.0, 0.5, 1.0]) else None;
      if gradientType == LINEAR {
        shader := Some(CreateLinearGradient(direction, rect, colors, positions));
      } else if gradientType == RADIAL {
        shader := Some(CreateRadialGradient(rect, colors, positions));
      } else if gradientType == SWEEP {
        shader := Some(CreateSweepGradient(rect, colors, positions));
      } else {
        shader := None;
      }
    }

    /**
     * The cache-using part of `draw`: in solid mode the paint gets the
     * colour and no shader; otherwise an empty cache is filled first and the
     * paint gets the cached shader, which is then exactly the shader the
     * current configuration builds (none on bounds without area).
     */
    method Draw() returns (call: RoundRectCall)
      requires Valid()
      modifies this`shader, this`paintColor, this`paintShader
      ensures Valid()
      ensures useSolidColor ==> shader == old(shader) && paintShader == None && paintColor == color
      ensures !useSolidColor ==> paintColor == old(paintColor) && paintShader == shader
      ensures !useSolidColor && old(shader).Some? ==> shader == old(shader)
      ensures !useSolidColor && rect.HasArea() ==> paintShader == BuildShader(State())
      ensures !useSolidColor && !rect.HasArea() ==> paintShader == None
      ensures call == RoundRectCall(rect, cornerRadius, paintColor, paintShader)
    {
      if useSolidColor {
        paintShader := None;
        paintColor := color;
      } else {
        if shader == None {
          UpdateShader();
        }
        paintShader := shader;
      }
      call := RoundRectCall(rect, cornerRadius, paintColor, paintShader);
    }
  }
}
