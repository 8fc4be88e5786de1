# Fluid: gradient drawable and grouped chat-bubble decoration, in Dafny

This project models the decision logic of the Fluid Android UI library and of
its demo chat screen:

- **`FlavorDrawable`** (`flavor_drawable.dfy`, module `Flavor`): a drawable
  configured by a colour, a gradient type, start/centre/end colours, a
  direction, a corner radius and centre fractions, with a preset `Theme`
  switch. Every property setter stores its value, leaves solid mode and
  (except for the corner radius) drops the cached shader; `draw` fills the
  cache lazily from the current configuration. The configuration is a value,
  `DrawableState`, with one function per transition; the class
  `FlavorDrawable` holds the same fields and each method is proved to move
  `State()` exactly as its function does. The class invariant `Valid()`
  (`CacheCoherent`) says the cache is never stale: a cached shader is the one
  the current configuration builds, and `Draw` therefore always paints with
  the up-to-date shader. Shaders are records of their parameters (kind,
  colours, stops, endpoints or centre and radius).
- **`ClippingGradientDecoration`** (`clipping_gradient_decoration.dfy`,
  module `ClippingDecoration`): for a list of adapter view types, whether an
  item's neighbours share its type, which of its four corners use the grouped
  or the regular radius (primary types group on the right, the others on the
  left), its top margin, the walk up the parent chain that locates the
  clipping target, and the list of clip-and-draw operations `onDraw` issues.
- **The demo data** (`data_models.dfy`, module `DataModels`): `Message`,
  `sampleTexts` and the adapter's message-to-view-type mapping, which give the
  decoration a concrete twenty-item list; its bubble shapes and margins are
  proved, down to the radii of the clip-and-draw operations `onDraw` issues
  for it.

`geometry.dfy` holds the rectangles, points and view boxes; `options.dfy`
holds `Option`, standing for Kotlin's nullable types.

Where the code and its documentation comments disagree, the model follows the
code:

- The `color` property is documented to override the gradient when not
  transparent; `draw` looks only at `useSolidColor`.
- `centerX`/`centerY` are documented as the centre of radial and sweep
  gradients; the shader builders never read them
  (`ShaderIgnoresUnrelatedProperties`), and both gradients are centred on the
  bounds.
- Single-colour themes raise `useSolidColor` and then assign `color`
  through its setter, which lowers the flag again, so every theme ends in
  gradient mode (`ApplyThemeTo`). A fresh drawable switched to TEAL_BLUE thus
  paints the CANDY start and end colours as a two-colour gradient
  (`TealBlueOnFreshDrawableDrawsCandyGradient`).

Colours are Android colour Ints (signed 32-bit ARGB): TRANSPARENT is 0, WHITE
-1, BLACK -0x1000000, and an opaque `#rrggbb` is `rrggbb - 0x1000000`. Floats
(corner radius, centre fractions, centres, radii, translations) are exact
reals.

## Model

| member | source | states |
|---|---|---|
| `Flavor.Opaque` | Fluid/src/main/java/io/github/mahmoud_dev01/fluid/FlavorDrawable.kt:189-231 | a theme colour `#rrggbb` is opaque: negative as a signed Int, never TRANSPARENT, and its low 24 bits are `rrggbb` |
| `Flavor.ThemeGradient` | Fluid/src/main/java/io/github/mahmoud_dev01/fluid/FlavorDrawable.kt:187-216 | exactly BERRY, CANDY, CITRUS, MANGO and AQUA have a palette |
| `Flavor.SolidColorOf` | Fluid/src/main/java/io/github/mahmoud_dev01/fluid/FlavorDrawable.kt:218-233 | a theme has a non-transparent solid colour exactly when it is not one of the five gradient themes |
| `Flavor.LinearEndpoints` | Fluid/src/main/java/io/github/mahmoud_dev01/fluid/FlavorDrawable.kt:286-337 | both endpoints lie on the bounds' edges; horizontal directions keep y0 = y1, vertical ones x0 = x1; on bounds with area the start-to-end vector has the signs of the direction angle's cosine and sine; an unknown code gives the LEFT_RIGHT points |
| `Flavor.OppositeDirectionsSwapEndpoints` | Fluid/src/main/java/io/github/mahmoud_dev01/fluid/FlavorDrawable.kt:292-332 | directions d and d+180 give the same segment with start and end swapped |
| `Flavor.CreateLinearGradient` | Fluid/src/main/java/io/github/mahmoud_dev01/fluid/FlavorDrawable.kt:286-340 | a linear gradient with the given colours and stops, running between the direction's endpoints on the bounds (top to bottom on TOP_BOTTOM) |
| `Flavor.CreateRadialGradient` | Fluid/src/main/java/io/github/mahmoud_dev01/fluid/FlavorDrawable.kt:342-354 | centred on the bounds; the radius is half the longer side (at least half of each side and equal to half of one) |
| `Flavor.CreateSweepGradient` | Fluid/src/main/java/io/github/mahmoud_dev01/fluid/FlavorDrawable.kt:356-363 | centred on the bounds, with the given colours and stops |
| `Flavor.BuildShader` | Fluid/src/main/java/io/github/mahmoud_dev01/fluid/FlavorDrawable.kt:270-283 | no shader exactly for an unknown gradient type; three colours with stops [0, 0.5, 1] exactly when a centre colour is set, else the two end colours and no stops; the kind follows the gradient type; a linear shader uses the direction's endpoints, radial and sweep shaders are centred on the bounds, and a radial one has radius half the longer side |
| `Flavor.ShaderIgnoresUnrelatedProperties` | Fluid/src/main/java/io/github/mahmoud_dev01/fluid/FlavorDrawable.kt:270-363 | theme, colour, corner radius, `centerX`, `centerY`, solid flag and the cache do not affect the shader built |
| `Flavor.WithCornerRadius` | Fluid/src/main/java/io/github/mahmoud_dev01/fluid/FlavorDrawable.kt:145-151 | the radius setter stores the radius and leaves solid mode but keeps the cached shader, and a correct cache stays correct |
| `Flavor.ApplyThemeTo` | Fluid/src/main/java/io/github/mahmoud_dev01/fluid/FlavorDrawable.kt:180-239 | after any theme: LINEAR, empty cache, not solid; gradient themes leave colour TRANSPARENT and set start, centre (non-null) and end; single-colour themes set the theme colour, clear the centre and keep start and end; theme, direction, radius, centre fractions and bounds unchanged |
| `Flavor.FreshState` | Fluid/src/main/java/io/github/mahmoud_dev01/fluid/FlavorDrawable.kt:81-172 | a fresh drawable is in the CANDY gradient state, TOP_BOTTOM, corner radius 0, empty bounds and cache |
| `Flavor.TealBlueOnFreshDrawableDrawsCandyGradient` | Fluid/src/main/java/io/github/mahmoud_dev01/fluid/FlavorDrawable.kt:217-239 | a fresh drawable switched to TEAL_BLUE stays in gradient mode and builds the CANDY start-to-end gradient top to bottom |
| `Flavor.FlavorDrawable.constructor` | Fluid/src/main/java/io/github/mahmoud_dev01/fluid/FlavorDrawable.kt:81-172 | initialisers then the CANDY theme: `State()` is `FreshState()`, the cache invariant holds, the paint starts black without shader; seven redraw requests have been made |
| `Flavor.FlavorDrawable.ResetShader` | Fluid/src/main/java/io/github/mahmoud_dev01/fluid/FlavorDrawable.kt:369-372 | empties the cache and requests one redraw, nothing else |
| `Flavor.FlavorDrawable.SetColor` | Fluid/src/main/java/io/github/mahmoud_dev01/fluid/FlavorDrawable.kt:97-103 | stores the colour, leaves solid mode, empties the cache; no other field changes |
| `Flavor.FlavorDrawable.SetGradientType` | Fluid/src/main/java/io/github/mahmoud_dev01/fluid/FlavorDrawable.kt:105-111 | stores the type, leaves solid mode, empties the cache; no other field changes |
| `Flavor.FlavorDrawable.SetStartColor` | Fluid/src/main/java/io/github/mahmoud_dev01/fluid/FlavorDrawable.kt:113-119 | stores the start colour, leaves solid mode, empties the cache; no other field changes |
| `Flavor.FlavorDrawable.SetCenterColor` | Fluid/src/main/java/io/github/mahmoud_dev01/fluid/FlavorDrawable.kt:121-127 | stores the (nullable) centre colour, leaves solid mode, empties the cache; no other field changes |
| `Flavor.FlavorDrawable.SetEndColor` | Fluid/src/main/java/io/github/mahmoud_dev01/fluid/FlavorDrawable.kt:129-135 | stores the end colour, leaves solid mode, empties the cache; no other field changes |
| `Flavor.FlavorDrawable.SetDirection` | Fluid/src/main/java/io/github/mahmoud_dev01/fluid/FlavorDrawable.kt:137-143 | stores the direction, leaves solid mode, empties the cache; no other field changes |
| `Flavor.FlavorDrawable.SetCornerRadius` | Fluid/src/main/java/io/github/mahmoud_dev01/fluid/FlavorDrawable.kt:145-151 | stores the radius, leaves solid mode, keeps the cache and the cache invariant, requests a redraw |
| `Flavor.FlavorDrawable.SetCenterX` | Fluid/src/main/java/io/github/mahmoud_dev01/fluid/FlavorDrawable.kt:153-159 | stores the fraction, leaves solid mode, empties the cache; no other field changes |
| `Flavor.FlavorDrawable.SetCenterY` | Fluid/src/main/java/io/github/mahmoud_dev01/fluid/FlavorDrawable.kt:161-167 | stores the fraction, leaves solid mode, empties the cache; no other field changes |
| `Flavor.FlavorDrawable.SetTheme` | Fluid/src/main/java/io/github/mahmoud_dev01/fluid/FlavorDrawable.kt:91-95 | stores the theme and applies it through the setters: the new state is `ApplyThemeTo` of the old one, with seven redraw requests for a gradient theme and five for a single-colour one |
| `Flavor.FlavorDrawable.ApplyTheme` | Fluid/src/main/java/io/github/mahmoud_dev01/fluid/FlavorDrawable.kt:180-239 | the sequence of setter calls moves the state exactly as `ApplyThemeTo` and keeps the cache invariant; every setter and the final `resetShader` request a redraw: seven for a gradient theme, five for a single-colour one |
| `Flavor.FlavorDrawable.OnBoundsChange` | Fluid/src/main/java/io/github/mahmoud_dev01/fluid/FlavorDrawable.kt:254-259 | copies the bounds and empties the cache; no other field changes |
| `Flavor.FlavorDrawable.UpdateShader` | Fluid/src/main/java/io/github/mahmoud_dev01/fluid/FlavorDrawable.kt:265-284 | on bounds without area the cache is untouched; otherwise it becomes `BuildShader` of the current state; the cache invariant is kept |
| `Flavor.FlavorDrawable.Draw` | Fluid/src/main/java/io/github/mahmoud_dev01/fluid/FlavorDrawable.kt:241-252 | solid mode paints the colour without shader and keeps the cache; gradient mode fills an empty cache and paints with exactly the shader the current configuration builds (none without area); the round rect uses the bounds and the corner radius |
| `ClippingDecoration.GroupedSide` | Fluid/src/main/java/io/github/mahmoud_dev01/fluid/ClippingGradientDecoration.kt:107-123 | primary types group on the right, all others on the left; a type in both sets counts as primary |
| `ClippingDecoration.BackgroundFor` | Fluid/src/main/java/io/github/mahmoud_dev01/fluid/ClippingGradientDecoration.kt:130-134 | the primary drawable is used exactly for primary types, including types in both sets |
| `ClippingDecoration.PrevIsSameType` | Fluid/src/main/java/io/github/mahmoud_dev01/fluid/ClippingGradientDecoration.kt:98-99 | false at position 0, otherwise whether the previous item's view type is the item's |
| `ClippingDecoration.NextIsSameType` | Fluid/src/main/java/io/github/mahmoud_dev01/fluid/ClippingGradientDecoration.kt:100-101 | false at the last position, otherwise whether the next item's view type is the item's |
| `ClippingDecoration.CornerGrouping` | Fluid/src/main/java/io/github/mahmoud_dev01/fluid/ClippingGradientDecoration.kt:107-123 | the corners away from the grouped side are regular; the top corner on the grouped side is grouped iff the previous item has the same type, the bottom one iff the next item does |
| `ClippingDecoration.RadiusOf` | Fluid/src/main/java/io/github/mahmoud_dev01/fluid/ClippingGradientDecoration.kt:69-70 | a grouped corner gets the grouped radius, a regular one the regular radius |
| `ClippingDecoration.CornerRadii` | Fluid/src/main/java/io/github/mahmoud_dev01/fluid/ClippingGradientDecoration.kt:107-123 | every corner radius handed to the path is one of the style's two radii, chosen corner by corner |
| `ClippingDecoration.NeighboursAgreeOnSharedCorners` | Fluid/src/main/java/io/github/mahmoud_dev01/fluid/ClippingGradientDecoration.kt:98-123 | for neighbours i and i+1 the bottom grouped-side corner of i and the top grouped-side corner of i+1 are equal, grouped exactly when the types match, and then on the same side |
| `ClippingDecoration.RunEndsAreRegular` | Fluid/src/main/java/io/github/mahmoud_dev01/fluid/ClippingGradientDecoration.kt:98-123 | a maximal run of one type has a regular top at its first item, a regular bottom at its last, and grouped corners everywhere inside it |
| `ClippingDecoration.TopMarginGrouping` | Fluid/src/main/java/io/github/mahmoud_dev01/fluid/ClippingGradientDecoration.kt:164-167 | the top margin is grouped exactly when the previous item exists and has the same type as `onDraw`'s neighbour test says; never for position 0 |
| `ClippingDecoration.MarginAgreesWithTopCorner` | Fluid/src/main/java/io/github/mahmoud_dev01/fluid/ClippingGradientDecoration.kt:163-167 | the top margin is grouped exactly when the top corner on the item's grouped side is grouped |
| `ClippingDecoration.ItemOffsets` | Fluid/src/main/java/io/github/mahmoud_dev01/fluid/ClippingGradientDecoration.kt:147-168 | left, right and bottom are 0; no adapter, no holder, an untargeted type or NO_POSITION give the empty rect; otherwise top is the grouped margin iff position > 0 and the previous item has the type, else the regular margin |
| `ClippingDecoration.GetItemOffsets` | Fluid/src/main/java/io/github/mahmoud_dev01/fluid/ClippingGradientDecoration.kt:147-168 | writes exactly `ItemOffsets` into the caller's rectangle |
| `Geometry.MutableRect.SetEmpty` | Fluid/src/main/java/io/github/mahmoud_dev01/fluid/ClippingGradientDecoration.kt:153 | the rectangle becomes (0, 0, 0, 0) |
| `ClippingDecoration.AncestorsBelow` | Fluid/src/main/java/io/github/mahmoud_dev01/fluid/ClippingGradientDecoration.kt:179-185 | the ancestors summed are the longest prefix of the parent chain without the group, stopping right at the group when it occurs |
| `ClippingDecoration.RelativeTo` | Fluid/src/main/java/io/github/mahmoud_dev01/fluid/ClippingGradientDecoration.kt:177-187 | the result is the view's (left, top) plus the summed (left, top) of every ancestor strictly below the group |
| `ClippingDecoration.ClipFor` | Fluid/src/main/java/io/github/mahmoud_dev01/fluid/ClippingGradientDecoration.kt:81-140 | a child is drawn exactly when it has a holder of a targeted type with a position; the background covers the whole list, its radii come from the style, and it uses the primary drawable exactly for primary types |
| `ClippingDecoration.ClipForPlacement` | Fluid/src/main/java/io/github/mahmoud_dev01/fluid/ClippingGradientDecoration.kt:92-104 | the clip has the target's width and height, its left edge at the `relativeTo` x and its top edge at the `relativeTo` y plus `translationY` |
| `ClippingDecoration.ClipForCorners` | Fluid/src/main/java/io/github/mahmoud_dev01/fluid/ClippingGradientDecoration.kt:97-123 | on the grouped side the top radius is the grouped one when the previous item has the type, and the bottom radius when the next one does (else regular); the other side is regular; with the adapter's type the radii are those of `ShapeAt` |
| `ClippingDecoration.DrawOps` | Fluid/src/main/java/io/github/mahmoud_dev01/fluid/ClippingGradientDecoration.kt:76-142 | at most one operation per child, each over the whole list with radii from the style (which child each one belongs to: `DrawOpsPerDecoratedChild`) |
| `ClippingDecoration.DecoratedChildren` | Fluid/src/main/java/io/github/mahmoud_dev01/fluid/ClippingGradientDecoration.kt:80-90 | the children kept are exactly those with a holder of a targeted type at a known position |
| `ClippingDecoration.DecoratedChildrenStep` | Fluid/src/main/java/io/github/mahmoud_dev01/fluid/ClippingGradientDecoration.kt:80-90 | the decorated children keep the children's order: one more child is appended at the end when it is decorated, and changes nothing otherwise |
| `ClippingDecoration.DrawOpsPerDecoratedChild` | Fluid/src/main/java/io/github/mahmoud_dev01/fluid/ClippingGradientDecoration.kt:80-141 | one operation per decorated child, in order: the k-th operation is `ClipFor` of the k-th decorated child |
| `ClippingDecoration.DrawOpsStep` | Fluid/src/main/java/io/github/mahmoud_dev01/fluid/ClippingGradientDecoration.kt:80-141 | handling one more child appends that child's operation, if any, after those of the earlier children |
| `ClippingDecoration.OnDraw` | Fluid/src/main/java/io/github/mahmoud_dev01/fluid/ClippingGradientDecoration.kt:76-142 | without an adapter nothing is drawn; otherwise the loop over the children issues exactly `DrawOps` |
| `DataModels.DigitChar` | app/src/main/java/com/example/projectfluid/DataModels.kt:10 | the character of a decimal digit has that digit's value |
| `DataModels.DigitValue` | app/src/main/java/com/example/projectfluid/DataModels.kt:10 | a digit character's value is below 10 and renders back to the same character |
| `DataModels.DecimalString` | app/src/main/java/com/example/projectfluid/DataModels.kt:10 | the rendering of `$it` is a non-empty run of digits without a leading zero |
| `DataModels.ParseDecimalString` | app/src/main/java/com/example/projectfluid/DataModels.kt:10 | the number is read back unchanged from its rendering |
| `DataModels.SampleMessage` | app/src/main/java/com/example/projectfluid/DataModels.kt:7-14 | message i is mine iff i % 3 != 0; a reply reads "This is a reply."; a mine message is the fixed opening words, the number i, then the fixed closing words |
| `DataModels.SampleTexts` | app/src/main/java/com/example/projectfluid/DataModels.kt:5-16 | 20 messages; the i-th (from 1) is mine iff i % 3 != 0; replies read exactly "This is a reply."; each mine message contains its own number right after the fixed opening words |
| `DataModels.SampleReplyNumbers` | app/src/main/java/com/example/projectfluid/DataModels.kt:7-8 | exactly six messages are replies, numbers 3, 6, 9, 12, 15 and 18 |
| `DataModels.ItemViewType` | app/src/main/java/com/example/projectfluid/ChatAdapter.kt:42-44 | mine maps to the outgoing type 0, every other message to the incoming type 1 |
| `DataModels.ViewTypes` | app/src/main/java/com/example/projectfluid/ChatAdapter.kt:42-44 | the adapter's view type at each position is that of the message there |
| `DataModels.SampleViewTypes` | app/src/main/java/com/example/projectfluid/DataModels.kt:7-8 | the sample list's view types repeat outgoing, outgoing, incoming |
| `DataModels.ChatPatternBubbles` | Fluid/src/main/java/io/github/mahmoud_dev01/fluid/ClippingGradientDecoration.kt:98-167 | for any twenty-item list typed outgoing, outgoing, incoming, ... with outgoing primary: the corners and top margin of every position, as in `SampleChatBubbles` |
| `DataModels.SampleChatBubbles` | Fluid/src/main/java/io/github/mahmoud_dev01/fluid/ClippingGradientDecoration.kt:98-167 | over the sample chat each pair of outgoing messages is grouped on the right (shared corners grouped), replies have four regular corners, and only the second of each pair gets the grouped top margin |
| `DataModels.ChatPatternDrawn` | Fluid/src/main/java/io/github/mahmoud_dev01/fluid/ClippingGradientDecoration.kt:80-141 | over any list typed like the sample chat, the k-th clip-and-draw `onDraw` issues has the corner radii of `ChatShapeAt` at its child's position |
| `DataModels.SampleChatDrawn` | Fluid/src/main/java/io/github/mahmoud_dev01/fluid/ClippingGradientDecoration.kt:80-141 | over the sample chat, each clip-and-draw has the radii of its bubble's shape: pairs of outgoing messages grouped on the right, replies regular |

## Left out

- Rendering itself is not part of this model: `Canvas`, `Paint`, `Path`, clipping, `withSave`, the `Path.addRoundRect` helper and the shader objects are foreign graphics calls. A shader is a record of its parameters, a draw is the record of what `drawRoundRect` receives, and `onDraw` yields a list of clip-and-draw records.
- `invalidateSelf` is only counted (ghost field `invalidations`); what the host does with a redraw request is not modelled.
- `setAlpha`, `setColorFilter`, `getOpacity` and the alpha rounding at ClippingGradientDecoration.kt:138 are left out: paint plumbing and float rounding.
- The tile mode (always CLAMP) is not recorded in the shader.
- Floats are exact reals: single-precision rounding of centres, radii and translations is not modelled.
- `"#rrggbb".toColorInt()` is not parsed; each theme colour is written out as the Int the parse yields.
- `Drawable.setBounds`, which calls `onBoundsChange` only when the bounds change, is not part of this model; `OnBoundsChange` is modelled as called.
- `RelativeTo` returns a fresh point: that the source returns one shared static `Point`, overwritten by every call, is not modelled (its only caller copies it at once).
- The cast of the holder to `ClippingTargetViewHolder` (a failure if a targeted holder does not implement it) is not modelled: a child always carries its clipping target.
- The parent chain walked by `relativeTo` is given as the list of view ancestors; the chain ends where a parent is not a view.
- The cross-item lemmas take an item's view type from the adapter (`types[position]`), and the sample-chat drawing lemmas assume every holder reports the adapter's type at its position (`HoldersMatchAdapter`); `onDraw` and `getItemOffsets` themselves use the holder's type, as the source does.
- Adapter positions are assumed to be NO_POSITION or inside the adapter, as the list widget guarantees.
- The demo constructs the decoration with named single-type arguments (MainActivity.kt:77-81) that the set-based constructor does not accept; `ChatDecoration` uses the sets {0} and {1}.
- `dpToPx` and the inset listener in ViewUtils.kt, RevealingBackgroundLayout.kt, StaticBackgroundListLayout.kt, MaskingLayout.kt, the activities and adapters (beyond the view-type mapping) and the build script are not part of this model: view-toolkit wiring without decision logic.
