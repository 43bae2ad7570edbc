# Border decomposition of the view and image renderers

This project models how the JSON renderers of a React-to-Sketch bridge turn
an element's resolved box and style into Sketch shape-groups:

- `ViewRenderer.renderBackingLayers` draws nothing when the style sets no
  visible key. Otherwise it draws a base shape: a rounded rectangle with one
  fill, the background colour or transparent when that is absent or empty,
  and a shadow when one of the four shadow keys is set. When the four edges agree in
  width, colour and style, the border is one Inside stroke on that shape.
  When they do not, the base shape becomes a clipping mask. One centred strip
  per positive-width edge follows it, in the order top, right, bottom, left.
- `ImageRenderer.renderBackingLayers` always draws exactly one shape. Its
  fills are the image alone, or a colour fill of the background followed by
  the image when the background is present and not empty. The shadow follows
  the same rule as a view's. It gets the same uniform
  stroke as a view. When the edges differ it gets no border at all.

Modules:

- `Wrappers`: `Option`. `None` stands for a key that is absent, the
  JavaScript `undefined`.
- `Styles`: the style record, its keys, `hasAnyDefined`, the
  visible-key and shadow-key lists, the defaulting step (`Normalize`) and
  the uniformity rule.
- `Shapes`: the output records. Builders whose code is not part of this
  model (`makeRect`, `makeShapeGroup`, `makeColorFill`, …) appear as
  constructors that carry their arguments.
- `ViewRenderer` and `ImageRenderer`: each renderer as a `method`
  written the way the source writes it. The method grows a list with pushes
  and updates records field by field. Each method is proved equal to a pure
  specification function `BackingLayers`, and the lemmas state what that
  output looks like.

Each output record is freshly built and pushed after its last change, so
modelling the records as values loses nothing of the source's mutation.

The four edge blocks of the view's non-uniform branch are identical except
for the edge. The model writes them once, as `PushEdgeStrip`, called for the
four edges in the source's order. Their specification is a separate
definition, `StripsOf(LiveEdges(...))`: the edge strips of the
positive-width edges, filtered in order.

## Model

| member | source | states |
|---|---|---|
| Styles.HasAnyDefined | src/jsonRenderers/ViewRenderer.js:17 | true exactly when some key of the list is present in the style |
| Styles.ShadowTrigger | src/jsonRenderers/ViewRenderer.js:49 | the shadow keys are present exactly when one of shadowColor, shadowOffset, shadowOpacity, shadowRadius is set |
| Styles.VisibleStylesExcludeRadii | src/jsonRenderers/ViewRenderer.js:26-47 | none of the twenty visible keys is a corner radius |
| Styles.Normalize | src/jsonRenderers/ViewRenderer.js:129-149 | every edge width and corner radius is the given value or 0, every colour the given value or '#000', every style the given value or 'solid' |
| Styles.NormalizeExplicit | src/jsonRenderers/ViewRenderer.js:129-149 | defaulting keeps every value that was given: a fully written record resolves to itself |
| Styles.NormalizeEmpty | src/jsonRenderers/ViewRenderer.js:20-22 | an empty style resolves to width 0, colour '#000', style 'solid' and radius 0 on every edge and corner |
| Styles.UniformMeansAllEdgesAgree | src/jsonRenderers/ViewRenderer.js:173-177 | the three `same` tests hold exactly when every edge has the top edge's width, colour and style |
| Shapes.WithShadow | src/jsonRenderers/ViewRenderer.js:169-171 | the shadow list becomes exactly [makeShadow(style)] when a shadow key is present and is left as it was otherwise; nothing else changes |
| Styles.Resolved.Radii | src/jsonRenderers/ViewRenderer.js:158-163 | the radii array has four entries, the corner radii in the order top-left, top-right, bottom-right, bottom-left |
| Styles.Same | src/jsonRenderers/ViewRenderer.js:18 | `same(a, b, c, d)`: all four values are equal |
| Styles.IsUniform | src/jsonRenderers/ViewRenderer.js:173-177 | the decision rule: the four widths, colours and styles are each all equal after defaulting |
| ViewRenderer.DefaultGroupName | src/jsonRenderers/ViewRenderer.js:116-118 | a view's group is named 'View' |
| ViewRenderer.BackingLayers | src/jsonRenderers/ViewRenderer.js:119-273 | the specification of the view's output list, about which the lemmas below are stated |
| ImageRenderer.BackingLayers | src/jsonRenderers/ImageRenderer.js:59-161 | the specification of the image's output list, about which the lemmas below are stated |
| ViewRenderer.FindBorderStyle | src/jsonRenderers/ViewRenderer.js:99-113 | 'dashed' gives the dashed descriptor of the width, 'dotted' the dotted one, and every other string gives none (each direction) |
| ViewRenderer.MakeVerticalBorder | src/jsonRenderers/ViewRenderer.js:51-73 | frame (x, y, thickness, length), one vertical path in a (0, 0, thickness, length) frame, one enabled Centre border of the colour and thickness, and nothing else set |
| ViewRenderer.MakeHorizontalBorder | src/jsonRenderers/ViewRenderer.js:75-97 | frame (x, y, length, thickness), one horizontal path in a (0, 0, length, thickness) frame, one enabled Centre border of the colour and thickness, and nothing else set |
| ViewRenderer.VerticalIsTransposedHorizontal | src/jsonRenderers/ViewRenderer.js:51-97 | the two strip builders are mirror images: the same style, and the frame with its axes swapped |
| ViewRenderer.EdgeStrip | src/jsonRenderers/ViewRenderer.js:204-267 | each strip lies flush with its own side, spans that whole side and is as thick as its edge; it is named for its side and carries that edge's colour, width and pattern; it has no fill, no shadow and no clip |
| ViewRenderer.LiveEdges | src/jsonRenderers/ViewRenderer.js:204-252 | exactly the edges of positive width are kept, and no more than were given |
| ViewRenderer.LiveEdgesIncreasing | src/jsonRenderers/ViewRenderer.js:204-252 | the filter keeps the order of the edges |
| ViewRenderer.StripsAreLiveEdgeStrips | src/jsonRenderers/ViewRenderer.js:204-268 | the four conditional pushes produce exactly the strips of the positive-width edges, one each, in order |
| ViewRenderer.PushEdgeStrip | src/jsonRenderers/ViewRenderer.js:204-214 | one edge's block appends that edge's strip when its width is positive and appends nothing otherwise |
| ViewRenderer.RenderBackingLayers | src/jsonRenderers/ViewRenderer.js:119-273 | the renderer's output list is the specification's |
| ViewRenderer.EmptyIffInvisible | src/jsonRenderers/ViewRenderer.js:151-153 | the output is empty exactly when no visible key is present |
| ViewRenderer.RadiiOnlyStyleIsEmpty | src/jsonRenderers/ViewRenderer.js:26-47 | a style that sets only corner radii draws nothing |
| ViewRenderer.BaseLayer | src/jsonRenderers/ViewRenderer.js:155-171 | the first layer has the box frame, the rounded rectangle with radii [TL, TR, BR, BL], exactly one fill (the background colour, or transparent when it is absent or empty), a shadow exactly when a shadow key is set, and no name |
| ViewRenderer.UniformCase | src/jsonRenderers/ViewRenderer.js:173-199 | one layer, with one enabled Inside border of the top edge's colour and width; the pattern is present exactly for 'dashed' or 'dotted'; no clip |
| ViewRenderer.NonUniformCase | src/jsonRenderers/ViewRenderer.js:200-268 | the clipped base with no border and no pattern comes first, followed by one strip per positive-width edge in the order top, right, bottom, left |
| ViewRenderer.LiveEdgesOfOrder | src/jsonRenderers/ViewRenderer.js:204-252 | the strip edges are the positive-width edges, strictly in the order top, right, bottom, left, and as many as there are such edges |
| ViewRenderer.IncreasingCard | src/jsonRenderers/ViewRenderer.js:204-252 | an ordered edge list has no repeats |
| ViewRenderer.StripCount | src/jsonRenderers/ViewRenderer.js:200-268 | a non-uniform view has one layer more than it has positive-width edges |
| ViewRenderer.TopBorderOnlyExample | src/jsonRenderers/ViewRenderer.js:200-214 | a 100×50 box with only borderTopWidth 3 gives the clipped base plus one 'Border (top)' strip at (0, 0, 100, 3) with a 3-wide '#000' Centre border |
| ViewRenderer.ShorthandOnlyExample | src/jsonRenderers/ViewRenderer.js:129-149 | the shorthand keys borderWidth, borderColor and borderStyle are not expanded: the single shape gets the defaulted 0-wide '#000' Inside border |
| ImageRenderer.ExtractURLFromSource | src/jsonRenderers/ImageRenderer.js:34-39 | the URL is missing exactly for an object without `uri`; a URL that is found is the string itself or the object's `uri` |
| ImageRenderer.SourceFormsAgree | src/jsonRenderers/ImageRenderer.js:34-39 | a URL string and an object with that `uri` name the same image |
| ImageRenderer.ImageFills | src/jsonRenderers/ImageRenderer.js:108-112 | the image fill comes last; it is preceded by exactly one colour fill of the raw background string when that string is present and not empty |
| ImageRenderer.RenderBackingLayers | src/jsonRenderers/ImageRenderer.js:59-161 | the renderer's output list is the specification's |
| ImageRenderer.SingleLayer | src/jsonRenderers/ImageRenderer.js:99-118 | whatever the style, exactly one layer: box frame, rounded rectangle with radii [TL, TR, BR, BL], fills colour then image, a shadow exactly when a shadow key is set, no clip |
| ImageRenderer.UniformCase | src/jsonRenderers/ImageRenderer.js:120-156 | the uniform stroke is one enabled Inside border of the top colour and width; the pattern is present exactly for 'dashed' or 'dotted' |
| ImageRenderer.NonUniformCase | src/jsonRenderers/ImageRenderer.js:157-159 | differing edges leave the image without any border or pattern: the base shape alone |
| ImageRenderer.EmptyStyleExample | src/jsonRenderers/ImageRenderer.js:69-156 | with no style key the output is just the image shape, with a 0-wide '#000' Inside border |
| ImageRenderer.UniformMatchesView | src/jsonRenderers/ImageRenderer.js:120-156 | for a visible uniform style, the image's shape is the view's shape with the image's fill list in place of the view's single fill |
| ImageRenderer.NonUniformDrawsFewerThanView | src/jsonRenderers/ImageRenderer.js:157-159 | for a visible non-uniform style with a positive-width edge, the image draws exactly one layer and the view draws more |

## Left out

- The Cocoa image loading (`NSImage`, `NSURL`, `MSImageData`), `generateID`
  and the base64 data and checksum of `makeFillImage` are foreign calls. The
  image fill carries only the extracted URL.
- The internals of the record builders (`makeRect`, `makeShapePath`,
  `makeRectShapeLayer`, `makeShapeGroup`, `makeColorFill`,
  `makeColorFromCSS`, `makeDashedBorder`, `makeDottedBorder`, `makeShadow`)
  are not part of this model. They are constructors here. `makeShapeGroup`
  is assumed to leave borders, pattern, shadow and name unset and the clip
  flag false. `makeShadow` carries the whole style.
- Colour conversion (`convertToColor('transparent')`) is the constant
  `Transparent`. CSS strings are kept raw.
- The `SketchRenderer` base class, the tree traversal, transforms and
  `textStyle`/`value` are not part of this model.
  `getDefaultGroupName` is the constant `DefaultGroupName`.
- The commented-out legacy drawing code at the end of `ImageRenderer.js`
  and the unused `PatternFillType` table are not modelled.
- A style value of `null`, and values of the wrong JavaScript type (a string
  width, a numeric style), are not representable. Destructuring defaults
  apply only to `undefined`, so a `null` would pass through undefaulted.
  Widths and radii are mathematical reals, and floating point is not modelled.
- The `!== undefined` guards of the uniform branches are always true after
  defaulting, so the model has no branch for them.
- ExtractURLFromSource: a `null` or `undefined` `props.source` makes the
  source throw when it reads `.uri`. That input is not representable in
  `ImageSource`.
- The source of `hasAnyDefined` and `same` is not part of this model. They
  are modelled as "some key is not `undefined`" and "all four values are
  strictly equal".
- A caller may expand the shorthand keys `borderWidth`, `borderColor` and
  `borderStyle` onto the four edges. This code reads only the per-edge keys,
  and the model follows the code (see
  `ShorthandOnlyExample`): the shorthand keys only make a view visible.
