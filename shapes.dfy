/**
 * The output records of the renderers: frames, paths, fills, borders and
 * shape-groups. The builders whose code is not part of this model
 * (makeRect, makeRectShapeLayer, makeShapePath, makeHorizontalPath,
 * makeVerticalPath, makeShapeGroup, makeColorFill, makeColorFromCSS,
 * makeImageFill, makeFillImage, makeDashedBorder, makeDottedBorder,
 * makeShadow) appear as constructors that carry their arguments.
 */
module Shapes {
  import opened Wrappers
  import opened Styles

  /** The element's resolved box; its position is handled by an enclosing group. */
  datatype LayoutInfo = LayoutInfo(width: real, height: real)

  /** makeRect(x, y, width, height). */
  datatype Rect = Rect(x: real, y: real, width: real, height: real)

  /** makeHorizontalPath() and makeVerticalPath(). */
  datatype LinePath = HorizontalPath | VerticalPath

  /** A path of a shape-group. */
  datatype Path =
    /** makeRectShapeLayer(x, y, width, height, radii) */
    | RoundedRect(x: real, y: real, width: real, height: real, radii: seq<real>)
    /** makeShapePath(frame, line) */
    | ShapePath(frame: Rect, line: LinePath)

  /** makeColorFromCSS(css): a colour converted from the raw CSS string. */
  datatype Color = ColorFromCSS(css: string)

  /** The argument of makeColorFill: a raw CSS string, or convertToColor('transparent'). */
  datatype FillColor = Css(css: string) | Transparent

  /**
   * makeFillImage(image) for the image loaded from `url`. The generated
   * identifier, the encoded bytes and the checksum are not modelled.
   */
  datatype FillImage = FillImage(url: Option<string>)

  /** makeColorFill(color) and makeImageFill(image). */
  datatype Fill = ColorFill(color: FillColor) | ImageFill(image: FillImage)

  /** Where a border is stroked relative to its path. */
  datatype BorderPosition = Center | Inside | Outside

  /** One entry of `style.borders`. */
  datatype Border = Border(isEnabled: bool, color: Color, fillType: int, position: BorderPosition, thickness: real)

  /** makeDashedBorder(width) and makeDottedBorder(width). */
  datatype BorderOptions = DashedBorder(width: real) | DottedBorder(width: real)

  /** makeShadow(style). */
  datatype Shadow = Shadow(style: Style)

  /** A shape-group's style block; `None` is a field that was never assigned. */
  datatype LayerStyle = LayerStyle(
    fills: Option<seq<Fill>>,
    borders: Option<seq<Border>>,
    borderOptions: Option<BorderOptions>,
    shadows: Option<seq<Shadow>>)

  /** One shape-group node of the output list. */
  datatype ShapeGroup = ShapeGroup(
    frame: Rect,
    layers: seq<Path>,
    style: LayerStyle,
    hasClippingMask: bool,
    name: Option<string>)

  /**
   * makeShapeGroup(frame, layers, fills): a shape-group with the given frame,
   * paths and fills (`None` when the caller passes none), no border, no
   * pattern, no shadow, no clipping mask and no name of its own.
   */
  function MakeShapeGroup(frame: Rect, layers: seq<Path>, fills: Option<seq<Fill>>): ShapeGroup {
    ShapeGroup(frame, layers, LayerStyle(fills, None, None, None), false, None)
  }

  /** A border record as both renderers write it: enabled, fill type 0. */
  function MakeBorder(css: string, position: BorderPosition, thickness: real): Border {
    Border(true, ColorFromCSS(css), 0, position, thickness)
  }

  /** The frame {0, 0, width, height} of an element's box. */
  function BoxFrame(layout: LayoutInfo): Rect {
    Rect(0.0, 0.0, layout.width, layout.height)
  }

  /** The rounded rectangle covering the element's box with the resolved corner radii. */
  function BoxPath(layout: LayoutInfo, n: Resolved): Path {
    RoundedRect(0.0, 0.0, layout.width, layout.height, n.Radii())
  }

  /** Assigns `style.shadows = [makeShadow(style)]` when a shadow key is present. */
  function WithShadow(content: ShapeGroup, s: Style): (r: ShapeGroup)
    ensures r.frame == content.frame && r.layers == content.layers
    ensures r.hasClippingMask == content.hasClippingMask && r.name == content.name
    ensures r.style.fills == content.style.fills && r.style.borders == content.style.borders
    ensures r.style.borderOptions == content.style.borderOptions
    ensures r.style.shadows == (if HasAnyDefined(s, ShadowStyles) then Some([Shadow(s)]) else content.style.shadows)
  {
    if HasAnyDefined(s, ShadowStyles) then content.(style := content.style.(shadows := Some([Shadow(s)])))
    else content
  }
}
