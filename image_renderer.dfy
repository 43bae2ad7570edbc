/**
 * The image renderer: one shape-group filled with the background colour (when
 * set) underneath the image, stroked like a view's uniform border when all
 * four edges agree, and left without any border when they do not.
 */
module ImageRenderer {
  import opened Wrappers
  import opened Styles
  import opened Shapes
  import ViewRenderer

  /**
   * `props.source`: a URL string, or an object whose optional `uri` names the
   * image. Any other non-string value without a `uri` behaves as
   * `SourceObject(None)`.
   */
  datatype ImageSource = SourceString(s: string) | SourceObject(uri: Option<string>)

  /**
   * The image's URL: the string itself, or the object's `uri`, which may be
   * missing; a URL is missing only for an object without one.
   */
  function ExtractURLFromSource(source: ImageSource): (r: Option<string>)
    ensures r.None? <==> source.SourceObject? && source.uri.None?
    ensures r.Some? ==> source == SourceString(r.value) || source == SourceObject(Some(r.value))
  {
    match source
    case SourceString(s) => Some(s)
    case SourceObject(uri) => uri
  }

  /** Both spellings of a source name the same image. */
  lemma SourceFormsAgree(url: string)
    ensures ExtractURLFromSource(SourceString(url)) == ExtractURLFromSource(SourceObject(Some(url)))
    ensures ExtractURLFromSource(SourceString(url)) == Some(url)
  {
  }

  /**
   * The fill list: the image fill, preceded by a colour fill of the raw
   * background string when that is present and non-empty.
   */
  function ImageFills(s: Style, url: Option<string>): (r: seq<Fill>)
    ensures |r| == (if Truthy(s.backgroundColor) then 2 else 1)
    ensures r[|r| - 1] == ImageFill(FillImage(url))
    ensures Truthy(s.backgroundColor) ==> r[0] == ColorFill(Css(s.backgroundColor.value))
    ensures forall i :: 0 <= i < |r| - 1 ==> r[i].ColorFill?
  {
    var image := [ImageFill(FillImage(url))];
    if Truthy(s.backgroundColor) then [ColorFill(Css(s.backgroundColor.value))] + image else image
  }

  /** The image's shape before any border: box frame, rounded rectangle, fills, shadow. */
  function ImageBase(layout: LayoutInfo, s: Style, n: Resolved, url: Option<string>): ShapeGroup {
    WithShadow(MakeShapeGroup(BoxFrame(layout), [BoxPath(layout, n)], Some(ImageFills(s, url))), s)
  }

  /** Specification of the image renderer's output list. */
  function BackingLayers(layout: LayoutInfo, s: Style, source: ImageSource): seq<ShapeGroup> {
    var n := Normalize(s);
    var base := ImageBase(layout, s, n, ExtractURLFromSource(source));
    if IsUniform(n) then [ViewRenderer.WithUniformBorder(base, n)] else [base]
  }

  /**
   * The renderer, written as the source writes it: image fill first, the
   * colour fill put in front of it, then the shadow, and in the uniform case
   * the pattern switch and the Inside border.
   */
  method RenderBackingLayers(layout: LayoutInfo, style: Style, source: ImageSource)
    returns (layers: seq<ShapeGroup>)
    ensures layers == BackingLayers(layout, style, source)
  {
    layers := [];
    var n := Normalize(style);
    // Built statement by statement, as the source does; the assertion after the
    // shadow proves the result equal to ImageBase.
    var fillImage := FillImage(ExtractURLFromSource(source));
    var frame := Rect(0.0, 0.0, layout.width, layout.height);
    var radii := [n.topLeftRadius, n.topRightRadius, n.bottomRightRadius, n.bottomLeftRadius];
    var shapeLayer := RoundedRect(0.0, 0.0, layout.width, layout.height, radii);
    var fills := [ImageFill(fillImage)];
    if Truthy(style.backgroundColor) {
      fills := [ColorFill(Css(style.backgroundColor.value))] + fills;
    }
    var content := MakeShapeGroup(frame, [shapeLayer], Some(fills));
    if HasAnyDefined(style, ShadowStyles) {
      content := content.(style := content.style.(shadows := Some([Shadow(style)])));
    }
    ghost var base := content;
    assert base == ImageBase(layout, style, n, ExtractURLFromSource(source));

    if && Same(n.topWidth, n.rightWidth, n.bottomWidth, n.leftWidth)
       && Same(n.topColor, n.rightColor, n.bottomColor, n.leftColor)
       && Same(n.topStyle, n.rightStyle, n.bottomStyle, n.leftStyle)
    {
      // 'solid' and every other style leave the pattern unset
      if n.topStyle == "dashed" {
        content := content.(style := content.style.(borderOptions := Some(DashedBorder(n.topWidth))));
      } else if n.topStyle == "dotted" {
        content := content.(style := content.style.(borderOptions := Some(DottedBorder(n.topWidth))));
      }
      assert content == ViewRenderer.WithPattern(base, ViewRenderer.FindBorderStyle(n.topStyle, n.topWidth));
      content := content.(style := content.style.(borders := Some([MakeBorder(n.topColor, Inside, n.topWidth)])));
      layers := layers + [content];
    } else {
      layers := layers + [content];
    }
  }

  // ---------------------------------------------------------------------------
  // Properties of the output list
  // ---------------------------------------------------------------------------

  /**
   * Whatever the style, an image yields exactly one shape-group: the box's
   * frame, one rounded rectangle with the radii in [TL, TR, BR, BL] order,
   * the fills in the order colour then image, a shadow exactly when one of the
   * four shadow fields is present, and never a clipping mask.
   */
  lemma SingleLayer(layout: LayoutInfo, s: Style, source: ImageSource)
    ensures var r := BackingLayers(layout, s, source);
      var n := Normalize(s);
      var image := ImageFill(FillImage(ExtractURLFromSource(source)));
      && |r| == 1
      && r[0].frame == Rect(0.0, 0.0, layout.width, layout.height)
      && r[0].layers == [RoundedRect(0.0, 0.0, layout.width, layout.height,
                                     [n.Radius(TopLeft), n.Radius(TopRight), n.Radius(BottomRight), n.Radius(BottomLeft)])]
      && r[0].style.fills == Some(if Truthy(s.backgroundColor)
                                  then [ColorFill(Css(s.backgroundColor.value)), image]
                                  else [image])
      && (r[0].style.shadows.Some? <==>
            s.shadowColor.Some? || s.shadowOffset.Some? || s.shadowOpacity.Some? || s.shadowRadius.Some?)
      && (r[0].style.shadows.Some? ==> r[0].style.shadows == Some([Shadow(s)]))
      && !r[0].hasClippingMask && r[0].name.None?
  {
    ShadowTrigger(s);
    var n := Normalize(s);
    var base := ImageBase(layout, s, n, ExtractURLFromSource(source));
    assert base.style.fills == Some(ImageFills(s, ExtractURLFromSource(source)));
    assert n.Radii() == [n.Radius(TopLeft), n.Radius(TopRight), n.Radius(BottomRight), n.Radius(BottomLeft)];
    var image := ImageFill(FillImage(ExtractURLFromSource(source)));
    if Truthy(s.backgroundColor) {
      assert ImageFills(s, ExtractURLFromSource(source)) == [ColorFill(Css(s.backgroundColor.value)), image];
    }
  }

  /**
   * Uniform border: one enabled Inside border of the top edge's width and
   * colour, with the dash/dot pattern exactly when the common style is
   * dashed or dotted.
   */
  lemma UniformCase(layout: LayoutInfo, s: Style, source: ImageSource)
    requires IsUniform(Normalize(s))
    ensures var r := BackingLayers(layout, s, source);
      var n := Normalize(s);
      && r[0].style.borders == Some([Border(true, ColorFromCSS(n.topColor), 0, Inside, n.topWidth)])
      && r[0].style.borderOptions == ViewRenderer.FindBorderStyle(n.topStyle, n.topWidth)
      && (r[0].style.borderOptions.Some? <==> n.topStyle == "dashed" || n.topStyle == "dotted")
  {
  }

  /** Non-uniform border: the edges are not drawn at all, neither as a stroke nor as strips. */
  lemma NonUniformCase(layout: LayoutInfo, s: Style, source: ImageSource)
    requires !IsUniform(Normalize(s))
    ensures var r := BackingLayers(layout, s, source);
      && r == [ImageBase(layout, s, Normalize(s), ExtractURLFromSource(source))]
      && r[0].style.borders.None? && r[0].style.borderOptions.None?
  {
  }

  /** An image without any style key: just the image, with a 0-wide black Inside border. */
  lemma EmptyStyleExample(layout: LayoutInfo, url: string)
    ensures BackingLayers(layout, EmptyStyle, SourceString(url)) ==
      [ShapeGroup(Rect(0.0, 0.0, layout.width, layout.height),
                  [RoundedRect(0.0, 0.0, layout.width, layout.height, [0.0, 0.0, 0.0, 0.0])],
                  LayerStyle(Some([ImageFill(FillImage(Some(url)))]),
                             Some([Border(true, ColorFromCSS("#000"), 0, Inside, 0.0)]), None, None),
                  false, None)]
  {
    NormalizeEmpty();
    assert !HasAnyDefined(EmptyStyle, ShadowStyles) by {
      ShadowTrigger(EmptyStyle);
    }
  }

  // ---------------------------------------------------------------------------
  // The image renderer against the view renderer
  // ---------------------------------------------------------------------------

  /**
   * For a visible style with a uniform border, the image's shape is the
   * view's shape with the image fill list in place of the view's single
   * colour fill; everything else (frame, path, shadow, stroke, pattern) agrees.
   */
  lemma UniformMatchesView(layout: LayoutInfo, s: Style, source: ImageSource)
    requires HasAnyDefined(s, VisibleStyles) && IsUniform(Normalize(s))
    ensures var v := ViewRenderer.BackingLayers(layout, s);
      var r := BackingLayers(layout, s, source);
      && |v| == |r| == 1
      && r[0] == v[0].(style := v[0].style.(fills := Some(ImageFills(s, ExtractURLFromSource(source)))))
  {
  }

  /**
   * For a visible non-uniform style with at least one edge of positive width,
   * the view draws more shape-groups than the image, which draws exactly one.
   */
  lemma NonUniformDrawsFewerThanView(layout: LayoutInfo, s: Style, source: ImageSource, e: Edge)
    requires HasAnyDefined(s, VisibleStyles) && !IsUniform(Normalize(s))
    requires Normalize(s).Width(e) > 0.0
    ensures |BackingLayers(layout, s, source)| == 1 < |ViewRenderer.BackingLayers(layout, s)|
  {
    ViewRenderer.NonUniformCase(layout, s);
    ViewRenderer.LiveEdgesOfOrder(Normalize(s));
    assert e in ViewRenderer.LiveEdges(Normalize(s), EdgeOrder);
  }
}
