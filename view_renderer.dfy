/**
 * The view renderer: decides whether an element's border can be drawn as one
 * stroke on its rounded rectangle (uniform) or must be split into a clipped
 * base shape plus one rectangular strip per visible edge (non-uniform).
 *
 * `BackingLayers` is the specification, `RenderBackingLayers` the renderer
 * proper, written as the source writes it (a list grown by pushes and records
 * updated field by field); the lemmas state what the output looks like.
 */
module ViewRenderer {
  import opened Wrappers
  import opened Styles
  import opened Shapes

  /** The name given to a view's enclosing group (getDefaultGroupName). */
  const DefaultGroupName: string := "View"

  /**
   * The dash/dot pattern for a border style: dashed and dotted get their
   * descriptor for `width`, 'solid' and every other string get none.
   */
  function FindBorderStyle(style: string, width: real): (r: Option<BorderOptions>)
    ensures r == Some(DashedBorder(width)) <==> style == "dashed"
    ensures r == Some(DottedBorder(width)) <==> style == "dotted"
    ensures r.None? <==> style != "dashed" && style != "dotted"
  {
    if style == "dashed" then Some(DashedBorder(width))
    else if style == "dotted" then Some(DottedBorder(width))
    else None
  }

  /** A vertical strip: frame (x, y, thickness, length), stroked along its centre. */
  function MakeVerticalBorder(x: real, y: real, length: real, thickness: real, color: string): (r: ShapeGroup)
    ensures r.frame == Rect(x, y, thickness, length)
    ensures r.layers == [ShapePath(Rect(0.0, 0.0, thickness, length), VerticalPath)]
    ensures r.style.borders == Some([MakeBorder(color, Center, thickness)])
    ensures r.style.fills.None? && r.style.borderOptions.None? && r.style.shadows.None?
    ensures !r.hasClippingMask && r.name.None?
  {
    var frame := Rect(x, y, thickness, length);
    var shapeFrame := Rect(0.0, 0.0, thickness, length);
    var content := MakeShapeGroup(frame, [ShapePath(shapeFrame, VerticalPath)], None);
    content.(style := content.style.(borders := Some([MakeBorder(color, Center, thickness)])))
  }

  /** A horizontal strip: frame (x, y, length, thickness), stroked along its centre. */
  function MakeHorizontalBorder(x: real, y: real, length: real, thickness: real, color: string): (r: ShapeGroup)
    ensures r.frame == Rect(x, y, length, thickness)
    ensures r.layers == [ShapePath(Rect(0.0, 0.0, length, thickness), HorizontalPath)]
    ensures r.style.borders == Some([MakeBorder(color, Center, thickness)])
    ensures r.style.fills.None? && r.style.borderOptions.None? && r.style.shadows.None?
    ensures !r.hasClippingMask && r.name.None?
  {
    var frame := Rect(x, y, length, thickness);
    var shapeFrame := Rect(0.0, 0.0, length, thickness);
    var content := MakeShapeGroup(frame, [ShapePath(shapeFrame, HorizontalPath)], None);
    content.(style := content.style.(borders := Some([MakeBorder(color, Center, thickness)])))
  }

  /** The two strip builders are mirror images: swapping the axes turns one into the other. */
  lemma VerticalIsTransposedHorizontal(x: real, y: real, length: real, thickness: real, color: string)
    ensures var v := MakeVerticalBorder(x, y, length, thickness, color);
      var h := MakeHorizontalBorder(y, x, length, thickness, color);
      && v.frame == Rect(h.frame.y, h.frame.x, h.frame.height, h.frame.width)
      && v.style == h.style
  {
  }

  /** The display name of an edge's strip. */
  function StripName(e: Edge): string {
    match e
    case Top => "Border (top)"
    case Right => "Border (right)"
    case Bottom => "Border (bottom)"
    case Left => "Border (left)"
  }

  /** Sets `style.borderOptions` when a pattern exists, as the renderer does. */
  function WithPattern(g: ShapeGroup, pattern: Option<BorderOptions>): ShapeGroup {
    if pattern.Some? then g.(style := g.style.(borderOptions := pattern)) else g
  }

  /**
   * The strip drawn for edge `e` in the non-uniform case: a rectangle lying
   * along its own side of the box, spanning that whole side and as thick as
   * the edge, named for the side, carrying one centred border of the edge's
   * width and colour and the edge's dash/dot pattern.
   */
  function EdgeStrip(layout: LayoutInfo, n: Resolved, e: Edge): (r: ShapeGroup)
    ensures r.name == Some(StripName(e))
    ensures r.style.borders == Some([MakeBorder(n.Color(e), Center, n.Width(e))])
    ensures r.style.borderOptions == FindBorderStyle(n.StyleOf(e), n.Width(e))
    ensures r.style.fills.None? && r.style.shadows.None? && !r.hasClippingMask
    ensures e.Top? || e.Bottom? ==>
      r.frame.x == 0.0 && r.frame.width == layout.width && r.frame.height == n.Width(e)
    ensures e.Left? || e.Right? ==>
      r.frame.y == 0.0 && r.frame.height == layout.height && r.frame.width == n.Width(e)
    ensures e.Top? ==> r.frame.y == 0.0
    ensures e.Bottom? ==> r.frame.y + r.frame.height == layout.height
    ensures e.Left? ==> r.frame.x == 0.0
    ensures e.Right? ==> r.frame.x + r.frame.width == layout.width
    ensures r.layers == [ShapePath(Rect(0.0, 0.0, r.frame.width, r.frame.height),
                                   if e.Top? || e.Bottom? then HorizontalPath else VerticalPath)]
  {
    var strip := match e
      case Top => MakeHorizontalBorder(0.0, 0.0, layout.width, n.topWidth, n.topColor)
      case Right => MakeVerticalBorder(layout.width - n.rightWidth, 0.0, layout.height, n.rightWidth, n.rightColor)
      case Bottom => MakeHorizontalBorder(0.0, layout.height - n.bottomWidth, layout.width, n.bottomWidth, n.bottomColor)
      case Left => MakeVerticalBorder(0.0, 0.0, layout.height, n.leftWidth, n.leftColor);
    WithPattern(strip.(name := Some(StripName(e))), FindBorderStyle(n.StyleOf(e), n.Width(e)))
  }

  /** Edge ordinals strictly increase along `es`. */
  predicate Increasing(es: seq<Edge>) {
    forall i, j :: 0 <= i < j < |es| ==> Ordinal(es[i]) < Ordinal(es[j])
  }

  /** The edges of `es` that have a positive width, in the order of `es`. */
  function LiveEdges(n: Resolved, es: seq<Edge>): (r: seq<Edge>)
    ensures forall e :: e in r <==> e in es && n.Width(e) > 0.0
    ensures |r| <= |es|
  {
    if es == [] then []
    else
      var rest := LiveEdges(n, es[1..]);
      assert forall e :: e in es <==> e == es[0] || e in es[1..];
      if n.Width(es[0]) > 0.0 then [es[0]] + rest else rest
  }

  lemma IncreasingTail(es: seq<Edge>)
    requires es != [] && Increasing(es)
    ensures Increasing(es[1..])
  {
    var rest := es[1..];
    forall i, j | 0 <= i < j < |rest| ensures Ordinal(rest[i]) < Ordinal(rest[j]) {
      assert rest[i] == es[i + 1] && rest[j] == es[j + 1];
    }
  }

  lemma IncreasingCons(x: Edge, es: seq<Edge>)
    requires Increasing(es) && forall e :: e in es ==> Ordinal(x) < Ordinal(e)
    ensures Increasing([x] + es)
  {
    var r := [x] + es;
    forall i, j | 0 <= i < j < |r| ensures Ordinal(r[i]) < Ordinal(r[j]) {
      assert r[j] == es[j - 1];
      if i > 0 {
        assert r[i] == es[i - 1];
      }
    }
  }

  /** Filtering keeps the order: the live edges of an increasing list are increasing. */
  lemma {:induction false} LiveEdgesIncreasing(n: Resolved, es: seq<Edge>)
    requires Increasing(es)
    ensures Increasing(LiveEdges(n, es))
  {
    if es != [] {
      var rest := es[1..];
      IncreasingTail(es);
      LiveEdgesIncreasing(n, rest);
      var live := LiveEdges(n, rest);
      if n.Width(es[0]) > 0.0 {
        forall e | e in live ensures Ordinal(es[0]) < Ordinal(e) {
          var k :| 0 <= k < |rest| && rest[k] == e;
          assert es[k + 1] == e;
        }
        IncreasingCons(es[0], live);
      }
    }
  }

  /** One strip per edge of `es`, in order. */
  function StripsOf(layout: LayoutInfo, n: Resolved, es: seq<Edge>): (r: seq<ShapeGroup>)
    ensures |r| == |es|
    ensures forall i :: 0 <= i < |es| ==> r[i] == EdgeStrip(layout, n, es[i])
  {
    seq(|es|, i requires 0 <= i < |es| => EdgeStrip(layout, n, es[i]))
  }

  /** The base shape: the box's rounded rectangle filled with the background colour, with the shadow. */
  function ViewBase(layout: LayoutInfo, s: Style, n: Resolved): ShapeGroup {
    var background := if Truthy(s.backgroundColor) then Css(s.backgroundColor.value) else Transparent;
    WithShadow(MakeShapeGroup(BoxFrame(layout), [BoxPath(layout, n)], Some([ColorFill(background)])), s)
  }

  /** The uniform case's single stroke: an Inside border of the top edge's width and colour. */
  function WithUniformBorder(content: ShapeGroup, n: Resolved): ShapeGroup {
    var patterned := WithPattern(content, FindBorderStyle(n.topStyle, n.topWidth));
    patterned.(style := patterned.style.(borders := Some([MakeBorder(n.topColor, Inside, n.topWidth)])))
  }

  /** Specification of the view renderer's output list. */
  function BackingLayers(layout: LayoutInfo, s: Style): seq<ShapeGroup> {
    if !HasAnyDefined(s, VisibleStyles) then []
    else
      var n := Normalize(s);
      var base := ViewBase(layout, s, n);
      if IsUniform(n) then [WithUniformBorder(base, n)]
      else [base.(hasClippingMask := true)] + Strips(layout, n, EdgeOrder)
  }

  /** The strip of edge `e` when its width is positive, else nothing. */
  function StripIfLive(layout: LayoutInfo, n: Resolved, e: Edge): seq<ShapeGroup> {
    if n.Width(e) > 0.0 then [EdgeStrip(layout, n, e)] else []
  }

  /** The strips of the positive-width edges of `es`, in the order of `es`. */
  function Strips(layout: LayoutInfo, n: Resolved, es: seq<Edge>): seq<ShapeGroup> {
    if es == [] then [] else StripIfLive(layout, n, es[0]) + Strips(layout, n, es[1..])
  }

  /** Strips over the fixed edge order, spelled out edge by edge. */
  lemma StripsUnrolled(layout: LayoutInfo, n: Resolved)
    ensures Strips(layout, n, EdgeOrder) ==
      StripIfLive(layout, n, Top) + StripIfLive(layout, n, Right)
      + StripIfLive(layout, n, Bottom) + StripIfLive(layout, n, Left)
  {
    assert Strips(layout, n, [Left]) == StripIfLive(layout, n, Left) by {
      assert [Left][1..] == [];
    }
    assert Strips(layout, n, [Bottom, Left]) == StripIfLive(layout, n, Bottom) + StripIfLive(layout, n, Left) by {
      assert [Bottom, Left][1..] == [Left];
    }
    assert Strips(layout, n, [Right, Bottom, Left]) ==
      StripIfLive(layout, n, Right) + StripIfLive(layout, n, Bottom) + StripIfLive(layout, n, Left) by {
      assert [Right, Bottom, Left][1..] == [Bottom, Left];
    }
    assert EdgeOrder[1..] == [Right, Bottom, Left];
  }

  lemma StripsOfCons(layout: LayoutInfo, n: Resolved, e: Edge, es: seq<Edge>)
    ensures StripsOf(layout, n, [e] + es) == [EdgeStrip(layout, n, e)] + StripsOf(layout, n, es)
  {
    var es' := [e] + es;
    assert forall i :: 1 <= i < |es'| ==> es'[i] == es[i - 1];
  }

  /** The strips are the edge strips of exactly the live edges, one each, in order. */
  lemma {:induction false} StripsAreLiveEdgeStrips(layout: LayoutInfo, n: Resolved, es: seq<Edge>)
    ensures Strips(layout, n, es) == StripsOf(layout, n, LiveEdges(n, es))
  {
    if es != [] {
      var live := LiveEdges(n, es[1..]);
      StripsAreLiveEdgeStrips(layout, n, es[1..]);
      assert Strips(layout, n, es) == StripIfLive(layout, n, es[0]) + StripsOf(layout, n, live);
      if n.Width(es[0]) > 0.0 {
        assert LiveEdges(n, es) == [es[0]] + live;
        StripsOfCons(layout, n, es[0], live);
      } else {
        assert LiveEdges(n, es) == live;
      }
    }
  }

  /** BackingLayers of a visible uniform style, unfolded. */
  lemma BackingLayersUniform(layout: LayoutInfo, s: Style)
    requires HasAnyDefined(s, VisibleStyles) && IsUniform(Normalize(s))
    ensures BackingLayers(layout, s) == [WithUniformBorder(ViewBase(layout, s, Normalize(s)), Normalize(s))]
  {
  }

  /** BackingLayers of a visible non-uniform style, unfolded. */
  lemma BackingLayersNonUniform(layout: LayoutInfo, s: Style)
    requires HasAnyDefined(s, VisibleStyles) && !IsUniform(Normalize(s))
    ensures BackingLayers(layout, s) ==
      [ViewBase(layout, s, Normalize(s)).(hasClippingMask := true)] + Strips(layout, Normalize(s), EdgeOrder)
  {
  }

  lemma ConcatAssoc<X>(a: seq<X>, b: seq<X>, c: seq<X>)
    ensures (a + b) + c == a + (b + c)
  {
  }

  /**
   * One edge's block of the non-uniform branch (the source writes it out four
   * times): when the edge's width is positive, build its strip, name it, give
   * it the edge's pattern and push it. Its steps repeat `EdgeStrip` on
   * purpose, in the source's statement order; the ensures proves them equal.
   */
  method PushEdgeStrip(layers: seq<ShapeGroup>, layout: LayoutInfo, n: Resolved, e: Edge)
    returns (result: seq<ShapeGroup>)
    ensures result == layers + StripIfLive(layout, n, e)
  {
    result := layers;
    if n.Width(e) > 0.0 {
      var strip := match e
        case Top => MakeHorizontalBorder(0.0, 0.0, layout.width, n.topWidth, n.topColor)
        case Right => MakeVerticalBorder(layout.width - n.rightWidth, 0.0, layout.height, n.rightWidth, n.rightColor)
        case Bottom => MakeHorizontalBorder(0.0, layout.height - n.bottomWidth, layout.width, n.bottomWidth, n.bottomColor)
        case Left => MakeVerticalBorder(0.0, 0.0, layout.height, n.leftWidth, n.leftColor);
      strip := strip.(name := Some(StripName(e)));
      var borderOptions := FindBorderStyle(n.StyleOf(e), n.Width(e));
      if borderOptions.Some? {
        strip := strip.(style := strip.style.(borderOptions := borderOptions));
      }
      result := result + [strip];
    }
  }

  /**
   * The renderer: returns nothing for a visually inert style, one stroked
   * shape for a uniform border, otherwise a clipped base shape followed by
   * the top, right, bottom and left strips of positive width.
   */
  method RenderBackingLayers(layout: LayoutInfo, style: Style) returns (layers: seq<ShapeGroup>)
    ensures layers == BackingLayers(layout, style)
  {
    layers := [];
    var n := Normalize(style);
    if !HasAnyDefined(style, VisibleStyles) {
      assert BackingLayers(layout, style) == [];
      return;
    }
    // The base shape is built statement by statement, as the source does; the
    // assertion below proves it equal to ViewBase (radii included: Resolved.Radii).
    var backgroundColor := if Truthy(style.backgroundColor) then Css(style.backgroundColor.value) else Transparent;
    var frame := Rect(0.0, 0.0, layout.width, layout.height);
    var radii := [n.topLeftRadius, n.topRightRadius, n.bottomRightRadius, n.bottomLeftRadius];
    var shapeLayer := RoundedRect(0.0, 0.0, layout.width, layout.height, radii);
    var fill := ColorFill(backgroundColor);
    var content := MakeShapeGroup(frame, [shapeLayer], Some([fill]));
    if HasAnyDefined(style, ShadowStyles) {
      content := content.(style := content.style.(shadows := Some([Shadow(style)])));
    }
    assert content == ViewBase(layout, style, n);

    if && Same(n.topWidth, n.rightWidth, n.bottomWidth, n.leftWidth)
       && Same(n.topColor, n.rightColor, n.bottomColor, n.leftColor)
       && Same(n.topStyle, n.rightStyle, n.bottomStyle, n.leftStyle)
    {
      var borderOptions := FindBorderStyle(n.topStyle, n.topWidth);
      if borderOptions.Some? {
        content := content.(style := content.style.(borderOptions := borderOptions));
      }
      content := content.(style := content.style.(borders := Some([MakeBorder(n.topColor, Inside, n.topWidth)])));
      layers := layers + [content];
      assert layers == [WithUniformBorder(ViewBase(layout, style, n), n)];
      BackingLayersUniform(layout, style);
    } else {
      content := content.(hasClippingMask := true);
      layers := layers + [content];
      ghost var base := layers;
      layers := PushEdgeStrip(layers, layout, n, Top);
      layers := PushEdgeStrip(layers, layout, n, Right);
      layers := PushEdgeStrip(layers, layout, n, Bottom);
      layers := PushEdgeStrip(layers, layout, n, Left);
      StripsUnrolled(layout, n);
      ghost var t, r, b, l := StripIfLive(layout, n, Top), StripIfLive(layout, n, Right),
        StripIfLive(layout, n, Bottom), StripIfLive(layout, n, Left);
      assert layers == base + t + r + b + l;
      ConcatAssoc(base, t, r);
      ConcatAssoc(base, t + r, b);
      ConcatAssoc(base, t + r + b, l);
      assert layers == base + Strips(layout, n, EdgeOrder);
      BackingLayersNonUniform(layout, style);
      assert base == [ViewBase(layout, style, n).(hasClippingMask := true)];
    }
  }

  // ---------------------------------------------------------------------------
  // Properties of the output list
  // ---------------------------------------------------------------------------

  /** The view draws nothing exactly when none of the visible keys is present. */
  lemma EmptyIffInvisible(layout: LayoutInfo, s: Style)
    ensures BackingLayers(layout, s) == [] <==> !HasAnyDefined(s, VisibleStyles)
  {
  }

  /** A style that sets nothing but corner radii draws nothing. */
  lemma RadiiOnlyStyleIsEmpty(layout: LayoutInfo, s: Style)
    requires forall k :: IsDefined(s, k) ==> IsRadiusKey(k)
    ensures BackingLayers(layout, s) == []
  {
    VisibleStylesExcludeRadii();
  }

  /**
   * The base shape (first layer of a visible view): the box's frame, one
   * rounded rectangle with the radii in [TL, TR, BR, BL] order, exactly one
   * colour fill (the background colour, or transparent when it is absent or
   * empty) and a shadow exactly when one of the four shadow fields is present.
   */
  lemma BaseLayer(layout: LayoutInfo, s: Style)
    requires HasAnyDefined(s, VisibleStyles)
    ensures var r := BackingLayers(layout, s);
      var n := Normalize(s);
      && |r| >= 1
      && r[0].frame == Rect(0.0, 0.0, layout.width, layout.height)
      && r[0].layers == [RoundedRect(0.0, 0.0, layout.width, layout.height,
                                     [n.Radius(TopLeft), n.Radius(TopRight), n.Radius(BottomRight), n.Radius(BottomLeft)])]
      && r[0].style.fills == Some([ColorFill(if Truthy(s.backgroundColor) then Css(s.backgroundColor.value) else Transparent)])
      && (r[0].style.shadows.Some? <==>
            s.shadowColor.Some? || s.shadowOffset.Some? || s.shadowOpacity.Some? || s.shadowRadius.Some?)
      && (r[0].style.shadows.Some? ==> r[0].style.shadows == Some([Shadow(s)]))
      && r[0].name.None?
  {
    ShadowTrigger(s);
  }

  /**
   * Uniform border: exactly one layer, stroked by one enabled Inside border
   * of the top edge's width and colour (also when that width is 0), with the
   * dash/dot pattern exactly when the common style is dashed or dotted, and
   * no clipping mask.
   */
  lemma UniformCase(layout: LayoutInfo, s: Style)
    requires HasAnyDefined(s, VisibleStyles) && IsUniform(Normalize(s))
    ensures var r := BackingLayers(layout, s);
      var n := Normalize(s);
      && |r| == 1
      && r[0].style.borders == Some([Border(true, ColorFromCSS(n.topColor), 0, Inside, n.topWidth)])
      && r[0].style.borderOptions == FindBorderStyle(n.topStyle, n.topWidth)
      && (r[0].style.borderOptions.Some? <==> n.topStyle == "dashed" || n.topStyle == "dotted")
      && !r[0].hasClippingMask
  {
  }

  /**
   * Non-uniform border: the clipped base shape with no border and no pattern,
   * followed by the strips of the positive-width edges, in the fixed order of
   * `es` (top, right, bottom, left), one strip per edge.
   */
  lemma NonUniformCase(layout: LayoutInfo, s: Style)
    requires HasAnyDefined(s, VisibleStyles) && !IsUniform(Normalize(s))
    ensures var r := BackingLayers(layout, s);
      var n := Normalize(s);
      var es := LiveEdges(n, EdgeOrder);
      && |r| == 1 + |es|
      && r[0].hasClippingMask && r[0].style.borders.None? && r[0].style.borderOptions.None?
      && (forall i :: 1 <= i < |r| ==> r[i] == EdgeStrip(layout, n, es[i - 1]))
  {
    var r := BackingLayers(layout, s);
    var n := Normalize(s);
    var es := LiveEdges(n, EdgeOrder);
    var strips := StripsOf(layout, n, es);
    StripsAreLiveEdgeStrips(layout, n, EdgeOrder);
    assert r == [ViewBase(layout, s, n).(hasClippingMask := true)] + strips;
    forall i | 1 <= i < |r| ensures r[i] == EdgeStrip(layout, n, es[i - 1]) {
      assert r[i] == strips[i - 1];
    }
  }

  /**
   * The strips are drawn for exactly the edges of positive width, each once,
   * in the order top, right, bottom, left; so there are as many of them as
   * there are edges of positive width.
   */
  lemma {:induction false} LiveEdgesOfOrder(n: Resolved)
    ensures var es := LiveEdges(n, EdgeOrder);
      && (forall e :: e in es <==> n.Width(e) > 0.0)
      && (forall i, j :: 0 <= i < j < |es| ==> Ordinal(es[i]) < Ordinal(es[j]))
      && |es| == |set e | e in EdgeOrder && n.Width(e) > 0.0|
  {
    var es := LiveEdges(n, EdgeOrder);
    assert Increasing(EdgeOrder);
    LiveEdgesIncreasing(n, EdgeOrder);
    forall e: Edge ensures e in EdgeOrder {
      match e
      case Top => assert EdgeOrder[0] == Top;
      case Right => assert EdgeOrder[1] == Right;
      case Bottom => assert EdgeOrder[2] == Bottom;
      case Left => assert EdgeOrder[3] == Left;
    }
    assert (set e | e in EdgeOrder && n.Width(e) > 0.0) == (set e | e in es);
    IncreasingCard(es);
  }

  /** An increasing edge list has no repetition, so it has as many distinct edges as elements. */
  lemma {:induction false} IncreasingCard(es: seq<Edge>)
    requires Increasing(es)
    ensures |set e | e in es| == |es|
  {
    if es != [] {
      var rest := es[1..];
      IncreasingTail(es);
      IncreasingCard(rest);
      assert es[0] !in rest by {
        forall k | 0 <= k < |rest| ensures rest[k] != es[0] {
          assert rest[k] == es[k + 1];
        }
      }
      assert (set e | e in es) == {es[0]} + (set e | e in rest) by {
        assert es == [es[0]] + rest;
      }
    }
  }

  /** A non-uniform view draws one layer more than it has edges of positive width. */
  lemma StripCount(layout: LayoutInfo, s: Style)
    requires HasAnyDefined(s, VisibleStyles) && !IsUniform(Normalize(s))
    ensures var n := Normalize(s);
      |BackingLayers(layout, s)| == 1 + |set e | e in EdgeOrder && n.Width(e) > 0.0|
  {
    NonUniformCase(layout, s);
    LiveEdgesOfOrder(Normalize(s));
  }

  // ---------------------------------------------------------------------------
  // Two concrete inputs
  // ---------------------------------------------------------------------------

  /**
   * Only the top edge has a width: a clipped base shape and one strip named
   * 'Border (top)' with frame {0, 0, 100, 3} and a centred border of thickness 3.
   */
  lemma TopBorderOnlyExample()
    ensures var r := BackingLayers(LayoutInfo(100.0, 50.0), EmptyStyle.(borderTopWidth := Some(3.0)));
      && |r| == 2
      && r[0].hasClippingMask && r[0].style.borders.None?
      && r[1].name == Some("Border (top)")
      && r[1].frame == Rect(0.0, 0.0, 100.0, 3.0)
      && r[1].style.borders == Some([Border(true, ColorFromCSS("#000"), 0, Center, 3.0)])
  {
    var s := EmptyStyle.(borderTopWidth := Some(3.0));
    var layout := LayoutInfo(100.0, 50.0);
    var n := Resolved(3.0, 0.0, 0.0, 0.0, 0.0, 0.0, 0.0, 0.0,
                      "#000", "#000", "#000", "#000", "solid", "solid", "solid", "solid");
    assert BackingLayers(layout, s) ==
      [ViewBase(layout, s, n).(hasClippingMask := true), EdgeStrip(layout, n, Top)] by {
      assert HasAnyDefined(s, VisibleStyles) by {
        assert IsDefined(s, VisibleStyles[16]);
      }
      assert Normalize(s) == n;
      BackingLayersNonUniform(layout, s);
      StripsUnrolled(layout, n);
    }
  }

  /**
   * The shorthand keys are not expanded: background '#ffffff' with
   * borderWidth 2, borderColor '#000000' and borderStyle 'solid' gives one
   * shape whose border is the defaulted one, width 0 and colour '#000'.
   */
  lemma ShorthandOnlyExample()
    ensures var s := EmptyStyle.(backgroundColor := Some("#ffffff"), borderWidth := Some(2.0),
                                borderColor := Some("#000000"), borderStyle := Some("solid"));
      var r := BackingLayers(LayoutInfo(100.0, 50.0), s);
      && |r| == 1
      && r[0].frame == Rect(0.0, 0.0, 100.0, 50.0)
      && r[0].style.fills == Some([ColorFill(Css("#ffffff"))])
      && r[0].style.borders == Some([Border(true, ColorFromCSS("#000"), 0, Inside, 0.0)])
      && r[0].style.borderOptions.None?
  {
    var s := EmptyStyle.(backgroundColor := Some("#ffffff"), borderWidth := Some(2.0),
                         borderColor := Some("#000000"), borderStyle := Some("solid"));
    var layout := LayoutInfo(100.0, 50.0);
    var n := Resolved(0.0, 0.0, 0.0, 0.0, 0.0, 0.0, 0.0, 0.0,
                      "#000", "#000", "#000", "#000", "solid", "solid", "solid", "solid");
    assert BackingLayers(layout, s) == [WithUniformBorder(ViewBase(layout, s, n), n)] by {
      assert HasAnyDefined(s, VisibleStyles) by {
        assert IsDefined(s, VisibleStyles[4]);
      }
      assert Normalize(s) == n;
      BackingLayersUniform(layout, s);
    }
  }
}
