/**
 * The sparse style record both renderers receive, the key lists they test it
 * against, and the defaulting step that both renderers perform by
 * destructuring the record at the head of `renderBackingLayers`.
 */
module Styles {
  import opened Wrappers

  /** The four border edges, and the four corners, of an element's box. */
  datatype Edge = Top | Right | Bottom | Left
  datatype Corner = TopLeft | TopRight | BottomRight | BottomLeft

  /** The order in which the non-uniform branch emits border strips. */
  const EdgeOrder: seq<Edge> := [Top, Right, Bottom, Left]

  /** The order of a rounded rectangle's radius array. */
  const CornerOrder: seq<Corner> := [TopLeft, TopRight, BottomRight, BottomLeft]

  /** Position of an edge in EdgeOrder. */
  function Ordinal(e: Edge): nat {
    match e
    case Top => 0
    case Right => 1
    case Bottom => 2
    case Left => 3
  }

  datatype Offset = Offset(width: real, height: real)

  /**
   * The style record. Lengths are exact reals, colours and border styles are
   * the raw strings the caller wrote (no CSS parsing). `None` is a key that
   * is absent.
   */
  datatype Style = Style(
    shadowColor: Option<string>,
    shadowOffset: Option<Offset>,
    shadowOpacity: Option<real>,
    shadowRadius: Option<real>,
    backgroundColor: Option<string>,
    borderColor: Option<string>,
    borderTopColor: Option<string>,
    borderRightColor: Option<string>,
    borderBottomColor: Option<string>,
    borderLeftColor: Option<string>,
    borderStyle: Option<string>,
    borderTopStyle: Option<string>,
    borderRightStyle: Option<string>,
    borderBottomStyle: Option<string>,
    borderLeftStyle: Option<string>,
    borderWidth: Option<real>,
    borderTopWidth: Option<real>,
    borderRightWidth: Option<real>,
    borderBottomWidth: Option<real>,
    borderLeftWidth: Option<real>,
    borderTopLeftRadius: Option<real>,
    borderTopRightRadius: Option<real>,
    borderBottomRightRadius: Option<real>,
    borderBottomLeftRadius: Option<real>)
  {
    /** The per-edge `border<Edge>Width` key. */
    function EdgeWidth(e: Edge): Option<real> {
      match e
      case Top => borderTopWidth
      case Right => borderRightWidth
      case Bottom => borderBottomWidth
      case Left => borderLeftWidth
    }

    /** The per-edge `border<Edge>Color` key. */
    function EdgeColor(e: Edge): Option<string> {
      match e
      case Top => borderTopColor
      case Right => borderRightColor
      case Bottom => borderBottomColor
      case Left => borderLeftColor
    }

    /** The per-edge `border<Edge>Style` key. */
    function EdgeStyle(e: Edge): Option<string> {
      match e
      case Top => borderTopStyle
      case Right => borderRightStyle
      case Bottom => borderBottomStyle
      case Left => borderLeftStyle
    }

    /** The per-corner `border<Corner>Radius` key. */
    function CornerRadius(c: Corner): Option<real> {
      match c
      case TopLeft => borderTopLeftRadius
      case TopRight => borderTopRightRadius
      case BottomRight => borderBottomRightRadius
      case BottomLeft => borderBottomLeftRadius
    }
  }

  /** The names of the style record's keys. */
  datatype StyleKey =
    | ShadowColor | ShadowOffset | ShadowOpacity | ShadowRadius
    | BackgroundColor
    | BorderColor | BorderTopColor | BorderRightColor | BorderBottomColor | BorderLeftColor
    | BorderStyle | BorderTopStyle | BorderRightStyle | BorderBottomStyle | BorderLeftStyle
    | BorderWidth | BorderTopWidth | BorderRightWidth | BorderBottomWidth | BorderLeftWidth
    | BorderTopLeftRadius | BorderTopRightRadius | BorderBottomRightRadius | BorderBottomLeftRadius

  /** True when key `k` is present in `s`. */
  predicate IsDefined(s: Style, k: StyleKey) {
    match k
    case ShadowColor => s.shadowColor.Some?
    case ShadowOffset => s.shadowOffset.Some?
    case ShadowOpacity => s.shadowOpacity.Some?
    case ShadowRadius => s.shadowRadius.Some?
    case BackgroundColor => s.backgroundColor.Some?
    case BorderColor => s.borderColor.Some?
    case BorderTopColor => s.borderTopColor.Some?
    case BorderRightColor => s.borderRightColor.Some?
    case BorderBottomColor => s.borderBottomColor.Some?
    case BorderLeftColor => s.borderLeftColor.Some?
    case BorderStyle => s.borderStyle.Some?
    case BorderTopStyle => s.borderTopStyle.Some?
    case BorderRightStyle => s.borderRightStyle.Some?
    case BorderBottomStyle => s.borderBottomStyle.Some?
    case BorderLeftStyle => s.borderLeftStyle.Some?
    case BorderWidth => s.borderWidth.Some?
    case BorderTopWidth => s.borderTopWidth.Some?
    case BorderRightWidth => s.borderRightWidth.Some?
    case BorderBottomWidth => s.borderBottomWidth.Some?
    case BorderLeftWidth => s.borderLeftWidth.Some?
    case BorderTopLeftRadius => s.borderTopLeftRadius.Some?
    case BorderTopRightRadius => s.borderTopRightRadius.Some?
    case BorderBottomRightRadius => s.borderBottomRightRadius.Some?
    case BorderBottomLeftRadius => s.borderBottomLeftRadius.Some?
  }

  /** The corner-radius keys: they are read, but do not make an element visible. */
  predicate IsRadiusKey(k: StyleKey) {
    k.BorderTopLeftRadius? || k.BorderTopRightRadius? || k.BorderBottomRightRadius? || k.BorderBottomLeftRadius?
  }

  /** Keys whose presence makes a view draw anything at all (VISIBLE_STYLES). */
  const VisibleStyles: seq<StyleKey> := [
    ShadowColor, ShadowOffset, ShadowOpacity, ShadowRadius,
    BackgroundColor,
    BorderColor, BorderTopColor, BorderRightColor, BorderBottomColor, BorderLeftColor,
    BorderStyle, BorderTopStyle, BorderRightStyle, BorderBottomStyle, BorderLeftStyle,
    BorderWidth, BorderTopWidth, BorderRightWidth, BorderBottomWidth, BorderLeftWidth
  ]

  /** Keys whose presence gives the base shape a shadow (SHADOW_STYLES). */
  const ShadowStyles: seq<StyleKey> := [ShadowColor, ShadowOffset, ShadowOpacity, ShadowRadius]

  /** `hasAnyDefined(style, keys)`: some key of `keys` is present in `s`. */
  function HasAnyDefined(s: Style, keys: seq<StyleKey>): (r: bool)
    ensures r <==> exists i :: 0 <= i < |keys| && IsDefined(s, keys[i])
  {
    if keys == [] then false
    else if IsDefined(s, keys[0]) then true
    else
      var rest := HasAnyDefined(s, keys[1..]);
      assert forall i :: 1 <= i < |keys| ==> keys[i] == keys[1..][i - 1];
      rest
  }

  /** No visible key is a corner-radius key. */
  lemma VisibleStylesExcludeRadii()
    ensures forall i :: 0 <= i < |VisibleStyles| ==> !IsRadiusKey(VisibleStyles[i])
  {
  }

  /** A style shows a shadow iff one of the four shadow fields is present. */
  lemma ShadowTrigger(s: Style)
    ensures HasAnyDefined(s, ShadowStyles) <==>
      s.shadowColor.Some? || s.shadowOffset.Some? || s.shadowOpacity.Some? || s.shadowRadius.Some?
  {
    assert ShadowStyles[0] == ShadowColor && ShadowStyles[1] == ShadowOffset;
    assert ShadowStyles[2] == ShadowOpacity && ShadowStyles[3] == ShadowRadius;
  }

  const DefaultBorderColor: string := "#000"
  const DefaultBorderStyle: string := "solid"

  /** A style record with every border and radius field filled in. */
  datatype Resolved = Resolved(
    topWidth: real, rightWidth: real, bottomWidth: real, leftWidth: real,
    topLeftRadius: real, topRightRadius: real, bottomRightRadius: real, bottomLeftRadius: real,
    topColor: string, rightColor: string, bottomColor: string, leftColor: string,
    topStyle: string, rightStyle: string, bottomStyle: string, leftStyle: string)
  {
    function Width(e: Edge): real {
      match e
      case Top => topWidth
      case Right => rightWidth
      case Bottom => bottomWidth
      case Left => leftWidth
    }

    function Color(e: Edge): string {
      match e
      case Top => topColor
      case Right => rightColor
      case Bottom => bottomColor
      case Left => leftColor
    }

    function StyleOf(e: Edge): string {
      match e
      case Top => topStyle
      case Right => rightStyle
      case Bottom => bottomStyle
      case Left => leftStyle
    }

    function Radius(c: Corner): real {
      match c
      case TopLeft => topLeftRadius
      case TopRight => topRightRadius
      case BottomRight => bottomRightRadius
      case BottomLeft => bottomLeftRadius
    }

    /** The radius array handed to the rounded rectangle, in [TL, TR, BR, BL] order. */
    function Radii(): (r: seq<real>)
      ensures |r| == |CornerOrder|
      ensures forall i :: 0 <= i < |r| ==> r[i] == Radius(CornerOrder[i])
    {
      [topLeftRadius, topRightRadius, bottomRightRadius, bottomLeftRadius]
    }
  }

  /**
   * The defaulting step: absent widths and radii become 0, absent colours '#000'
   * and absent styles 'solid'. The shorthand keys borderWidth, borderColor and
   * borderStyle are not read.
   */
  function Normalize(s: Style): (n: Resolved)
    ensures forall e: Edge :: n.Width(e) == (if s.EdgeWidth(e).Some? then s.EdgeWidth(e).value else 0.0)
    ensures forall e: Edge :: n.Color(e) == (if s.EdgeColor(e).Some? then s.EdgeColor(e).value else DefaultBorderColor)
    ensures forall e: Edge :: n.StyleOf(e) == (if s.EdgeStyle(e).Some? then s.EdgeStyle(e).value else DefaultBorderStyle)
    ensures forall c: Corner :: n.Radius(c) == (if s.CornerRadius(c).Some? then s.CornerRadius(c).value else 0.0)
  {
    Resolved(
      s.borderTopWidth.GetOr(0.0), s.borderRightWidth.GetOr(0.0),
      s.borderBottomWidth.GetOr(0.0), s.borderLeftWidth.GetOr(0.0),
      s.borderTopLeftRadius.GetOr(0.0), s.borderTopRightRadius.GetOr(0.0),
      s.borderBottomRightRadius.GetOr(0.0), s.borderBottomLeftRadius.GetOr(0.0),
      s.borderTopColor.GetOr(DefaultBorderColor), s.borderRightColor.GetOr(DefaultBorderColor),
      s.borderBottomColor.GetOr(DefaultBorderColor), s.borderLeftColor.GetOr(DefaultBorderColor),
      s.borderTopStyle.GetOr(DefaultBorderStyle), s.borderRightStyle.GetOr(DefaultBorderStyle),
      s.borderBottomStyle.GetOr(DefaultBorderStyle), s.borderLeftStyle.GetOr(DefaultBorderStyle))
  }

  /** The style record with no key present. */
  const EmptyStyle: Style := Style(
    None, None, None, None, None,
    None, None, None, None, None,
    None, None, None, None, None,
    None, None, None, None, None,
    None, None, None, None)

  /** The style record that spells out every per-edge and per-corner field of `n`. */
  function Explicit(n: Resolved): Style {
    EmptyStyle.(
      borderTopWidth := Some(n.topWidth), borderRightWidth := Some(n.rightWidth),
      borderBottomWidth := Some(n.bottomWidth), borderLeftWidth := Some(n.leftWidth),
      borderTopLeftRadius := Some(n.topLeftRadius), borderTopRightRadius := Some(n.topRightRadius),
      borderBottomRightRadius := Some(n.bottomRightRadius), borderBottomLeftRadius := Some(n.bottomLeftRadius),
      borderTopColor := Some(n.topColor), borderRightColor := Some(n.rightColor),
      borderBottomColor := Some(n.bottomColor), borderLeftColor := Some(n.leftColor),
      borderTopStyle := Some(n.topStyle), borderRightStyle := Some(n.rightStyle),
      borderBottomStyle := Some(n.bottomStyle), borderLeftStyle := Some(n.leftStyle))
  }

  /** Defaulting keeps every value the caller wrote: it round-trips a fully written record. */
  lemma NormalizeExplicit(n: Resolved)
    ensures Normalize(Explicit(n)) == n
  {
  }

  /** Defaulting an empty record yields width 0, colour '#000', style 'solid' and radius 0 everywhere. */
  lemma NormalizeEmpty()
    ensures var n := Normalize(EmptyStyle);
      forall e: Edge :: n.Width(e) == 0.0 && n.Color(e) == "#000" && n.StyleOf(e) == "solid"
    ensures forall c: Corner :: Normalize(EmptyStyle).Radius(c) == 0.0
  {
  }

  /** `same(a, b, c, d)`: all four values are equal. */
  predicate Same<T(==)>(a: T, b: T, c: T, d: T) {
    a == b && b == c && c == d
  }

  /**
   * The decision rule: the four widths, the four colour strings and the four
   * style strings are each all equal (after defaulting).
   */
  predicate IsUniform(n: Resolved) {
    && Same(n.topWidth, n.rightWidth, n.bottomWidth, n.leftWidth)
    && Same(n.topColor, n.rightColor, n.bottomColor, n.leftColor)
    && Same(n.topStyle, n.rightStyle, n.bottomStyle, n.leftStyle)
  }

  /** The uniform rule, stated edge by edge: every edge agrees with the top edge. */
  lemma UniformMeansAllEdgesAgree(n: Resolved)
    ensures IsUniform(n) <==>
      forall e: Edge :: n.Width(e) == n.topWidth && n.Color(e) == n.topColor && n.StyleOf(e) == n.topStyle
  {
    if forall e: Edge :: n.Width(e) == n.topWidth && n.Color(e) == n.topColor && n.StyleOf(e) == n.topStyle {
      assert n.Width(Right) == n.topWidth && n.Color(Right) == n.topColor && n.StyleOf(Right) == n.topStyle;
      assert n.Width(Bottom) == n.topWidth && n.Color(Bottom) == n.topColor && n.StyleOf(Bottom) == n.topStyle;
      assert n.Width(Left) == n.topWidth && n.Color(Left) == n.topColor && n.StyleOf(Left) == n.topStyle;
    }
  }

  /** JavaScript truthiness of an optional string: present and not empty. */
  predicate Truthy(o: Option<string>) {
    o.Some? && o.value != ""
  }
}
