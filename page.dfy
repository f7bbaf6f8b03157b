/** The `page` and `pagebreak` library functions: the page-configuration
    directive resolves its keyword overrides against the current page style
    and emits one `SetPageStyle` command; the page-break directive emits one
    `BreakPage` command. Both report every argument they did not consume.

    The directives are methods with local mutable state, as `page` and
    `pagebreak` are in src/library/page.rs.
    Their result is specified by `Resolve`, a fold of override layers applied
    in a fixed order, and `Resolve` is in turn characterised field by field
    by `Precedence`, which says which layer wins for each field. */
module PageLibrary {
  import opened Wrappers
  import opened Geom
  import opened Paper

  /** The page style: paper class, page size and the four optional margins. */
  datatype PageStyle = PageStyle(paperClass: PaperClass, size: Size, margins: Sides<Option<Linear>>)

  /** A key of the argument dictionary: a position or a name. */
  datatype DictKey = Int(index: nat) | Str(name: string)

  /** A non-fatal issue reported alongside the directive's result. */
  datatype Diagnostic = UnexpectedArgument(key: DictKey)

  /** A structural command for the layout engine. */
  datatype Command = SetPageStyle(style: PageStyle) | BreakPage

  /** The commands a directive emits, with the diagnostics it collected. */
  datatype Pass = Pass(commands: seq<Command>, diagnostics: seq<Diagnostic>)

  /** The arguments of `page` after extraction: one already-typed optional
      value per recognised key (the positional paper preset first), and the
      keys that no extraction consumed. */
  datatype PageArgs = PageArgs(
    paper: Option<Paper>,
    width: Option<Length>,
    height: Option<Length>,
    margins: Option<Linear>,
    left: Option<Linear>,
    top: Option<Linear>,
    right: Option<Linear>,
    bottom: Option<Linear>,
    flip: Option<bool>,
    leftover: seq<DictKey>)

  /** No override is present: no paper, size or margin value and no `flip = true`. */
  predicate NoOverrides(a: PageArgs) {
    a.paper.None? && a.width.None? && a.height.None? && a.margins.None?
    && a.left.None? && a.top.None? && a.right.None? && a.bottom.None?
    && !a.flip.UnwrapOr(false)
  }

  /** One diagnostic per leftover key, in the order of the keys. */
  function Unexpected(leftover: seq<DictKey>): (diagnostics: seq<Diagnostic>)
    ensures |diagnostics| == |leftover|
    ensures forall i :: 0 <= i < |leftover| ==> diagnostics[i] == UnexpectedArgument(leftover[i])
  {
    if leftover == [] then [] else [UnexpectedArgument(leftover[0])] + Unexpected(leftover[1..])
  }

  // ---------------------------------------------------------------------------
  // The override layers and their fold

  /** One override: the effect of one recognised key. */
  datatype Layer =
    | SetPaper(paper: Paper)
    | SetWidth(width: Length)
    | SetHeight(height: Length)
    | SetMargins(margins: Linear)
    | SetLeft(left: Linear)
    | SetTop(top: Linear)
    | SetRight(right: Linear)
    | SetBottom(bottom: Linear)
    | FlipSize

  /** The style after one override. */
  function Apply(layer: Layer, style: PageStyle): PageStyle {
    match layer
    case SetPaper(p) => style.(paperClass := p.paperClass, size := p.size)
    case SetWidth(w) => style.(paperClass := Custom, size := style.size.(width := w))
    case SetHeight(h) => style.(paperClass := Custom, size := style.size.(height := h))
    case SetMargins(m) => style.(margins := Uniform(Some(m)))
    case SetLeft(l) => style.(margins := style.margins.(left := Some(l)))
    case SetTop(t) => style.(margins := style.margins.(top := Some(t)))
    case SetRight(r) => style.(margins := style.margins.(right := Some(r)))
    case SetBottom(b) => style.(margins := style.margins.(bottom := Some(b)))
    case FlipSize => style.(size := Size(style.size.height, style.size.width))
  }

  /** The style after the overrides, the first applied first. */
  function Fold(layers: seq<Layer>, style: PageStyle): PageStyle
    decreases |layers|
  {
    if layers == [] then style else Fold(layers[1..], Apply(layers[0], style))
  }

  /** Folding two lists of overrides one after the other is folding their concatenation. */
  lemma {:induction false} FoldConcat(first: seq<Layer>, second: seq<Layer>, style: PageStyle)
    ensures Fold(first + second, style) == Fold(second, Fold(first, style))
    decreases |first|
  {
    if first != [] {
      assert (first + second)[1..] == first[1..] + second;
      FoldConcat(first[1..], second, Apply(first[0], style));
    } else {
      assert first + second == second;
    }
  }

  /** The overrides present in the arguments, in the fixed order paper,
      width, height, margins, left, top, right, bottom, flip. */
  function Layers(a: PageArgs): (layers: seq<Layer>)
    ensures layers == [] <==> NoOverrides(a)
  {
    SizeLayers(a) + MarginLayers(a) + FlipLayer(a)
  }

  /** The overrides of the paper class and size. */
  function SizeLayers(a: PageArgs): seq<Layer> {
    PaperLayer(a) + WidthLayer(a) + HeightLayer(a)
  }

  /** The overrides of the margins: the uniform one first, then each side. */
  function MarginLayers(a: PageArgs): seq<Layer> {
    MarginsLayer(a) + LeftLayer(a) + TopLayer(a) + RightLayer(a) + BottomLayer(a)
  }

  // The override of each key: none, or exactly one.
  function PaperLayer(a: PageArgs): seq<Layer> { if a.paper.Some? then [SetPaper(a.paper.value)] else [] }
  function WidthLayer(a: PageArgs): seq<Layer> { if a.width.Some? then [SetWidth(a.width.value)] else [] }
  function HeightLayer(a: PageArgs): seq<Layer> { if a.height.Some? then [SetHeight(a.height.value)] else [] }
  function MarginsLayer(a: PageArgs): seq<Layer> { if a.margins.Some? then [SetMargins(a.margins.value)] else [] }
  function LeftLayer(a: PageArgs): seq<Layer> { if a.left.Some? then [SetLeft(a.left.value)] else [] }
  function TopLayer(a: PageArgs): seq<Layer> { if a.top.Some? then [SetTop(a.top.value)] else [] }
  function RightLayer(a: PageArgs): seq<Layer> { if a.right.Some? then [SetRight(a.right.value)] else [] }
  function BottomLayer(a: PageArgs): seq<Layer> { if a.bottom.Some? then [SetBottom(a.bottom.value)] else [] }
  function FlipLayer(a: PageArgs): seq<Layer> { if a.flip.UnwrapOr(false) then [FlipSize] else [] }

  /** The page style the `page` directive produces. */
  function Resolve(style: PageStyle, a: PageArgs): PageStyle {
    Fold(Layers(a), style)
  }

  // ---------------------------------------------------------------------------
  // The precedence rules, stated field by field

  /** The margin of one side: its own key wins over the uniform `margins`
      key, which wins over the prior value. */
  function SideMargin(side: Option<Linear>, uniform: Option<Linear>, prior: Option<Linear>): Option<Linear> {
    if side.Some? then side else if uniform.Some? then uniform else prior
  }

  /** Which layer wins for each field of the style. Class: a `width` or
      `height` key makes it `Custom`, otherwise the paper's class, otherwise
      the prior one. Width (and height): its own key, otherwise the paper's,
      otherwise the prior one; `flip = true` then swaps the two. Margins:
      `SideMargin`. */
  function Precedence(s: PageStyle, a: PageArgs): PageStyle {
    var width :=
      if a.width.Some? then a.width.value
      else if a.paper.Some? then a.paper.value.size.width
      else s.size.width;
    var height :=
      if a.height.Some? then a.height.value
      else if a.paper.Some? then a.paper.value.size.height
      else s.size.height;
    PageStyle(
      if a.width.Some? || a.height.Some? then Custom
      else if a.paper.Some? then a.paper.value.paperClass
      else s.paperClass,
      if a.flip.UnwrapOr(false) then Size(height, width) else Size(width, height),
      Sides(
        SideMargin(a.left, a.margins, s.margins.left),
        SideMargin(a.top, a.margins, s.margins.top),
        SideMargin(a.right, a.margins, s.margins.right),
        SideMargin(a.bottom, a.margins, s.margins.bottom)))
  }

  /** At most one override, folded after a prefix. */
  lemma FoldPresent(prefix: seq<Layer>, present: seq<Layer>, style: PageStyle)
    requires |present| <= 1
    ensures Fold(prefix + present, style)
         == if present == [] then Fold(prefix, style) else Apply(present[0], Fold(prefix, style))
  {
    FoldConcat(prefix, present, style);
    if present != [] {
      assert present[1..] == [];
    }
  }

  /** The paper, width and height overrides set class and size and leave the margins alone. */
  lemma SizeLayersEffect(s: PageStyle, a: PageArgs)
    ensures Fold(SizeLayers(a), s).margins == s.margins
    ensures Fold(SizeLayers(a), s).paperClass == Precedence(s, a).paperClass
    ensures Fold(SizeLayers(a), s).size.width
         == if a.width.Some? then a.width.value else if a.paper.Some? then a.paper.value.size.width else s.size.width
    ensures Fold(SizeLayers(a), s).size.height
         == if a.height.Some? then a.height.value else if a.paper.Some? then a.paper.value.size.height else s.size.height
  {
    var p1 := PaperLayer(a);
    var p2 := p1 + WidthLayer(a);
    FoldPresent([], p1, s);
    assert [] + p1 == p1;
    FoldPresent(p1, WidthLayer(a), s);
    FoldPresent(p2, HeightLayer(a), s);
  }

  /** The margin overrides set the margins by `SideMargin` and leave class and size alone. */
  lemma MarginLayersEffect(s: PageStyle, a: PageArgs)
    ensures Fold(MarginLayers(a), s).paperClass == s.paperClass
    ensures Fold(MarginLayers(a), s).size == s.size
    ensures Fold(MarginLayers(a), s).margins == Sides(
      SideMargin(a.left, a.margins, s.margins.left),
      SideMargin(a.top, a.margins, s.margins.top),
      SideMargin(a.right, a.margins, s.margins.right),
      SideMargin(a.bottom, a.margins, s.margins.bottom))
  {
    var p1 := MarginsLayer(a);
    var p2 := p1 + LeftLayer(a);
    var p3 := p2 + TopLayer(a);
    var p4 := p3 + RightLayer(a);
    FoldPresent([], p1, s);
    assert [] + p1 == p1;
    FoldPresent(p1, LeftLayer(a), s);
    FoldPresent(p2, TopLayer(a), s);
    FoldPresent(p3, RightLayer(a), s);
    FoldPresent(p4, BottomLayer(a), s);
  }

  /** The fold of the layers obeys the precedence rules. */
  lemma ResolveMatchesPrecedence(s: PageStyle, a: PageArgs)
    ensures Resolve(s, a) == Precedence(s, a)
  {
    var sized := Fold(SizeLayers(a), s);
    SizeLayersEffect(s, a);
    MarginLayersEffect(sized, a);
    FoldConcat(SizeLayers(a), MarginLayers(a), s);
    FoldPresent(SizeLayers(a) + MarginLayers(a), FlipLayer(a), s);
  }

  // ---------------------------------------------------------------------------
  // The directives

  /** `page`: copies the current style, applies each present override in
      the fixed order, reports the leftover keys and emits exactly one
      `SetPageStyle` command, whatever diagnostics there are. */
  method Page(current: PageStyle, args: PageArgs) returns (pass: Pass)
    ensures pass.commands == [SetPageStyle(Resolve(current, args))]
    ensures pass.diagnostics == Unexpected(args.leftover)
  {
    var f: seq<Diagnostic> := [];
    var style := current;

    if args.paper.Some? {
      var paper := args.paper.value;
      style := style.(paperClass := paper.paperClass, size := paper.size);
    }

    if args.width.Some? {
      style := style.(paperClass := Custom, size := style.size.(width := args.width.value));
    }

    if args.height.Some? {
      style := style.(paperClass := Custom, size := style.size.(height := args.height.value));
    }

    ghost var expected := Precedence(current, args);
    assert style.paperClass == expected.paperClass && style.margins == current.margins;
    assert args.flip.UnwrapOr(false) ==> style.size == Size(expected.size.height, expected.size.width);
    assert !args.flip.UnwrapOr(false) ==> style.size == expected.size;

    if args.margins.Some? {
      style := style.(margins := Uniform(Some(args.margins.value)));
    }

    if args.left.Some? {
      style := style.(margins := style.margins.(left := Some(args.left.value)));
    }

    if args.top.Some? {
      style := style.(margins := style.margins.(top := Some(args.top.value)));
    }

    if args.right.Some? {
      style := style.(margins := style.margins.(right := Some(args.right.value)));
    }

    if args.bottom.Some? {
      style := style.(margins := style.margins.(bottom := Some(args.bottom.value)));
    }

    assert style.margins == expected.margins;

    if args.flip.UnwrapOr(false) {
      var width, height := style.size.width, style.size.height;
      style := style.(size := Size(height, width));
    }

    f := f + Unexpected(args.leftover);
    ResolveMatchesPrecedence(current, args);
    pass := Pass([SetPageStyle(style)], f);
  }

  /** `pagebreak`: every argument is unexpected; emits exactly one `BreakPage` command. */
  method PageBreak(args: seq<DictKey>) returns (pass: Pass)
    ensures pass.commands == [BreakPage]
    ensures |pass.diagnostics| == |args|
    ensures forall i :: 0 <= i < |args| ==> pass.diagnostics[i] == UnexpectedArgument(args[i])
  {
    var f: seq<Diagnostic> := [];
    f := f + Unexpected(args);
    pass := Pass([BreakPage], f);
  }

  // ---------------------------------------------------------------------------
  // Properties of the resolution

  /** With no override present the style comes back unchanged. */
  lemma ResolveIdentity(s: PageStyle, a: PageArgs)
    requires NoOverrides(a)
    ensures Resolve(s, a) == s
  {
    assert Layers(a) == [];
  }

  /** Leftover keys never stop the recognised overrides from applying. */
  lemma ResolveIgnoresLeftover(s: PageStyle, a: PageArgs, leftover: seq<DictKey>)
    ensures Resolve(s, a.(leftover := leftover)) == Resolve(s, a)
  {
    ResolveMatchesPrecedence(s, a);
    ResolveMatchesPrecedence(s, a.(leftover := leftover));
  }

  /** A paper preset alone sets the class to the paper's and the size to
      its size; it never touches the margins. */
  lemma PaperSetsClassAndSize(s: PageStyle, a: PageArgs, paper: Paper)
    requires a.paper == Some(paper) && a.width.None? && a.height.None? && !a.flip.UnwrapOr(false)
    ensures Resolve(s, a).paperClass == paper.paperClass
    ensures Resolve(s, a).size == paper.size
    ensures Resolve(s, a).margins == Resolve(s, a.(paper := None)).margins
  {
    ResolveMatchesPrecedence(s, a);
    ResolveMatchesPrecedence(s, a.(paper := None));
  }

  /** A `width` key makes the class `Custom` and replaces only the width
      (the height after a flip): everything else is as without the key. */
  lemma WidthOverridesOnlyWidth(s: PageStyle, a: PageArgs, width: Length)
    requires a.width == Some(width)
    ensures var r, r0 := Resolve(s, a), Resolve(s, a.(width := None));
      && r.paperClass == Custom
      && r.margins == r0.margins
      && r.size == if a.flip.UnwrapOr(false) then Size(r0.size.width, width) else Size(width, r0.size.height)
  {
    ResolveMatchesPrecedence(s, a);
    ResolveMatchesPrecedence(s, a.(width := None));
  }

  /** A `height` key makes the class `Custom` and replaces only the height
      (the width after a flip): everything else is as without the key. */
  lemma HeightOverridesOnlyHeight(s: PageStyle, a: PageArgs, height: Length)
    requires a.height == Some(height)
    ensures var r, r0 := Resolve(s, a), Resolve(s, a.(height := None));
      && r.paperClass == Custom
      && r.margins == r0.margins
      && r.size == if a.flip.UnwrapOr(false) then Size(height, r0.size.height) else Size(r0.size.width, height)
  {
    ResolveMatchesPrecedence(s, a);
    ResolveMatchesPrecedence(s, a.(height := None));
  }

  /** A uniform `margins` key alone sets all four sides and discards the
      prior margins; class and size are as without the key. */
  lemma UniformMargins(s: PageStyle, a: PageArgs, m: Linear)
    requires a.margins == Some(m)
    requires a.left.None? && a.top.None? && a.right.None? && a.bottom.None?
    ensures Resolve(s, a).margins == Uniform(Some(m))
    ensures var r0 := Resolve(s, a.(margins := None));
      Resolve(s, a).paperClass == r0.paperClass && Resolve(s, a).size == r0.size
  {
    ResolveMatchesPrecedence(s, a);
    ResolveMatchesPrecedence(s, a.(margins := None));
  }

  /** Each side's own key wins over the uniform `margins` key, and changes
      nothing but its own side. */
  lemma SideKeysWin(s: PageStyle, a: PageArgs)
    ensures var r := Resolve(s, a);
      && (a.left.Some? ==> r.margins.left == a.left)
      && (a.top.Some? ==> r.margins.top == a.top)
      && (a.right.Some? ==> r.margins.right == a.right)
      && (a.bottom.Some? ==> r.margins.bottom == a.bottom)
    ensures var r, r0 := Resolve(s, a), Resolve(s, a.(left := None));
      r == r0.(margins := r0.margins.(left := r.margins.left))
    ensures var r, r0 := Resolve(s, a), Resolve(s, a.(top := None));
      r == r0.(margins := r0.margins.(top := r.margins.top))
    ensures var r, r0 := Resolve(s, a), Resolve(s, a.(right := None));
      r == r0.(margins := r0.margins.(right := r.margins.right))
    ensures var r, r0 := Resolve(s, a), Resolve(s, a.(bottom := None));
      r == r0.(margins := r0.margins.(bottom := r.margins.bottom))
  {
    ResolveMatchesPrecedence(s, a);
    ResolveMatchesPrecedence(s, a.(left := None));
    ResolveMatchesPrecedence(s, a.(top := None));
    ResolveMatchesPrecedence(s, a.(right := None));
    ResolveMatchesPrecedence(s, a.(bottom := None));
  }

  /** `flip = true` swaps the width and height that the paper, width and
      height overrides produced, and nothing else; `flip = false` is the
      same as no `flip` key. */
  lemma FlipSwapsFinalSize(s: PageStyle, a: PageArgs)
    ensures var r, r0 := Resolve(s, a.(flip := Some(true))), Resolve(s, a.(flip := None));
      r == r0.(size := Size(r0.size.height, r0.size.width))
    ensures Resolve(s, a.(flip := Some(false))) == Resolve(s, a.(flip := None))
  {
    ResolveMatchesPrecedence(s, a.(flip := Some(true)));
    ResolveMatchesPrecedence(s, a.(flip := Some(false)));
    ResolveMatchesPrecedence(s, a.(flip := None));
  }

  /** Layer order, not the order keys were written in, decides precedence:
      `margins = 10, left = 3` gives `{3, 10, 10, 10}`; `width = 100,
      height = 50, flip = true` gives a 50 by 100 page of class `Custom`. */
  lemma Examples(s: PageStyle)
    ensures var a := PageArgs(None, None, None, Some(Linear(0, 10)), Some(Linear(0, 3)), None, None, None, None, []);
      Resolve(s, a).margins == Sides(Some(Linear(0, 3)), Some(Linear(0, 10)), Some(Linear(0, 10)), Some(Linear(0, 10)))
    ensures var a := PageArgs(None, Some(100), Some(50), None, None, None, None, None, Some(true), [Str("foo")]);
      Resolve(s, a).size == Size(50, 100) && Resolve(s, a).paperClass == Custom
  {
    var a1 := PageArgs(None, None, None, Some(Linear(0, 10)), Some(Linear(0, 3)), None, None, None, None, []);
    var a2 := PageArgs(None, Some(100), Some(50), None, None, None, None, None, Some(true), [Str("foo")]);
    ResolveMatchesPrecedence(s, a1);
    ResolveMatchesPrecedence(s, a2);
  }
}
