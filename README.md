# Page configuration and shape geometry of a document-layout engine

This project models two small pieces of the typst layout engine in Dafny.

- **Page styles** (`src/library/page.rs`). The `page` directive copies the current page style: its paper class, its size and its four optional margins. It applies the overrides that are present in a fixed order: paper preset, `width`, `height`, uniform `margins`, then `left`, `top`, `right` and `bottom`, then `flip`. It reports every argument it did not consume and emits exactly one `SetPageStyle` command. The `pagebreak` directive reports all of its arguments and emits exactly one `BreakPage` command.
- **Shapes** (`src/geom/shape.rs`). A geometry is a line to a point, a rectangle or a bezier path. A shape pairs a geometry with an optional fill and an optional stroke. `Filled` and `Stroked` build a shape with exactly one of the two. `Bounds` gives the axis-aligned bounding box for each kind of geometry.

Files:
- `wrappers.dfy` holds `Option`.
- `geom.dfy` holds points, sizes, `Sides` and `Linear`.
- `paper.dfy` holds paper classes and presets.
- `shape.dfy` is module `Shape`. It is pure: datatypes, functions and lemmas.
- `page.dfy` is module `PageLibrary`. `Page` and `PageBreak` are methods with local mutable state, as `page` and `pagebreak` are in `src/library/page.rs`. They are specified by `Resolve`, which folds a list of override layers in the fixed order. `Precedence` is a second, field-by-field definition that says which layer wins for each field, and `ResolveMatchesPrecedence` proves the two agree. The precedence lemmas are derived from it.

The argument dictionary is modelled after extraction: `PageArgs` has one already-typed optional value per recognised key and the sequence of leftover keys. Each leftover key yields one `UnexpectedArgument` diagnostic, in order.

Two facts of `src/library/page.rs` that the model keeps:
- a paper preset sets the class to the paper's own class (line 27), not to `Custom`;
- `flip` swaps width and height only when its value is `true`, since an absent value defaults to `false` (line 61).

## Model

| member | source | states |
|---|---|---|
| `Shape.Filled` | src/geom/shape.rs:27-29 | keeps the geometry, sets fill to the paint and leaves stroke unset, so exactly one of fill and stroke is set |
| `Shape.Stroked` | src/geom/shape.rs:32-34 | keeps the geometry, sets stroke and leaves fill unset, so exactly one of fill and stroke is set |
| `Shape.Bounds` | src/geom/shape.rs:37-43 | total over the three kinds: a line's box is its end point's components, a rectangle's box is its size, a path's box is what the external path routine returns |
| `Shape.BoundsExtentIff` | src/geom/shape.rs:39-41 | the box is non-negative exactly when the line's end point, the rectangle's size or the path routine's box is; nothing is clamped, so a line drawn backward has a negative box |
| `PageLibrary.Unexpected` | src/library/page.rs:65 | one diagnostic per leftover key, naming that key, in the order of the keys |
| `PageLibrary.Layers` | src/library/page.rs:26-63 | the list of overrides is empty exactly when no paper, size or margin key and no `flip = true` is given |
| `PageLibrary.Page` | src/library/page.rs:22-67 | emits exactly one command, `SetPageStyle` of the folded style, together with one diagnostic per leftover key |
| `PageLibrary.PageBreak` | src/library/page.rs:70-74 | emits exactly one `BreakPage` command with one diagnostic per argument, so none for empty arguments |
| `PageLibrary.SizeLayersEffect` | src/library/page.rs:26-39 | after the paper, width and height overrides, the width (height) is its own key's value, else the paper's, else the prior one; the class is `Custom` if width or height was given, else the paper's, else the prior one; the margins are untouched |
| `PageLibrary.MarginLayersEffect` | src/library/page.rs:41-59 | after the margin overrides, each side is its own key's value, else the uniform value, else the prior one; class and size are untouched |
| `PageLibrary.ResolveMatchesPrecedence` | src/library/page.rs:24-63 | folding the present overrides in the fixed order gives the style that the field-by-field precedence rules describe, with `flip = true` swapping the final width and height |
| `PageLibrary.ResolveIdentity` | src/library/page.rs:24-63 | with no paper, size or margin key and no `flip = true`, the style comes back unchanged |
| `PageLibrary.ResolveIgnoresLeftover` | src/library/page.rs:65-66 | unrecognised keys do not change the resolved style |
| `PageLibrary.PaperSetsClassAndSize` | src/library/page.rs:26-29 | a paper preset without width, height or flip gives the paper's class and size and leaves the margins as they would be without it |
| `PageLibrary.WidthOverridesOnlyWidth` | src/library/page.rs:31-34 | a `width` key makes the class `Custom`, sets the width (the height after a flip) and changes nothing else |
| `PageLibrary.HeightOverridesOnlyHeight` | src/library/page.rs:36-39 | a `height` key makes the class `Custom`, sets the height (the width after a flip) and changes nothing else |
| `PageLibrary.UniformMargins` | src/library/page.rs:41-43 | a `margins` key without side keys sets all four sides to that value, discards the prior margins and leaves class and size alone |
| `PageLibrary.SideKeysWin` | src/library/page.rs:45-59 | each side key wins over the uniform `margins` key and changes only its own side |
| `PageLibrary.FlipSwapsFinalSize` | src/library/page.rs:61-62 | `flip = true` swaps the width and height left by the earlier overrides and changes nothing else; `flip = false` is the same as no `flip` |
| `PageLibrary.Examples` | src/library/page.rs:41-62 | `margins = 10, left = 3` gives margins 3, 10, 10, 10; `width = 100, height = 50, flip = true` gives a 50 by 100 page of class `Custom`, even with an unknown key present |

## Left out

- Asynchronous execution, `Span` and `LayoutContext` are not modelled. The current page style is a parameter of `Page`.
- PageLibrary.Page: its diagnostics are only those for leftover keys. In `src/library/page.rs` every `take_key` call (lines 31-61) may also record a type-mismatch diagnostic before `unexpected` runs (line 65); those are not modelled, and a value of the wrong type counts as absent.
- Argument extraction (`DictValue::take`, `take_key`, `unexpected`) is not modelled beyond its results. Each recognised key has an optional value, and each leftover key yields one diagnostic.
- The wording of diagnostics and how `Feedback` reaches the user are not modelled.
- The paper preset database and `Paper::size()` are not modelled. A preset is the pair of its class and its size. The paper module itself is not part of this model; its classes other than `Custom` only need to be distinct.
- Lengths are integers rather than floating-point numbers, because the code only assigns and swaps them. `Linear` is never resolved against the page size.
- The bezier path bounding-box routine is not modelled. It is the parameter `pathBounds` of `Shape.Bounds`.
- The contents of `Paint` and `Stroke` are not modelled. An identifier stands for each.
