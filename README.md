# Ink annotation appearance, in Dafny

This project models the normal-appearance generator of PdfBox-Android's
ink annotation handler, `PDInkAppearanceHandler`. The handler turns a
freehand ink annotation (section 12.5.6.13 of ISO 32000-1) into a content
stream. That stream holds graphics-state operators (section 8.4.4) and
path operators (section 8.5.2) that draw the annotation's strokes.

The model has two layers:

- `InkProgram.Program(annotation, border)` is the operator sequence the
  generator writes, as a pure function. The lemmas beside it state the
  early exits, the fixed graphics-state prefix, and the per-path
  `m`/`l`/`S` shape. They also state the truncating point count, list
  order, and the operator and stroke counts.
- `InkAppearance.InkAppearanceHandler` is the handler's imperative code:
  the guard, the `try` block with its nested loop over the ink list, the
  `catch` that logs, and the `finally` that closes the stream. Its
  `EmitProgram`, `EmitState`, `EmitPaths` and `EmitPath` methods are
  proved against `Program`. `GenerateNormalAppearance` is proved to leave
  the appearance slot alone on an early exit, and to leave it alone and
  log an error when opening the stream fails. Otherwise it binds a fresh,
  closed stream that holds `Written(Program, failure position)`: the whole
  program, or exactly the prefix written before the device failed.

Files:

- `wrappers.dfy`: `Option`, for Java references that may be null.
- `floats.dfy`: Java `float` values (finite reals, -0.0, the infinities,
  NaN) and `Float.compare`.
- `ink_program.dfy`: the annotation, border, operator datatypes, `Program`
  and its properties.
- `content_stream.dfy`: the content stream class, the device behaviour
  (`Io`), and `Written`.
- `ink_handler.dfy`: the handler class.

Inputs that are parameters here:

- The border pair `(width, dashArray)` that `AnnotationBorder` resolves is
  a constructor argument of the handler.
- Device failures are the `Io` argument: whether opening the appearance
  stream fails, and the position of the first write that fails.
- `Log.e` becomes the `errorLogged` result.

The guard at line 61 refuses only a width that `Float.compare(width, 0)`
finds equal to 0, which is +0.0 alone. A negative width, -0.0 and NaN
pass it, as `InkProgram.EarlyExit` states.

## Model

| member | source | states |
|---|---|---|
| `Floats.Compare` | library/src/main/java/com/tom_roush/pdfbox/pdmodel/interactive/annotation/handlers/PDInkAppearanceHandler.java:61 | `Float.compare` as a sign in -1..1, zero exactly when the two values are the same float (so -0.0 differs from +0.0 and NaN equals NaN) |
| `Floats.CompareWithZero` | library/src/main/java/com/tom_roush/pdfbox/pdmodel/interactive/annotation/handlers/PDInkAppearanceHandler.java:61 | only +0.0 compares equal to the literal `0`; -0.0 compares below it and NaN above it |
| `InkProgram.ShouldDraw` | library/src/main/java/com/tom_roush/pdfbox/pdmodel/interactive/annotation/handlers/PDInkAppearanceHandler.java:61 | defines the guard: a colour is present and has a component, and `Float.compare(width, 0)` is not 0; `InkProgram.EarlyExit` states which inputs it refuses |
| `InkProgram.Program` | library/src/main/java/com/tom_roush/pdfbox/pdmodel/interactive/annotation/handlers/PDInkAppearanceHandler.java:61-102 | defines the whole operator sequence: nothing when the guard refuses, otherwise the state operators followed by the path operators of every path; pinned down by `EarlyExit`, `StateOpsComeFirst`, `DashIff`, `PathOpsShape`, `PathsOpsSplit` and `ProgramCounts`, and used as the specification of every emitting method |
| `InkProgram.EarlyExit` | library/src/main/java/com/tom_roush/pdfbox/pdmodel/interactive/annotation/handlers/PDInkAppearanceHandler.java:60-64 | the program is empty if and only if the colour is null, the colour has no components, or the width is +0.0 |
| `InkProgram.StateOps` | library/src/main/java/com/tom_roush/pdfbox/pdmodel/interactive/annotation/handlers/PDInkAppearanceHandler.java:72-79 | defines the graphics-state prefix: alpha, stroke colour, a dash when the array is non-null, and width; pinned down by `StateOpsComeFirst` and `DashIff` |
| `InkProgram.StateOpsComeFirst` | library/src/main/java/com/tom_roush/pdfbox/pdmodel/interactive/annotation/handlers/PDInkAppearanceHandler.java:72-79 | when drawing, the program starts with set-alpha(opacity), then set-stroke-color(color), and ends its state part with set-width(width); every state operator precedes every path operator, and alpha, colour and width each occur exactly once |
| `InkProgram.DashIff` | library/src/main/java/com/tom_roush/pdfbox/pdmodel/interactive/annotation/handlers/PDInkAppearanceHandler.java:75-78 | when drawing, a set-dash operator occurs if and only if the dash array is non-null, whatever its length; it is then `SetDash(array, 0)` at position 2, and it occurs nowhere else |
| `InkProgram.PointCount` | library/src/main/java/com/tom_roush/pdfbox/pdmodel/interactive/annotation/handlers/PDInkAppearanceHandler.java:83 | the point count n of a flat array of length L is Java's truncating L / 2: 2n <= L < 2n + 2 |
| `InkProgram.PointOp` | library/src/main/java/com/tom_roush/pdfbox/pdmodel/interactive/annotation/handlers/PDInkAppearanceHandler.java:89-99 | defines the operator for point i: a move for the first point, a line otherwise, through coordinates 2i and 2i+1; `PointOpsAt` and `PathOpsShape` state it element by element |
| `InkProgram.PointOps` | library/src/main/java/com/tom_roush/pdfbox/pdmodel/interactive/annotation/handlers/PDInkAppearanceHandler.java:87-100 | the first n points of a path give exactly n operators |
| `InkProgram.PathOps` | library/src/main/java/com/tom_roush/pdfbox/pdmodel/interactive/annotation/handlers/PDInkAppearanceHandler.java:83-101 | defines one path's operators: its points' move and lines, then a stroke; fully determined by `PathOpsShape`, with the truncation stated by `PathOpsDropOddCoordinate` and the vertices by `PathOpsCoords` |
| `InkProgram.PathOpsShape` | library/src/main/java/com/tom_roush/pdfbox/pdmodel/interactive/annotation/handlers/PDInkAppearanceHandler.java:83-101 | a path of n = L/2 points gives n + 1 operators: `MoveTo(p[0], p[1])` first, `LineTo(p[2i], p[2i+1])` for i = 1..n-1 in order, one `Stroke` last and nowhere before; a move occurs only at the start; n = 0 gives a lone stroke |
| `InkProgram.PathOpsDropOddCoordinate` | library/src/main/java/com/tom_roush/pdfbox/pdmodel/interactive/annotation/handlers/PDInkAppearanceHandler.java:83 | appending one coordinate to an even-length array changes none of its operators: a trailing odd coordinate is never emitted |
| `InkProgram.PathOpsCoords` | library/src/main/java/com/tom_roush/pdfbox/pdmodel/interactive/annotation/handlers/PDInkAppearanceHandler.java:83-100 | the vertices a path's operators draw, read back in order, are exactly the array's first 2·(L/2) coordinates |
| `InkProgram.PathsOps` | library/src/main/java/com/tom_roush/pdfbox/pdmodel/interactive/annotation/handlers/PDInkAppearanceHandler.java:81-102 | defines the operators of the first j paths of the ink list, in list order; pinned down by `PathsOpsSplit`, `PathsOpsAppend`, `PathsOpsPrefix`, `PathsOpsLength` and `PathsOpsStrokes` |
| `InkProgram.PathsOpsSplit` | library/src/main/java/com/tom_roush/pdfbox/pdmodel/interactive/annotation/handlers/PDInkAppearanceHandler.java:81-102 | paths are emitted in ink-list order: the operators of path k come after those of all earlier paths and before those of all later ones |
| `InkProgram.PathsOpsAppend` | library/src/main/java/com/tom_roush/pdfbox/pdmodel/interactive/annotation/handlers/PDInkAppearanceHandler.java:81-102 | the operators of two concatenated ink lists are the operators of the first list followed by those of the second |
| `InkProgram.PathsOpsPrefix` | library/src/main/java/com/tom_roush/pdfbox/pdmodel/interactive/annotation/handlers/PDInkAppearanceHandler.java:81-102 | the operators of the first i paths are a prefix of those of the first j paths, for i <= j |
| `InkProgram.PathsOpsLength` | library/src/main/java/com/tom_roush/pdfbox/pdmodel/interactive/annotation/handlers/PDInkAppearanceHandler.java:81-102 | the path part of the program has, per path, its point count plus one operators |
| `InkProgram.PathsOpsStrokes` | library/src/main/java/com/tom_roush/pdfbox/pdmodel/interactive/annotation/handlers/PDInkAppearanceHandler.java:81-102 | the path part of the program has exactly one stroke per path |
| `InkProgram.ProgramCounts` | library/src/main/java/com/tom_roush/pdfbox/pdmodel/interactive/annotation/handlers/PDInkAppearanceHandler.java:72-102 | when drawing, the program has as many strokes as the ink list has paths, and 3 operators, plus 1 with a dash, plus n + 1 for each path of n points |
| `InkProgram.ExampleOnePath` | library/src/main/java/com/tom_roush/pdfbox/pdmodel/interactive/annotation/handlers/PDInkAppearanceHandler.java:72-101 | black, opacity 1, width 2, no dash and the path (0,0) (10,0) (10,10) give alpha, colour, width, one move, two lines and a stroke |
| `InkProgram.ExampleEmptyDashAndOnePoint` | library/src/main/java/com/tom_roush/pdfbox/pdmodel/interactive/annotation/handlers/PDInkAppearanceHandler.java:75-101 | an empty dash array still gives a set-dash operator, and a path of three coordinates gives one move and a stroke |
| `ContentStreams.Written` | library/src/main/java/com/tom_roush/pdfbox/pdmodel/interactive/annotation/handlers/PDInkAppearanceHandler.java:68-107 | what a stream that fails at position k holds after a program is written to it: always a prefix of the program; the whole program exactly when k is absent or at least the program's length; otherwise exactly k operators |
| `ContentStreams.ContentStream.Write` | library/src/main/java/com/tom_roush/pdfbox/pdmodel/interactive/annotation/handlers/PDInkAppearanceHandler.java:74-101 | a write succeeds, appending its operator, exactly when the stream is open and the device does not fail at this position; a failed write changes nothing |
| `ContentStreams.ContentStream.Close` | library/src/main/java/com/tom_roush/pdfbox/pdmodel/interactive/annotation/handlers/PDInkAppearanceHandler.java:110 | closing marks the stream closed and keeps what was written |
| `InkAppearance.InkAppearanceHandler.EmitProgram` | library/src/main/java/com/tom_roush/pdfbox/pdmodel/interactive/annotation/handlers/PDInkAppearanceHandler.java:68-103 | the `try` block leaves the fresh stream holding `Written(Program, failure position)`, and reports success exactly when no write of the program failed |
| `InkAppearance.InkAppearanceHandler.EmitState` | library/src/main/java/com/tom_roush/pdfbox/pdmodel/interactive/annotation/handlers/PDInkAppearanceHandler.java:72-79 | writes alpha, colour, dash when present, and width, in that order, stopping at the first failed write |
| `InkAppearance.InkAppearanceHandler.EmitPaths` | library/src/main/java/com/tom_roush/pdfbox/pdmodel/interactive/annotation/handlers/PDInkAppearanceHandler.java:81-102 | the outer loop appends the operators of every path in list order, and stops at the first failed write with exactly the prefix written so far |
| `InkAppearance.InkAppearanceHandler.EmitPath` | library/src/main/java/com/tom_roush/pdfbox/pdmodel/interactive/annotation/handlers/PDInkAppearanceHandler.java:83-101 | the inner loop and the stroke append one path's operators, and stop at the first failed write with exactly the prefix written so far |
| `InkAppearance.InkAppearanceHandler.GenerateNormalAppearance` | library/src/main/java/com/tom_roush/pdfbox/pdmodel/interactive/annotation/handlers/PDInkAppearanceHandler.java:55-112 | on an early exit nothing is opened, the slot is unchanged and nothing is logged; if opening fails, the slot is unchanged and the error is logged; otherwise a fresh stream is bound, closed, and holds the program or the prefix written before a failure, and an error is logged exactly when a write failed |
| `InkAppearance.InkAppearanceHandler.GenerateRolloverAppearance` | library/src/main/java/com/tom_roush/pdfbox/pdmodel/interactive/annotation/handlers/PDInkAppearanceHandler.java:114-118 | generates nothing and leaves the appearance slot unchanged |
| `InkAppearance.InkAppearanceHandler.GenerateDownAppearance` | library/src/main/java/com/tom_roush/pdfbox/pdmodel/interactive/annotation/handlers/PDInkAppearanceHandler.java:120-124 | generates nothing and leaves the appearance slot unchanged |
| `InkAppearance.InkAppearanceHandler.GenerateAppearanceStreams` | library/src/main/java/com/tom_roush/pdfbox/pdmodel/interactive/annotation/handlers/PDInkAppearanceHandler.java:46-52 | runs normal, rollover and down generation in that order; the outcome is that of normal generation, whose failures never stop the other two |

## Left out

- `AnnotationBorder.getAnnotationBorder` (line 59) is not part of this model. Its resolved `(width, dashArray)` pair is an input of the handler.
- `getNormalAppearanceAsContentStream` and `setOpacity` (lines 70 and 72) belong to the abstract handler, which is not part of this model. Opacity is always one `SetAlpha` operator; any condition inside the unseen `setOpacity` under which it writes nothing (for example for an opacity of 1) is not captured, so `InkProgram.ExampleOnePath` states the model's program, not the library's output for that opacity. Opening is a fresh stream bound to the normal-appearance slot, or a failure that leaves the slot unchanged; any side effect the unseen code has before it fails is not modelled.
- Serialising operators to bytes (`PDAppearanceContentStream`) and resolving the colour space (`PDColor`) are library code outside this core. An operator is a datatype value, and a colour is its list of components.
- `Log.e` (line 106) is logging; the model keeps only the fact that an error was logged. `IOUtils.closeQuietly` (line 110) is kept only as its effect: the stream is closed.
- Floating point: coordinates, widths, opacities and colour components are only copied, so a finite `float` is an unrounded `real`. Only the special values that `Float.compare` treats apart are kept. A non-finite width or coordinate is written like any other value; whether the operand serialiser accepts it, or throws an unchecked exception that the `catch` at line 104 does not catch, is not modelled.
- The constructors and the `PDDocument` and annotation object model (lines 36-44, 57) are not modelled. The handler's Dafny constructor only stores the annotation's state and its resolved border.
- The handler's `try` block is one Java method. Here it is split into `EmitState`, `EmitPaths` (outer loop) and `EmitPath` (inner loop and stroke), with the same loops and the same order of writes.
