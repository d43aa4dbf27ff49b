# Functional-block diagram rasteriser, modelled in Dafny

The image generator renders an IEC 61499 function-block type, read from its
XML description, as an 800 x 600 RGB picture. It starts from a white
background. It draws the main block as a black outline sized to the block's
interface, with pins on both sides:

- event inputs and outputs, each with a line and a green triangle on the first row;
- input and output variables, each with a line and a blue triangle;
- marker squares, and a vertical connector through the left-hand markers.

Every drawing primitive (Bresenham line with a square brush, rectangle,
square, right-pointing triangle) writes the bytes of a row-major RGB buffer
and drops pixels that fall outside the canvas.

This project models that core:

- `raster.dfy` (module `Raster`): the canvas size, the pixel-to-byte layout,
  and C++ truncating division by two.
- `shapes.dfy` (module `Shapes`): which pixels each primitive paints.
  - The Bresenham walk of `drawLine` is the function `Trace`, and its error term is an invariant.
  - Rectangle, square and triangle are predicates over pixels.
  - `RenderByte` is the value a byte ends with after a sequence of primitive calls.
- `canvas.dfy` (module `Drawing`): class `Canvas` over the byte array. The
  primitives are methods with the source's loops, each proved to paint exactly
  its region and leave every other byte unchanged.
- `xml_tree.dfy` (module `XmlTree`): the parsed XML element, the datatype
  `XmlNode` with the name, value, attribute map and children of the parser's
  `XmlNode` record (src/xml_parser.h:8-13), and the attribute lookup with a
  fallback value.
- `interface.dfy` (module `FunctionBlock`): the interface record.
  - `InterfaceOf` is its specification.
  - `ExtractInterface` is the extraction loops, proved equal to `InterfaceOf`.
  - Lemmas characterise name and version defaults, membership and document order.
- `layout.dfy` (module `Layout`): block geometry, pin rows, and the exact
  sequence of shapes a diagram is drawn with (`DiagramShapes`), with lemmas
  about the layout.
- `diagram.dfy` (module `Diagram`): `drawFBDiagram` and `createFBImage` as methods.
  Each one is proved to leave every byte equal to the background with
  `DiagramShapes` drawn over it in order.

Text is not drawn. The model follows the generator when no font could be
loaded: `drawText` then returns at once. The text widths that size the block
are a parameter `textWidth(text, fontSize)`.

The layout lemmas record four behaviours of the source's arithmetic:

- **Variable pins can fall below the block.** With no events and five or more
  variable rows, the last variable pin lies below the block's bottom edge
  (`LastVarRowBelowBlock`).
- **Event and variable pins can collide.** With seven or more event inputs, no
  more event outputs than event inputs, one input variable and at most one
  output variable, the last event row meets or passes the first variable row
  (`EventAndVarRowsCollide`).
- **The connector can be skipped.** With event inputs, the first left row is 25
  pixels below the top of the block. A block 650 pixels tall or more, for
  example one with 23 event inputs, starts 25 or more pixels above the canvas,
  so that row is not positive and the connector is skipped even though there
  are many rows; a shorter block draws it whenever there are two left rows or
  more (`TallBlockSkipsConnector`). Without event inputs the first left row is
  below the middle of the block, and two or more input variables always get
  the connector (`VarConnectorAlwaysDrawn`).
- **Flat outlines still paint.** An outline rectangle of height 0 and positive
  width still paints two rows, y and y-1, over its columns (`FlatOutlinePaints`).

The connector is drawn only when the guard at src/image_generator.cpp:505
holds (`firstLineY > 0 && lastLineY > 0 && firstLineY != lastLineY`): there
must be two left-hand rows or more, and the first of them must be positive.

## Model

| member | source | states |
|---|---|---|
| Raster.Half | src/image_generator.cpp:380-381 | C++ `a / 2`: the remainder has the sign of `a` (truncation toward zero), unlike Dafny's Euclidean division |
| Raster.Channel | src/image_generator.cpp:532-534 | byte `i` of a pixel takes channel `i` of the colour: r, g, b in that order |
| Raster.InBounds | src/image_generator.cpp:530 | the clipping test `px >= 0 && px < 800 && py >= 0 && py < 600` every primitive applies before it writes |
| Raster.PixelIndex | src/image_generator.cpp:531 | the first byte of pixel (px, py) in the row-major RGB buffer: `(py * 800 + px) * 3` |
| Raster.PixelOf | src/image_generator.cpp:531-534 | the pixel a byte of the buffer belongs to, the inverse of the index computation |
| Raster.PixelIndexInBuffer | src/image_generator.cpp:530-535 | the three bytes `(py*800+px)*3 .. +2` of an in-bounds pixel lie inside the 800*600*3 buffer |
| Raster.PixelOfInBounds | src/image_generator.cpp:65 | every byte of the buffer belongs to an in-bounds pixel |
| Raster.PixelOfIndex | src/image_generator.cpp:531-534 | byte `k` belongs to pixel (px, py) iff it is one of the three bytes from that pixel's index, and `k % 3` is then the channel written |
| Shapes.StartRun | src/image_generator.cpp:518-522 | the fixed quantities of a line: target, `dx = abs(x2 - x1)`, `dy = abs(y2 - y1)`, and the steps `sx`, `sy`, which are -1 unless the coordinate increases |
| Shapes.Step | src/image_generator.cpp:542-550 | one error-term update: `e2 = 2 * err` is tested against `-dy` and then `dx`, each test moving one axis by its sign and adjusting `err` |
| Shapes.StartKeepsInv | src/image_generator.cpp:518-522 | the initial `dx`, `dy`, `sx`, `sy`, `err` satisfy the Bresenham invariant |
| Shapes.StepKeepsInv | src/image_generator.cpp:542-550 | one error-term update away from the target keeps the invariant, moves each axis by at most one pixel, and strictly shortens the distance to the target (termination) |
| Shapes.Trace | src/image_generator.cpp:524-551 | the pixels the `while (true)` loop visits from a cursor: a finite walk that starts at the cursor and ends at the target |
| Shapes.TraceAdvance | src/image_generator.cpp:539-550 | after the brush at the current pixel, the pixels still to visit are the walk from the stepped cursor |
| Shapes.LinePoints | src/image_generator.cpp:516-552 | the brush centres of `drawLine(x1, y1, x2, y2)`: the walk from the initial `dx`, `dy`, `sx`, `sy`, `err` of 518-522 |
| Shapes.LineEndpoints | src/image_generator.cpp:516-552 | `drawLine` terminates; its walk starts at (x1, y1) and ends at (x2, y2) |
| Shapes.TraceInBox | src/image_generator.cpp:542-550 | every visited pixel lies between the cursor and the target on both axes |
| Shapes.TraceConnected | src/image_generator.cpp:542-550 | consecutive visited pixels are distinct 8-neighbours: the line has no gaps |
| Shapes.TraceRow | src/image_generator.cpp:542-550 | with no vertical distance the walk visits exactly the row pixels between cursor and target |
| Shapes.TraceColumn | src/image_generator.cpp:542-550 | with no horizontal distance the walk visits exactly the column pixels between cursor and target |
| Shapes.LineInBox | src/image_generator.cpp:516-552 | every brush centre of a line lies in the bounding box of its end points |
| Shapes.LineHorizontal | src/image_generator.cpp:516-552 | a horizontal line visits exactly the row pixels from min(x1,x2) to max(x1,x2) |
| Shapes.LineVertical | src/image_generator.cpp:516-552 | a vertical line visits exactly the column pixels from min(y1,y2) to max(y1,y2) |
| Shapes.LineNotReversible | src/image_generator.cpp:542-550 | from (x,y) to (x+2,y+1) the walk is (x,y), (x+1,y), (x+2,y+1), but drawn backwards it passes (x+1,y+1): diagonal lines are not direction-symmetric |
| Shapes.InBrush | src/image_generator.cpp:526-529 | a pixel lies in the square brush around a centre: both offsets between `-thickness/2` and `thickness/2` |
| Shapes.BrushCovers | src/image_generator.cpp:526-537 | the pixels painted by the square brushes around a sequence of centres, one brush per loop pass |
| Shapes.LineCovers | src/image_generator.cpp:516-552 | the pixels `drawLine` paints: those in the brush around some centre of the walk |
| Shapes.BrushCoversMembership | src/image_generator.cpp:526-537 | a pixel is painted by the brushes of a walk iff some visited centre's square brush contains it |
| Shapes.LinePaintsEndpoints | src/image_generator.cpp:516-552 | with thickness 1 the line paints its start and its end pixel |
| Shapes.LineHorizontalCovers | src/image_generator.cpp:516-552 | with thickness 1 a horizontal line paints exactly its row run, and the same pixels in either direction |
| Shapes.LineVerticalCovers | src/image_generator.cpp:516-552 | with thickness 1 a vertical line paints exactly its column run, and the same pixels in either direction |
| Shapes.RectCovers | src/image_generator.cpp:555-603 | the pixels `drawRectangle` paints: the rows `y .. y+height-1` by columns `x .. x+width-1` when filled; otherwise rows `y` and `y+height-1` over the columns and columns `x` and `x+width-1` over the rows |
| Shapes.TriangleCovers | src/image_generator.cpp:272-291 | the pixels `drawTriangle` paints: inside the loop bounds and passing the `dx`/`dy` test |
| Shapes.OutlineIsBorder | src/image_generator.cpp:570-600 | a non-empty outline paints exactly the border pixels of the filled rectangle: no interior pixel |
| Shapes.EmptyRectangle | src/image_generator.cpp:557-600 | a filled rectangle with width or height at most 0 paints nothing; an outline paints nothing when both are at most 0 |
| Shapes.FlatOutlinePaints | src/image_generator.cpp:572-584 | an outline with height 0 paints exactly rows y and y-1 over the columns x .. x+width-1, since the top/bottom loop does not test the height; so with positive width it paints two rows, and with width 0 or less nothing |
| Shapes.TriangleRegion | src/image_generator.cpp:272-291 | the triangle covers (px,py) iff 0 <= px-x <= size/2 and abs(py-y) <= size/2 - (px-x); nothing left of the centre column |
| Shapes.Covers | src/image_generator.cpp:266-291 | the pixels one primitive call paints, by kind: line, rectangle, square (a rectangle with corner `(x - size/2, y - size/2)`), triangle |
| Shapes.PaintByte | src/image_generator.cpp:530-535 | one primitive call's effect on byte `k`: its colour's channel `k % 3` when the byte's pixel is on the canvas and covered, the old value otherwise |
| Shapes.RenderByte | src/image_generator.cpp:384-512 | a byte after a sequence of primitive calls, applied in order |
| Shapes.OffCanvasUnchanged | src/image_generator.cpp:530-535 | a primitive none of whose pixels lies on the canvas changes no byte of the buffer |
| Shapes.RenderAppend | src/image_generator.cpp:384-512 | drawing one sequence of primitives and then another is drawing their concatenation |
| Shapes.RenderUncovered | src/image_generator.cpp:384-512 | a byte that no drawn shape covers keeps its value |
| Shapes.RenderLastWins | src/image_generator.cpp:384-512 | a byte covered by a drawn shape holds the colour of the last shape that covers it |
| Drawing.Canvas.constructor | src/image_generator.cpp:65-68 | a fresh buffer of 800*600*3 bytes, every byte 255 (white) |
| Drawing.Canvas.SetPixel | src/image_generator.cpp:530-535 | exactly the three bytes of an in-bounds (px, py) take the colour's channels; an out-of-bounds write changes nothing |
| Drawing.Canvas.PaintBrush | src/image_generator.cpp:526-537 | exactly the pixels of the square from -thickness/2 to thickness/2 around the centre change, to the colour |
| Drawing.Canvas.PaintNext | src/image_generator.cpp:526-537 | one brush added to those already painted by the line loop |
| Drawing.Canvas.BresenhamStep | src/image_generator.cpp:542-550 | the in-place update of `x1`, `y1`, `err` is the specification step `Step` |
| Drawing.Canvas.DrawLine | src/image_generator.cpp:516-552 | exactly the bytes of pixels covered by a brush centred on the Bresenham walk from (x1,y1) to (x2,y2) take the colour; every other byte is unchanged |
| Drawing.Canvas.DrawRectangle | src/image_generator.cpp:555-603 | exactly the bytes of the filled region, or of the four outline runs, take the colour; every other byte is unchanged |
| Drawing.Canvas.DrawSquare | src/image_generator.cpp:266-269 | paints exactly the size x size rectangle with corner (x - size/2, y - size/2) |
| Drawing.Canvas.DrawTriangle | src/image_generator.cpp:272-291 | exactly the bytes of pixels passing the triangle test take the colour; every other byte is unchanged |
| Drawing.Canvas.Draw | src/image_generator.h:31-37 | one primitive call with explicit arguments (defaults `thickness = 1`, `fill = false` written out) paints as its shape says |
| XmlTree.Attr | src/image_generator.cpp:326-327 | the `attributes.find(key)` lookup with a fallback: the attribute's value when the element carries it, the default otherwise |
| FunctionBlock.Collect | src/image_generator.cpp:320-362 | the scan of a child list that keeps the children with one element name, in document order, and maps each to its items |
| FunctionBlock.EventItem | src/image_generator.cpp:325-328 | an `Event` element gives its `Name`, or "Unnamed" |
| FunctionBlock.VarItem | src/image_generator.cpp:341-346 | a `VarDeclaration` gives its `Name` and `Type`, or "Unnamed" and "Unknown" |
| FunctionBlock.SectionEvents | src/image_generator.cpp:324-330 | the events of one `EventInputs` or `EventOutputs` section (the loops at 324-330 and 332-338): its `Event` children in order |
| FunctionBlock.SectionVars | src/image_generator.cpp:340-348 | the variables of one `InputVars` or `OutputVars` section (the loops at 340-348 and 350-358): its `VarDeclaration` children in order |
| FunctionBlock.ListEventInputs | src/image_generator.cpp:322-330 | the event inputs of one `InterfaceList`: the events of its `EventInputs` sections in order |
| FunctionBlock.ListEventOutputs | src/image_generator.cpp:331-338 | the event outputs of one `InterfaceList`: the events of its `EventOutputs` sections in order |
| FunctionBlock.ListInputVars | src/image_generator.cpp:339-348 | the input variables of one `InterfaceList`: the variables of its `InputVars` sections in order |
| FunctionBlock.ListOutputVars | src/image_generator.cpp:349-358 | the output variables of one `InterfaceList`: the variables of its `OutputVars` sections in order |
| FunctionBlock.IsVersion | src/image_generator.cpp:303-305 | a child that sets the version: a `VersionInfo` element carrying a `Version` attribute |
| FunctionBlock.VersionOf | src/image_generator.cpp:301-309 | the `Version` of the last `VersionInfo` child that carries one, or "1.0" |
| FunctionBlock.InterfaceOf | src/image_generator.cpp:295-362 | the block name (`Name`, or "Unknown"), the version, and the four pin lists gathered from every `InterfaceList` child |
| FunctionBlock.CollectMembership | src/image_generator.cpp:320-362 | an item is collected iff a child with the tested element name yields it |
| FunctionBlock.CollectAppend | src/image_generator.cpp:320-362 | scanning concatenated child lists appends the results: document order is kept |
| FunctionBlock.CollectSkips | src/image_generator.cpp:320-362 | children with other element names contribute nothing |
| FunctionBlock.SectionsEventMembership | src/image_generator.cpp:323-338 | the events of the sections with a given name are exactly the named (or "Unnamed") `Event` children |
| FunctionBlock.SectionsVarMembership | src/image_generator.cpp:339-358 | the variables of the sections with a given name are exactly the `VarDeclaration` children, with "Unnamed" and "Unknown" for missing attributes |
| FunctionBlock.EventInputMembership | src/image_generator.cpp:320-330 | an event input is listed iff an `Event` inside `EventInputs` inside an `InterfaceList` child carries that name (or none, for "Unnamed") |
| FunctionBlock.EventOutputMembership | src/image_generator.cpp:331-338 | the same for `EventOutputs` |
| FunctionBlock.InputVarMembership | src/image_generator.cpp:339-348 | an input variable is listed iff a `VarDeclaration` inside `InputVars` inside an `InterfaceList` carries that name and type (defaults "Unnamed", "Unknown") |
| FunctionBlock.OutputVarMembership | src/image_generator.cpp:349-358 | the same for `OutputVars` |
| FunctionBlock.NoInterfaceList | src/image_generator.cpp:320-321 | without an `InterfaceList` child all four pin lists are empty |
| FunctionBlock.VersionDefault | src/image_generator.cpp:301-309 | without a `VersionInfo` child carrying `Version` the version is "1.0" |
| FunctionBlock.VersionLastWins | src/image_generator.cpp:301-309 | otherwise the last such child's `Version` is the version |
| FunctionBlock.PushEvents | src/image_generator.cpp:324-330 | the inner loop appends the section's events, in order, to the list |
| FunctionBlock.PushVars | src/image_generator.cpp:340-348 | the inner loop appends the section's variables, in order, to the list |
| FunctionBlock.ScanInterfaceList | src/image_generator.cpp:322-360 | each section of an `InterfaceList` goes to the list its name selects; the four lists grow by the list's pins |
| FunctionBlock.ExtractInterface | src/image_generator.cpp:295-362 | the name lookup, version scan and pin scan produce exactly the specified interface |
| Layout.MaxEvents | src/image_generator.cpp:369 | the number of event rows: the longer of the event input and output lists |
| Layout.MaxVars | src/image_generator.cpp:370 | the number of variable rows: the longer of the input and output variable lists |
| Layout.BlockOf | src/image_generator.cpp:369-381 | width is the largest of 200 and the text widths plus 40; height is the larger of 100 and 80 + 25 per event row + 20 per variable row; both margins differ by at most one pixel, the odd pixel going right/down when the block fits and left/up when it does not |
| Layout.EventRow | src/image_generator.cpp:398-400 | event pin `i` lies on row `y + 25 + i * 22`, on both sides |
| Layout.VarRow | src/image_generator.cpp:444-446 | variable pin `i` lies on row `y + height/2 + 20 + i * 18` (truncating), on both sides |
| Layout.SquareX | src/image_generator.cpp:395 | the marker squares are in column `x - 15` |
| Layout.EventInputPin | src/image_generator.cpp:399-421 | an event input draws its marker square, the line to the block, the line out to the left, and on the first row a green triangle |
| Layout.EventOutputPin | src/image_generator.cpp:425-441 | an event output draws a green triangle on the first row, then the line out to the right |
| Layout.InputVarPin | src/image_generator.cpp:445-465 | an input variable draws its marker square, the two lines and a blue triangle |
| Layout.OutputVarPin | src/image_generator.cpp:469-483 | an output variable draws a blue triangle and the line out to the right |
| Layout.Pins | src/image_generator.cpp:399-483 | the shapes of pins 0 .. n-1 of one kind in drawing order, as each of the four pin loops (399, 425, 445, 469) draws them |
| Layout.FirstLeftRow | src/image_generator.cpp:490-495 | the first left row: the first event input's, else the first input variable's |
| Layout.LastLeftRow | src/image_generator.cpp:497-502 | the last left row: the last input variable's, else the last event input's |
| Layout.Connector | src/image_generator.cpp:486-512 | the vertical line through the markers and a square at each end, drawn when both end rows are positive and differ |
| Layout.Frame | src/image_generator.cpp:384 | the black outline of the main block |
| Layout.DiagramShapes | src/image_generator.cpp:384-512 | every primitive call of the diagram in source order: frame, event inputs, event outputs, input variables, output variables, connector |
| Layout.DiagramOf | src/image_generator.cpp:294-512 | the diagram of a parsed block type, the name measured at font size 12 and "v" and the version at size 8 |
| Layout.PinsMembership | src/image_generator.cpp:399-483 | a shape belongs to pins 0..n-1 iff one of those pins draws it |
| Layout.PinsStraight | src/image_generator.cpp:399-483 | every line a pin draws is horizontal with thickness 1 |
| Layout.DiagramLinesStraight | src/image_generator.cpp:384-512 | every line of a diagram is horizontal or vertical with thickness 1, so it paints exactly its run whichever way it is drawn |
| Layout.EmptyInterfaceDrawsFrameOnly | src/image_generator.cpp:369-512 | a block without pins, with name and version at most 160 wide, is only the 200 x 100 outline at (300, 250) |
| Layout.SingleEventBlock | src/image_generator.cpp:369-441 | one event input, one event output, no variables, and name and version narrower than 160 pixels: a 200 x 105 block at (300, 247), the seven shapes listed in order, green triangles at (300, 272) and (495, 272), no connector |
| Layout.EventRowsInside | src/image_generator.cpp:373-400 | every event row lies strictly between the top and bottom edges of the block |
| Layout.VarRowsInside | src/image_generator.cpp:373-446 | with at most four variable rows every variable row lies strictly inside the block |
| Layout.LastVarRowBelowBlock | src/image_generator.cpp:373-446 | with no events and five or more variable rows the last variable pin is below the bottom edge |
| Layout.EventAndVarRowsCollide | src/image_generator.cpp:398-446 | seven or more event inputs, no more event outputs than event inputs, one input variable and at most one output variable put the last event row at or below the first variable row |
| Layout.ConnectorDrawn | src/image_generator.cpp:486-512 | two or more left rows have first row above last; the connector is drawn iff there are two or more left rows and the first one is positive |
| Layout.ConnectorSpan | src/image_generator.cpp:502-510 | when drawn, the connector is a line in the marker column from the first to the last left row |
| Layout.TallBlockSkipsConnector | src/image_generator.cpp:486-512 | with event inputs, a block 650 or more tall draws no connector, and a shorter one draws it whenever there are two or more left rows |
| Layout.VarConnectorAlwaysDrawn | src/image_generator.cpp:486-512 | without event inputs, two or more input variables always draw the connector, however tall the block |
| Layout.TwentyThreeEventsAreTall | src/image_generator.cpp:369-377 | 23 event inputs make the block at least 650 tall |
| Diagram.Stamp | src/image_generator.cpp:384-512 | one more primitive call extends the drawn shape sequence by that shape |
| Diagram.DrawEventInputs | src/image_generator.cpp:398-421 | the event-input loop draws exactly the event-input pins in order |
| Diagram.DrawEventOutputs | src/image_generator.cpp:424-441 | the event-output loop draws exactly the event-output pins in order |
| Diagram.DrawInputVars | src/image_generator.cpp:444-465 | the input-variable loop draws exactly the input-variable pins in order |
| Diagram.DrawOutputVars | src/image_generator.cpp:468-483 | the output-variable loop draws exactly the output-variable pins in order |
| Diagram.DrawConnector | src/image_generator.cpp:486-512 | the connector block draws exactly the specified connector shapes |
| Diagram.DrawFBDiagram | src/image_generator.cpp:294-513 | every byte ends as its former value with the diagram's shapes drawn over it in order |
| Diagram.CreateFBImage | src/image_generator.cpp:61-71 | every byte of the new image is white with the diagram's shapes drawn over it |

## Left out

- drawText: text rendering through FreeType (glyph bitmaps, float alpha blending, the italic shear) is not modelled. The model is the generator without a loaded font, where drawText returns at once, so labels, names and types draw nothing.
- getTextWidth: the width of a string comes from FreeType, or from a double-precision estimate without a font. Both are replaced by the parameter `textWidth`.
- The constructor, the destructor and font initialisation are left out. They probe font files and manage the FreeType library.
- The PNG encoding and writing in createFBImage, and its success result, are left out. They are a call into an image-writing library and file I/O.
- generateImageFromXml is left out. It only forwards to createFBImage.
- The XML parser, the file utilities and the command-line driver are not part of this model. They are I/O around the core; only the shape of the parsed element is kept.
- Console logging is left out.
- Drawing.Canvas.DrawLine: does not model 32-bit `int` overflow of the coordinates, the error term or the buffer index. Integers are unbounded here, which matches the source for every coordinate a diagram produces.
- Layout.BlockOf: does not model 32-bit `int` overflow. The height is `int` arithmetic on `maxEvents` and `maxVars`, which are narrowed from `size_t` (src/image_generator.cpp:369-373), and the width adds 40 to a text width (372). Neither the narrowing nor an overflow of these sums is modelled; integers are unbounded here.
- Layout.EventRow: does not model the `size_t` arithmetic of the row offsets `i * 22` and `i * 18` and its conversion back to `int`. For pin counts that fit in memory it gives the mathematical values used here.
- Drawing.Canvas.DrawRectangle: does not model 32-bit `int` overflow of `x + width`, `y + height` and `y + height - 1` (559-595), or of the buffer index.
- Drawing.Canvas.DrawTriangle: does not model 32-bit `int` overflow of `y + size/2` and `x + size/2` in the loop bounds (274-275), or of the buffer index.
- Drawing.Canvas.DrawSquare: does not model 32-bit `int` overflow of `x - size/2` and `y - size/2` (268).
- Diagram.DrawFBDiagram: calls each primitive through `Canvas.Draw` on a shape value. It does not call the primitive methods by name. The order and the arguments of the calls are those of the source.
- Diagram.DrawFBDiagram: the extraction, the size computation and each drawing loop are separate methods. In the source they are one function.
