/**
 * The layout half of drawFBDiagram: the size and position of the main block,
 * the rows of the pins on either side, and the sequence of shapes the
 * diagram is drawn with. Text is not drawn (the generator without a font
 * draws no glyphs), so the sequence holds only lines, rectangles, squares and
 * triangles; the text widths that size the block are parameters.
 */
module Layout {
  import opened Raster
  import opened Shapes
  import opened FunctionBlock

  /** The main block: top-left corner, width and height. */
  datatype Block = Block(x: int, y: int, width: int, height: int)

  /** The number of pin rows the events need: the longer of the two event lists. */
  function MaxEvents(iface: Interface): nat {
    if |iface.eventInputs| < |iface.eventOutputs| then |iface.eventOutputs| else |iface.eventInputs|
  }

  /** The number of pin rows the variables need. */
  function MaxVars(iface: Interface): nat {
    if |iface.inputVars| < |iface.outputVars| then |iface.outputVars| else |iface.inputVars|
  }

  /**
   * The main block of a diagram: wide enough for the name and the version
   * with 20 pixels to spare on each side, tall enough for 25 pixels per event
   * row and 20 per variable row plus 80, never smaller than 200 x 100, and
   * centred on the canvas with C++ truncating division, so that an odd
   * leftover pixel goes to the right (or bottom) margin when the block fits
   * and to the left (or top) margin when it does not.
   */
  function BlockOf(iface: Interface, nameWidth: int, versionWidth: int): (b: Block)
    ensures b.width >= 200 && b.width >= nameWidth + 40 && b.width >= versionWidth + 40
    ensures b.width == 200 || b.width == nameWidth + 40 || b.width == versionWidth + 40
    ensures b.height >= 100 && b.height >= 80 + 25 * MaxEvents(iface) + 20 * MaxVars(iface)
    ensures b.height == 100 || b.height == 80 + 25 * MaxEvents(iface) + 20 * MaxVars(iface)
    ensures Abs((Width - (b.x + b.width)) - b.x) <= 1 && Abs((Height - (b.y + b.height)) - b.y) <= 1
    ensures b.width <= Width ==> b.x <= Width - (b.x + b.width)
    ensures b.width > Width ==> Width - (b.x + b.width) <= b.x
    ensures b.height <= Height ==> b.y <= Height - (b.y + b.height)
    ensures b.height > Height ==> Height - (b.y + b.height) <= b.y
  {
    var width := Max(Max(200, Max(nameWidth, versionWidth) + 40), 200);
    var height := Max(80 + MaxEvents(iface) * 25 + MaxVars(iface) * 20, 100);
    Block(Half(Width - width), Half(Height - height), width, height)
  }

  /** The row of the `i`-th event pin, on either side. */
  function EventRow(b: Block, i: int): int {
    b.y + 25 + i * 22
  }

  /** The row of the `i`-th variable pin, on either side: they start below the middle. */
  function VarRow(b: Block, i: int): int {
    b.y + Half(b.height) + 20 + i * 18
  }

  /** The column of the marker squares on the left. */
  function SquareX(b: Block): int {
    b.x - 15
  }

  /**
   * An event input: a marker square, a line from it to the block, a line out
   * to the left, and a green triangle on the first one only.
   */
  function EventInputPin(b: Block, i: nat): seq<Shape> {
    var r := EventRow(b, i);
    [Square(SquareX(b), r, 8, Black, false),
     Line(SquareX(b), r, b.x, r, Black, 1),
     Line(b.x - 30, r, SquareX(b), r, Black, 1)]
    + (if i == 0 then [Triangle(b.x, r, 10, Green)] else [])
  }

  /** An event output: a green triangle on the first one, and a line out to the right. */
  function EventOutputPin(b: Block, i: nat): seq<Shape> {
    var r := EventRow(b, i);
    (if i == 0 then [Triangle(b.x + b.width - 5, r, 10, Green)] else [])
    + [Line(b.x + b.width, r, b.x + b.width + 30, r, Black, 1)]
  }

  /** An input variable: a marker square, the two lines, and a blue triangle. */
  function InputVarPin(b: Block, i: nat): seq<Shape> {
    var r := VarRow(b, i);
    [Square(SquareX(b), r, 8, Black, false),
     Line(SquareX(b), r, b.x, r, Black, 1),
     Line(b.x - 45, r, SquareX(b), r, Black, 1),
     Triangle(b.x, r, 8, Blue)]
  }

  /** An output variable: a blue triangle and a line out to the right. */
  function OutputVarPin(b: Block, i: nat): seq<Shape> {
    var r := VarRow(b, i);
    [Triangle(b.x + b.width - 5, r, 8, Blue),
     Line(b.x + b.width, r, b.x + b.width + 45, r, Black, 1)]
  }

  /** The shapes of pins 0 .. n-1 of one kind, in drawing order. */
  function Pins(b: Block, n: nat, pin: (Block, nat) -> seq<Shape>): seq<Shape> {
    if n == 0 then [] else Pins(b, n - 1, pin) + pin(b, n - 1)
  }

  /** The first left-hand pin row: the first event input, else the first input variable. */
  function FirstLeftRow(b: Block, eventInputs: nat, inputVars: nat): int {
    if eventInputs > 0 then EventRow(b, 0)
    else if inputVars > 0 then VarRow(b, 0)
    else 0
  }

  /** The last left-hand pin row: the last input variable, else the last event input. */
  function LastLeftRow(b: Block, eventInputs: nat, inputVars: nat): int {
    if inputVars > 0 then VarRow(b, inputVars - 1)
    else if eventInputs > 0 then EventRow(b, eventInputs - 1)
    else 0
  }

  /**
   * The vertical connector through the left marker squares with a square at
   * each end, drawn only when both end rows are positive and differ.
   */
  function Connector(b: Block, eventInputs: nat, inputVars: nat): seq<Shape> {
    if eventInputs == 0 && inputVars == 0 then []
    else
      var first := FirstLeftRow(b, eventInputs, inputVars);
      var last := LastLeftRow(b, eventInputs, inputVars);
      if first > 0 && last > 0 && first != last then
        [Line(SquareX(b), first, SquareX(b), last, Black, 1),
         Square(SquareX(b), first, 8, Black, false),
         Square(SquareX(b), last, 8, Black, false)]
      else []
  }

  /** The outline of the main block. */
  function Frame(b: Block): Shape {
    Rectangle(b.x, b.y, b.width, b.height, Black, false)
  }

  /** Every shape of a diagram, in the order drawFBDiagram draws them. */
  function DiagramShapes(iface: Interface, nameWidth: int, versionWidth: int): seq<Shape> {
    var b := BlockOf(iface, nameWidth, versionWidth);
    [Frame(b)]
    + Pins(b, |iface.eventInputs|, EventInputPin)
    + Pins(b, |iface.eventOutputs|, EventOutputPin)
    + Pins(b, |iface.inputVars|, InputVarPin)
    + Pins(b, |iface.outputVars|, OutputVarPin)
    + Connector(b, |iface.eventInputs|, |iface.inputVars|)
  }

  /**
   * The diagram of a parsed block type, the text widths measured by
   * `textWidth(text, fontSize)`: the name at size 12, "v" and the version at 8.
   */
  function DiagramOf(root: XmlTree.XmlNode, textWidth: (string, int) -> int): seq<Shape> {
    var iface := InterfaceOf(root);
    DiagramShapes(iface, textWidth(iface.name, 12), textWidth("v" + iface.version, 8))
  }

  // ---------------------------------------------------------------------
  // Properties of the layout

  /** A shape drawn as a line is horizontal or vertical and one pixel thick. */
  predicate Straight(s: Shape) {
    s.Line? ==> (s.x1 == s.x2 || s.y1 == s.y2) && s.thickness == 1
  }

  /** A shape is among pins 0 .. n-1 exactly when one of those pins draws it. */
  lemma {:induction false} PinsMembership(b: Block, n: nat, pin: (Block, nat) -> seq<Shape>, s: Shape)
    ensures s in Pins(b, n, pin) <==> exists i :: 0 <= i < n && s in pin(b, i)
  {
    if n > 0 {
      PinsMembership(b, n - 1, pin, s);
    }
  }

  /** The pins of each kind contain straight lines only. */
  lemma PinsStraight(b: Block, n: nat, pin: (Block, nat) -> seq<Shape>, s: Shape)
    requires pin == EventInputPin || pin == EventOutputPin || pin == InputVarPin || pin == OutputVarPin
    requires s in Pins(b, n, pin)
    ensures Straight(s)
  {
    PinsMembership(b, n, pin, s);
  }

  /**
   * Every line of a diagram is horizontal or vertical with thickness 1, so
   * each one paints exactly its run of pixels (LineHorizontalCovers,
   * LineVerticalCovers), whichever way it is drawn.
   */
  lemma DiagramLinesStraight(iface: Interface, nameWidth: int, versionWidth: int)
    ensures forall s :: s in DiagramShapes(iface, nameWidth, versionWidth) ==> Straight(s)
  {
    var b := BlockOf(iface, nameWidth, versionWidth);
    forall s | s in DiagramShapes(iface, nameWidth, versionWidth) ensures Straight(s) {
      if s in Pins(b, |iface.eventInputs|, EventInputPin) {
        PinsStraight(b, |iface.eventInputs|, EventInputPin, s);
      } else if s in Pins(b, |iface.eventOutputs|, EventOutputPin) {
        PinsStraight(b, |iface.eventOutputs|, EventOutputPin, s);
      } else if s in Pins(b, |iface.inputVars|, InputVarPin) {
        PinsStraight(b, |iface.inputVars|, InputVarPin, s);
      } else if s in Pins(b, |iface.outputVars|, OutputVarPin) {
        PinsStraight(b, |iface.outputVars|, OutputVarPin, s);
      }
    }
  }

  /** A block type without pins is drawn as the bare 200 x 100 outline. */
  lemma EmptyInterfaceDrawsFrameOnly(iface: Interface, nameWidth: int, versionWidth: int)
    requires iface.eventInputs == [] && iface.eventOutputs == []
    requires iface.inputVars == [] && iface.outputVars == []
    requires nameWidth <= 160 && versionWidth <= 160
    ensures DiagramShapes(iface, nameWidth, versionWidth) == [Rectangle(300, 250, 200, 100, Black, false)]
  {
  }

  /**
   * A block with one event input and one event output and no variables, whose
   * name and version are narrower than 160 pixels: a 200 x 105 block at
   * (300, 247), both green triangles on row 272, and no connector.
   */
  lemma SingleEventBlock(iface: Interface, nameWidth: int, versionWidth: int)
    requires |iface.eventInputs| == 1 && |iface.eventOutputs| == 1
    requires iface.inputVars == [] && iface.outputVars == []
    requires nameWidth < 160 && versionWidth < 160
    ensures BlockOf(iface, nameWidth, versionWidth) == Block(300, 247, 200, 105)
    ensures DiagramShapes(iface, nameWidth, versionWidth) ==
      [Rectangle(300, 247, 200, 105, Black, false),
       Square(285, 272, 8, Black, false),
       Line(285, 272, 300, 272, Black, 1),
       Line(270, 272, 285, 272, Black, 1),
       Triangle(300, 272, 10, Green),
       Triangle(495, 272, 10, Green),
       Line(500, 272, 530, 272, Black, 1)]
  {
    var b := BlockOf(iface, nameWidth, versionWidth);
    assert b == Block(300, 247, 200, 105);
    assert Pins(b, 1, EventInputPin) == EventInputPin(b, 0);
    assert Pins(b, 1, EventOutputPin) == EventOutputPin(b, 0);
  }

  /** Every event row lies strictly inside the block. */
  lemma EventRowsInside(iface: Interface, nameWidth: int, versionWidth: int, i: int)
    requires 0 <= i < MaxEvents(iface)
    ensures var b := BlockOf(iface, nameWidth, versionWidth);
      b.y < EventRow(b, i) < b.y + b.height - 1
  {
  }

  /** With at most four variable rows, every variable row lies inside the block too. */
  lemma VarRowsInside(iface: Interface, nameWidth: int, versionWidth: int, i: int)
    requires 0 <= i < MaxVars(iface) <= 4
    ensures var b := BlockOf(iface, nameWidth, versionWidth);
      b.y < VarRow(b, i) < b.y + b.height - 1
  {
  }

  /**
   * Without events, five or more variable rows push the last variable pin
   * below the bottom edge of the block: the height budget is 20 pixels per
   * row but the rows are 18 apart starting 20 below the middle.
   */
  lemma LastVarRowBelowBlock(iface: Interface, nameWidth: int, versionWidth: int)
    requires MaxEvents(iface) == 0 && MaxVars(iface) >= 5
    ensures var b := BlockOf(iface, nameWidth, versionWidth);
      VarRow(b, MaxVars(iface) - 1) > b.y + b.height - 1
  {
  }

  /**
   * Seven or more event rows with a single variable row make the last event
   * input share or pass the row of the first input variable.
   */
  lemma EventAndVarRowsCollide(iface: Interface, nameWidth: int, versionWidth: int)
    requires |iface.eventInputs| >= 7 && |iface.eventOutputs| <= |iface.eventInputs|
    requires |iface.inputVars| == 1 && |iface.outputVars| <= 1
    ensures var b := BlockOf(iface, nameWidth, versionWidth);
      EventRow(b, |iface.eventInputs| - 1) >= VarRow(b, 0)
  {
  }

  /**
   * Two or more left-hand rows always have distinct first and last rows, the
   * first one above; so the connector is drawn exactly when there are two or
   * more left-hand rows and the first one is below the top of the canvas.
   */
  lemma ConnectorDrawn(b: Block, eventInputs: nat, inputVars: nat)
    requires b.height >= 100
    ensures eventInputs + inputVars >= 2 ==>
      FirstLeftRow(b, eventInputs, inputVars) < LastLeftRow(b, eventInputs, inputVars)
    ensures Connector(b, eventInputs, inputVars) != [] <==>
      eventInputs + inputVars >= 2 && FirstLeftRow(b, eventInputs, inputVars) > 0
  {
  }

  /** When drawn, the connector joins the first and last left rows in the marker column. */
  lemma ConnectorSpan(b: Block, eventInputs: nat, inputVars: nat)
    requires b.height >= 100
    requires Connector(b, eventInputs, inputVars) != []
    ensures var c := Connector(b, eventInputs, inputVars);
      |c| == 3 && c[0] == Line(SquareX(b), FirstLeftRow(b, eventInputs, inputVars),
                               SquareX(b), LastLeftRow(b, eventInputs, inputVars), Black, 1)
  {
  }

  /**
   * With event inputs the first left row is 25 below the top of the block, so
   * a block 650 pixels tall or more, which starts 25 or more pixels above the
   * canvas, skips the connector however many left rows there are; a shorter
   * one draws it whenever there are two or more left rows.
   */
  lemma TallBlockSkipsConnector(iface: Interface, nameWidth: int, versionWidth: int)
    requires |iface.eventInputs| > 0
    ensures var b := BlockOf(iface, nameWidth, versionWidth);
      b.height >= 650 ==> Connector(b, |iface.eventInputs|, |iface.inputVars|) == []
    ensures var b := BlockOf(iface, nameWidth, versionWidth);
      b.height < 650 && |iface.eventInputs| + |iface.inputVars| >= 2 ==>
        Connector(b, |iface.eventInputs|, |iface.inputVars|) != []
  {
    var b := BlockOf(iface, nameWidth, versionWidth);
    ConnectorDrawn(b, |iface.eventInputs|, |iface.inputVars|);
  }

  /**
   * Without event inputs the first left row is the first input variable's,
   * 20 below the middle of the block, which lies inside the canvas however
   * tall the block is: two or more input variables always get the connector.
   */
  lemma VarConnectorAlwaysDrawn(iface: Interface, nameWidth: int, versionWidth: int)
    requires |iface.eventInputs| == 0 && |iface.inputVars| >= 2
    ensures Connector(BlockOf(iface, nameWidth, versionWidth), 0, |iface.inputVars|) != []
  {
    var b := BlockOf(iface, nameWidth, versionWidth);
    ConnectorDrawn(b, 0, |iface.inputVars|);
  }

  /** 23 event inputs make the block at least 650 pixels tall. */
  lemma TwentyThreeEventsAreTall(iface: Interface, nameWidth: int, versionWidth: int)
    requires |iface.eventInputs| >= 23
    ensures BlockOf(iface, nameWidth, versionWidth).height >= 650
  {
  }
}
