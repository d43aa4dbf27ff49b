/**
 * drawFBDiagram and createFBImage: extract the interface, size the block,
 * then draw the frame, the four pin groups and the connector onto the
 * canvas, one primitive at a time. The resulting buffer is the one the
 * shape sequence of Layout describes.
 */
module Diagram {
  import opened Raster
  import opened Shapes
  import opened Drawing
  import opened XmlTree
  import opened FunctionBlock
  import opened Layout

  /** Every byte of the canvas is `orig` with `shapes` drawn over it in order. */
  ghost predicate Rendered(canvas: Canvas, orig: seq<byte>, shapes: seq<Shape>)
    reads canvas.data
  {
    && |orig| == canvas.data.Length
    && forall k :: 0 <= k < canvas.data.Length ==> canvas.data[k] == RenderByte(orig[k], k, shapes)
  }

  /** Draws one more shape: the canvas then shows `done + [s]`. */
  method Stamp(canvas: Canvas, ghost orig: seq<byte>, ghost done: seq<Shape>, s: Shape)
    returns (ghost done': seq<Shape>)
    requires canvas.Valid() && Rendered(canvas, orig, done)
    modifies canvas.data
    ensures done' == done + [s] && Rendered(canvas, orig, done')
  {
    canvas.Draw(s);
    done' := done + [s];
    assert done'[..|done'| - 1] == done;
  }

  /** The loop over the event inputs: pins 0 .. n-1 on the left. */
  method DrawEventInputs(canvas: Canvas, b: Block, n: nat, ghost orig: seq<byte>, ghost done0: seq<Shape>)
    returns (ghost done: seq<Shape>)
    requires canvas.Valid() && Rendered(canvas, orig, done0)
    modifies canvas.data
    ensures done == done0 + Pins(b, n, EventInputPin) && Rendered(canvas, orig, done)
  {
    done := done0;
    var squareX := b.x - 15;
    var eventInputY := b.y + 25;
    var i := 0;
    while i < n
      invariant 0 <= i <= n
      invariant done == done0 + Pins(b, i, EventInputPin) && Rendered(canvas, orig, done)
    {
      ghost var before := done;
      var currentY := eventInputY + i * 22;
      done := Stamp(canvas, orig, done, Square(squareX, currentY, 8, Black, false));
      done := Stamp(canvas, orig, done, Line(squareX, currentY, b.x, currentY, Black, 1));
      done := Stamp(canvas, orig, done, Line(b.x - 30, currentY, squareX, currentY, Black, 1));
      if i == 0 {
        done := Stamp(canvas, orig, done, Triangle(b.x, currentY, 10, Green));
      }
      assert done == before + EventInputPin(b, i);
      i := i + 1;
    }
  }

  /** The loop over the event outputs: pins 0 .. n-1 on the right. */
  method DrawEventOutputs(canvas: Canvas, b: Block, n: nat, ghost orig: seq<byte>, ghost done0: seq<Shape>)
    returns (ghost done: seq<Shape>)
    requires canvas.Valid() && Rendered(canvas, orig, done0)
    modifies canvas.data
    ensures done == done0 + Pins(b, n, EventOutputPin) && Rendered(canvas, orig, done)
  {
    done := done0;
    var eventOutputY := b.y + 25;
    var i := 0;
    while i < n
      invariant 0 <= i <= n
      invariant done == done0 + Pins(b, i, EventOutputPin) && Rendered(canvas, orig, done)
    {
      ghost var before := done;
      var currentY := eventOutputY + i * 22;
      if i == 0 {
        done := Stamp(canvas, orig, done, Triangle(b.x + b.width - 5, currentY, 10, Green));
      }
      done := Stamp(canvas, orig, done, Line(b.x + b.width, currentY, b.x + b.width + 30, currentY, Black, 1));
      assert done == before + EventOutputPin(b, i);
      i := i + 1;
    }
  }

  /** The loop over the input variables, below the middle on the left. */
  method DrawInputVars(canvas: Canvas, b: Block, n: nat, ghost orig: seq<byte>, ghost done0: seq<Shape>)
    returns (ghost done: seq<Shape>)
    requires canvas.Valid() && Rendered(canvas, orig, done0)
    modifies canvas.data
    ensures done == done0 + Pins(b, n, InputVarPin) && Rendered(canvas, orig, done)
  {
    done := done0;
    var squareX := b.x - 15;
    var inputStartY := b.y + Half(b.height) + 20;
    var i := 0;
    while i < n
      invariant 0 <= i <= n
      invariant done == done0 + Pins(b, i, InputVarPin) && Rendered(canvas, orig, done)
    {
      ghost var before := done;
      var yPos := inputStartY + i * 18;
      done := Stamp(canvas, orig, done, Square(squareX, yPos, 8, Black, false));
      done := Stamp(canvas, orig, done, Line(squareX, yPos, b.x, yPos, Black, 1));
      done := Stamp(canvas, orig, done, Line(b.x - 45, yPos, squareX, yPos, Black, 1));
      done := Stamp(canvas, orig, done, Triangle(b.x, yPos, 8, Blue));
      assert done == before + InputVarPin(b, i);
      i := i + 1;
    }
  }

  /** The loop over the output variables, below the middle on the right. */
  method DrawOutputVars(canvas: Canvas, b: Block, n: nat, ghost orig: seq<byte>, ghost done0: seq<Shape>)
    returns (ghost done: seq<Shape>)
    requires canvas.Valid() && Rendered(canvas, orig, done0)
    modifies canvas.data
    ensures done == done0 + Pins(b, n, OutputVarPin) && Rendered(canvas, orig, done)
  {
    done := done0;
    var outputStartY := b.y + Half(b.height) + 20;
    var i := 0;
    while i < n
      invariant 0 <= i <= n
      invariant done == done0 + Pins(b, i, OutputVarPin) && Rendered(canvas, orig, done)
    {
      ghost var before := done;
      var yPos := outputStartY + i * 18;
      done := Stamp(canvas, orig, done, Triangle(b.x + b.width - 5, yPos, 8, Blue));
      done := Stamp(canvas, orig, done, Line(b.x + b.width, yPos, b.x + b.width + 45, yPos, Black, 1));
      assert done == before + OutputVarPin(b, i);
      i := i + 1;
    }
  }

  /** The vertical connector through the left markers and its two end squares. */
  method DrawConnector(canvas: Canvas, b: Block, eventInputs: nat, inputVars: nat,
                       ghost orig: seq<byte>, ghost done0: seq<Shape>)
    returns (ghost done: seq<Shape>)
    requires canvas.Valid() && Rendered(canvas, orig, done0)
    modifies canvas.data
    ensures done == done0 + Connector(b, eventInputs, inputVars) && Rendered(canvas, orig, done)
  {
    done := done0;
    if eventInputs > 0 || inputVars > 0 {
      var squareX := b.x - 15;
      var firstLineY := 0;
      var lastLineY := 0;
      if eventInputs > 0 {
        firstLineY := b.y + 25;
      } else if inputVars > 0 {
        firstLineY := b.y + Half(b.height) + 20;
      }
      if inputVars > 0 {
        lastLineY := b.y + Half(b.height) + 20 + (inputVars - 1) * 18;
      } else if eventInputs > 0 {
        lastLineY := b.y + 25 + (eventInputs - 1) * 22;
      }
      if firstLineY > 0 && lastLineY > 0 && firstLineY != lastLineY {
        done := Stamp(canvas, orig, done, Line(squareX, firstLineY, squareX, lastLineY, Black, 1));
        done := Stamp(canvas, orig, done, Square(squareX, firstLineY, 8, Black, false));
        done := Stamp(canvas, orig, done, Square(squareX, lastLineY, 8, Black, false));
      }
    }
  }

  /**
   * drawFBDiagram over the canvas, the text widths measured by `textWidth`:
   * afterwards every byte is its former value with the diagram's shapes
   * drawn over it in order.
   */
  method DrawFBDiagram(canvas: Canvas, root: XmlNode, textWidth: (string, int) -> int)
    requires canvas.Valid()
    modifies canvas.data
    ensures forall k :: 0 <= k < canvas.data.Length ==>
      canvas.data[k] == RenderByte(old(canvas.data[k]), k, DiagramOf(root, textWidth))
  {
    ghost var orig := canvas.data[..];
    ghost var done: seq<Shape> := [];
    var iface := ExtractInterface(root);
    var nameWidth := textWidth(iface.name, 12);
    var versionWidth := textWidth("v" + iface.version, 8);
    var b := BlockOf(iface, nameWidth, versionWidth);

    done := Stamp(canvas, orig, done, Rectangle(b.x, b.y, b.width, b.height, Black, false));
    assert done == [Frame(b)];
    done := DrawEventInputs(canvas, b, |iface.eventInputs|, orig, done);
    done := DrawEventOutputs(canvas, b, |iface.eventOutputs|, orig, done);
    done := DrawInputVars(canvas, b, |iface.inputVars|, orig, done);
    done := DrawOutputVars(canvas, b, |iface.outputVars|, orig, done);
    done := DrawConnector(canvas, b, |iface.eventInputs|, |iface.inputVars|, orig, done);
    assert done == DiagramOf(root, textWidth);
  }

  /**
   * createFBImage without the PNG encoding: a white canvas with the diagram
   * drawn on it.
   */
  method CreateFBImage(root: XmlNode, textWidth: (string, int) -> int) returns (canvas: Canvas)
    ensures canvas.Valid() && fresh(canvas.data)
    ensures forall k :: 0 <= k < canvas.data.Length ==>
      canvas.data[k] == RenderByte(255, k, DiagramOf(root, textWidth))
  {
    canvas := new Canvas();
    DrawFBDiagram(canvas, root, textWidth);
  }
}
