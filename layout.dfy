/**
 * Layout arithmetic of a player's panel: the row of colour swatches and the
 * width of the container that holds the panel's elements. Coordinates are
 * relative to the panel's container; the engine's text and image widths are
 * parameters.
 */
module Layout {
  import opened Palette

  /** Side of a square colour swatch (`colorBoxSize`). */
  const ColorBoxSize: int := 20
  /** Gap between the "Choose Colour:" label and the first swatch (`colorBoxSpacing`). */
  const ColorBoxSpacing: int := 8
  /** Distance between the left edges of neighbouring swatches. */
  const SwatchPitch: int := 30
  /** Vertical position of the swatch row inside the panel. */
  const SwatchRowY: int := 29

  /** A rectangle drawn with its origin at the top-left corner. */
  datatype Rect = Rect(x: real, y: real, width: real, height: real, fill: string)

  /** An element of a panel, as far as the container width is concerned. */
  datatype Child = Child(x: real, width: real)

  function RightEdge(c: Child): real {
    c.x + c.width
  }

  /**
   * `boxes` is the swatch row that follows a label of width `offset`: one square
   * per palette colour, in palette order, the first `ColorBoxSpacing` pixels
   * after the label and each next one `SwatchPitch` pixels further right.
   */
  ghost predicate SwatchRow(boxes: seq<Rect>, offset: real) {
    |boxes| == |Colors| &&
    forall i :: 0 <= i < |boxes| ==>
      boxes[i] == Rect((SwatchPitch * i) as real + (ColorBoxSpacing as real + offset), SwatchRowY as real,
                       ColorBoxSize as real, ColorBoxSize as real, Colors[i])
  }

  /** The centre line of swatch `i` of a row placed after a label of width `offset`. */
  function SwatchCentre(i: int, offset: real): real {
    offset + (ColorBoxSpacing + SwatchPitch * i) as real + ColorBoxSize as real / 2.0
  }

  /**
   * Creates one swatch per palette colour, accumulating them left to right. The
   * swatches are in palette order, start right after the label, are separated
   * by equal gaps and never overlap.
   */
  method CreateColorBoxes(offset: real) returns (boxes: seq<Rect>)
    ensures SwatchRow(boxes, offset)
    ensures forall i :: 0 <= i < |boxes| ==> boxes[i].fill == Colors[i]
    ensures boxes[0].x == offset + ColorBoxSpacing as real
    ensures forall i :: 0 <= i < |boxes| - 1 ==>
      boxes[i].x + boxes[i].width + (SwatchPitch - ColorBoxSize) as real == boxes[i + 1].x
    ensures forall i :: 0 <= i < |boxes| ==> boxes[i].x + boxes[i].width / 2.0 == SwatchCentre(i, offset)
  {
    boxes := [];
    var i := 0;
    while i < |Colors|
      invariant 0 <= i <= |Colors|
      invariant |boxes| == i
      invariant forall k :: 0 <= k < i ==>
        boxes[k] == Rect((SwatchPitch * k) as real + (ColorBoxSpacing as real + offset), SwatchRowY as real,
                         ColorBoxSize as real, ColorBoxSize as real, Colors[k])
    {
      var box := Rect((i * SwatchPitch) as real + (ColorBoxSpacing as real + offset), SwatchRowY as real,
                      ColorBoxSize as real, ColorBoxSize as real, Colors[i]);
      boxes := boxes + [box];
      i := i + 1;
    }
  }

  /**
   * The reducer passed to `reduce` when sizing a panel: widen to the child's right
   * edge when it sticks out. The result is the larger of the two.
   */
  function GetContainerWidth(width: real, child: Child): (r: real)
    ensures r >= width && r >= RightEdge(child)
    ensures r == width || r == RightEdge(child)
  {
    if child.x + child.width > width then child.x + child.width else width
  }

  /** `children.reduce(getContainerWidth, width)`: a left fold over the children. */
  function ReduceWidth(width: real, children: seq<Child>): (r: real)
    ensures r >= width
    decreases |children|
  {
    if children == [] then width else ReduceWidth(GetContainerWidth(width, children[0]), children[1..])
  }

  /**
   * The fold computes a maximum: it is at least the start value and every child's
   * right edge, and it equals one of them.
   */
  lemma {:induction false} ReduceWidthIsMax(width: real, children: seq<Child>)
    ensures ReduceWidth(width, children) >= width
    ensures forall i :: 0 <= i < |children| ==> ReduceWidth(width, children) >= RightEdge(children[i])
    ensures ReduceWidth(width, children) == width ||
            exists i :: 0 <= i < |children| && ReduceWidth(width, children) == RightEdge(children[i])
    decreases |children|
  {
    if children != [] {
      var w := GetContainerWidth(width, children[0]);
      ReduceWidthIsMax(w, children[1..]);
      var r := ReduceWidth(width, children);
      assert r == ReduceWidth(w, children[1..]);
      forall i | 1 <= i < |children|
        ensures r >= RightEdge(children[i])
      {
        assert children[i] == children[1..][i - 1];
      }
      if r != w {
        var j :| 0 <= j < |children[1..]| && r == RightEdge(children[1..][j]);
        assert r == RightEdge(children[j + 1]);
      }
    }
  }

  /** The elements of a player's panel, as placed in the source: header, label, swatches, key image, "Controls" text. */
  function PanelChildren(headerWidth: real, labelWidth: real, boxes: seq<Rect>, imageWidth: real, controlsWidth: real)
    : (cs: seq<Child>)
    ensures |cs| == |boxes| + 4
    ensures cs[0] == Child(0.0, headerWidth) && cs[1] == Child(0.0, labelWidth)
    ensures forall i :: 0 <= i < |boxes| ==> cs[i + 2] == Child(boxes[i].x, boxes[i].width)
    ensures cs[|cs| - 2] == Child(0.0, imageWidth) && cs[|cs| - 1] == Child(32.0, controlsWidth)
  {
    [Child(0.0, headerWidth), Child(0.0, labelWidth)]
    + seq(|boxes|, i requires 0 <= i < |boxes| => Child(boxes[i].x, boxes[i].width))
    + [Child(0.0, imageWidth), Child(32.0, controlsWidth)]
  }

  /**
   * The container of a panel, sized by folding `getContainerWidth` from 0, is wide
   * enough for every element, in particular for every swatch and for the label.
   */
  lemma PanelWidthEnclosesSwatches(headerWidth: real, labelWidth: real, boxes: seq<Rect>,
                                   imageWidth: real, controlsWidth: real)
    ensures var w := ReduceWidth(0.0, PanelChildren(headerWidth, labelWidth, boxes, imageWidth, controlsWidth));
      w >= 0.0 && w >= labelWidth && w >= headerWidth &&
      forall i :: 0 <= i < |boxes| ==> w >= boxes[i].x + boxes[i].width
  {
    var cs := PanelChildren(headerWidth, labelWidth, boxes, imageWidth, controlsWidth);
    ReduceWidthIsMax(0.0, cs);
    assert RightEdge(cs[0]) == headerWidth && RightEdge(cs[1]) == labelWidth;
    forall i | 0 <= i < |boxes|
      ensures ReduceWidth(0.0, cs) >= boxes[i].x + boxes[i].width
    {
      assert RightEdge(cs[i + 2]) == boxes[i].x + boxes[i].width;
    }
  }
}
