/** The drawing `generateBoard` returns: a fixed background (the board, 24
    triangular points and the middle bar) followed by the checker circles. */
module Scene {
  import opened Json
  import opened Board
  import opened CheckerLayout

  datatype Vertex = Vertex(x: int, y: int)

  /** The shapes of the drawing. */
  datatype Shape =
    | Rect(x: int, y: int, width: int, height: int, fill: string)
    | Polygon(points: seq<Vertex>, fill: string)
    | Disc(circle: Circle)

  const Grey := "#bbb"
  const White := "#ffffff"

  function Triangle(x0: int, y0: int, x1: int, y1: int, x2: int, y2: int, fill: string): Shape
  {
    Polygon([Vertex(x0, y0), Vertex(x1, y1), Vertex(x2, y2)], fill)
  }

  /** The board rectangle behind everything. */
  const BoardRect := Rect(0, 0, 750, 300, "#f4d7b5")

  /** The twelve points along the bottom edge, as the drawing lists them. */
  const BottomPoints: seq<Shape> := [
    Triangle(25, 160, 55, 300, 5, 300, Grey),
    Triangle(85, 160, 115, 300, 65, 300, White),
    Triangle(145, 160, 175, 300, 125, 300, Grey),
    Triangle(205, 160, 235, 300, 185, 300, White),
    Triangle(265, 160, 295, 300, 245, 300, Grey),
    Triangle(325, 160, 355, 300, 305, 300, White),
    Triangle(385, 160, 415, 300, 365, 300, Grey),
    Triangle(445, 160, 475, 300, 425, 300, White),
    Triangle(505, 160, 535, 300, 485, 300, Grey),
    Triangle(565, 160, 595, 300, 545, 300, White),
    Triangle(625, 160, 655, 300, 605, 300, Grey),
    Triangle(685, 160, 715, 300, 665, 300, White)
  ]

  /** The twelve points along the top edge, as the drawing lists them. */
  const TopPoints: seq<Shape> := [
    Triangle(25, 140, 55, 0, 5, 0, White),
    Triangle(85, 140, 115, 0, 65, 0, Grey),
    Triangle(145, 140, 175, 0, 125, 0, White),
    Triangle(205, 140, 235, 0, 185, 0, Grey),
    Triangle(265, 140, 295, 0, 245, 0, White),
    Triangle(325, 140, 355, 0, 305, 0, Grey),
    Triangle(385, 140, 415, 0, 365, 0, White),
    Triangle(445, 140, 475, 0, 425, 0, Grey),
    Triangle(505, 140, 535, 0, 485, 0, White),
    Triangle(565, 140, 595, 0, 545, 0, Grey),
    Triangle(625, 140, 655, 0, 605, 0, White),
    Triangle(685, 140, 715, 0, 665, 0, Grey)
  ]

  /** The dividing bar. */
  const Bar := Rect(356, 0, 10, 300, "#663300")

  /** Bottom point k (counted from the left): apex at height 160, base on
      the bottom edge, 60 units per point, grey on even k. */
  function BottomTriangle(k: int): Shape
  {
    Triangle(25 + 60 * k, 160, 55 + 60 * k, 300, 5 + 60 * k, 300, if k % 2 == 0 then Grey else White)
  }

  /** Top point k: apex at height 140, base on the top edge, white on even k. */
  function TopTriangle(k: int): Shape
  {
    Triangle(25 + 60 * k, 140, 55 + 60 * k, 0, 5 + 60 * k, 0, if k % 2 == 0 then White else Grey)
  }

  /** The background, in drawing order; it takes no board. */
  function Background(): (r: seq<Shape>)
    ensures |r| == 26
    ensures r[0] == Rect(0, 0, 750, 300, "#f4d7b5")
    ensures forall k :: 0 <= k < 12 ==> r[1 + k] == BottomTriangle(k) && r[13 + k] == TopTriangle(k)
    ensures r[25] == Rect(356, 0, 10, 300, "#663300")
  {
    BottomRowFormula();
    TopRowFormula();
    [BoardRect] + BottomPoints + TopPoints + [Bar]
  }

  /** The bottom row of the drawing is the formula for k = 0 .. 11. */
  lemma BottomRowFormula()
    ensures |BottomPoints| == 12
    ensures forall k :: 0 <= k < 12 ==> BottomPoints[k] == BottomTriangle(k)
  {
  }

  /** The top row of the drawing is the formula for k = 0 .. 11. */
  lemma TopRowFormula()
    ensures |TopPoints| == 12
    ensures forall k :: 0 <= k < 12 ==> TopPoints[k] == TopTriangle(k)
  {
  }

  /** Reflection of a vertex in the horizontal mid-line y = 150. */
  function Reflect(v: Vertex): Vertex
  {
    Vertex(v.x, 300 - v.y)
  }

  /** Each top point is its bottom neighbour reflected in the mid-line,
      with the colour swapped; the two rows each alternate colours. */
  lemma TopMirrorsBottom(k: int)
    requires 0 <= k < 12
    ensures BottomTriangle(k).points[0] == Vertex(25 + 60 * k, 160)
    ensures TopTriangle(k).points[0] == Vertex(25 + 60 * k, 140)
    ensures |TopTriangle(k).points| == |BottomTriangle(k).points| == 3
    ensures forall i :: 0 <= i < 3 ==> TopTriangle(k).points[i] == Reflect(BottomTriangle(k).points[i])
    ensures (BottomTriangle(k).fill == Grey) == (k % 2 == 0)
    ensures (TopTriangle(k).fill == White) == (k % 2 == 0)
    ensures TopTriangle(k).fill != BottomTriangle(k).fill
  {
  }

  /** The drawing of a board: the background, then one disc per circle of
      the layout, in layout order. */
  function Render(board: seq<Checker>): (scene: seq<Shape>)
    ensures |scene| == 26 + TotalCheckers(board)
    ensures scene[..26] == Background()
    ensures forall i :: 0 <= i < TotalCheckers(board) ==> scene[26 + i] == Disc(Layout(board)[i])
  {
    var circles := Layout(board);
    Background() + seq(|circles|, i requires 0 <= i < |circles| => Disc(circles[i]))
  }

  /** The background does not depend on the board. */
  lemma BackgroundIndependentOfBoard(a: seq<Checker>, b: seq<Checker>)
    ensures Render(a)[..26] == Render(b)[..26]
  {
  }

  /** Point index of a position in 1 .. 24, counted from the left of its
      row. */
  function PointIndex(position: int): int
  {
    (position - 1) % 12
  }

  /** For positions 1 .. 24 the column is that of the point index, one unit
      further right on the top row, and the whole checker lies over the base
      of its own triangle (of the row that holds the position) and clear of
      the bar. */
  lemma CheckerOverItsPoint(position: int)
    requires 1 <= position <= 24
    ensures var k := PointIndex(position);
            0 <= k < 12 &&
            ColumnX(position) == 29 + 60 * k + (if position <= 12 then 0 else 1) &&
            var t := if position <= 12 then BottomTriangle(k) else TopTriangle(k);
            t.points[2].x <= ColumnX(position) - Radius &&
            ColumnX(position) + Radius <= t.points[1].x &&
            (ColumnX(position) + Radius < Bar.x || Bar.x + Bar.width < ColumnX(position) - Radius)
  {
  }

  /** Positions outside 1 .. 24 are not rejected: 0 and below extend the
      bottom row to the left, 25 and above extend the top row to the right,
      in steps of one column per position. */
  lemma Extrapolation(position: int)
    ensures position <= 0 ==> ColumnX(position) < 29 && AnchorY(position) == 288
    ensures position >= 25 ==> ColumnX(position) > 30 + 11 * 60 && AnchorY(position) == 10
    ensures position != 12 ==> ColumnX(position + 1) == ColumnX(position) + 60
  {
  }

  /** Two white checkers on point 1 stand over the first bottom triangle,
      the second one a pitch above the first. */
  lemma TwoWhiteOnPointOne()
    ensures Render([Checker(1, Some("white"), 2)])[26..] ==
              [Disc(Circle(Key(0, 0), 29, 288, 10, "white")), Disc(Circle(Key(0, 1), 29, 268, 10, "white"))]
  {
  }

  /** A colourless checker on point 13 is drawn transparent at the top edge. */
  lemma TransparentOnPointThirteen()
    ensures Render([Checker(13, None, 1)])[26..] == [Disc(Circle(Key(0, 0), 30, 10, 10, "transparent"))]
  {
  }

  /** Two placements on the same point are not merged: each starts its own
      stack at the bottom edge of the same column, the later drawn over the
      earlier. */
  lemma SamePointTwice()
    ensures Render([Checker(5, Some("red"), 2), Checker(5, Some("black"), 1)])[26..] ==
              [Disc(Circle(Key(0, 0), 269, 288, 10, "red")),
               Disc(Circle(Key(0, 1), 269, 268, 10, "red")),
               Disc(Circle(Key(1, 0), 269, 288, 10, "black"))]
  {
    var board := [Checker(5, Some("red"), 2), Checker(5, Some("black"), 1)];
    assert board[1..] == [board[1]];
    StackAt(board[0], 0, 0);
    StackAt(board[0], 0, 1);
    StackAt(board[1], 1, 0);
    assert Stack(board[0], 0) == [Circle(Key(0, 0), 269, 288, 10, "red"), Circle(Key(0, 1), 269, 268, 10, "red")];
    assert Stack(board[1], 1) == [Circle(Key(1, 0), 269, 288, 10, "black")];
    assert Layout(board) == Stack(board[0], 0) + (Stack(board[1], 1) + Stacks([], 2));
  }
}
