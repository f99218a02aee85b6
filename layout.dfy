/** The checker layout: every placement of the live board becomes a stack of
    circles, one per checker, drawn over its board point. */
module CheckerLayout {
  import opened Json
  import opened Board

  /** The React key `${index}-${i}` of a circle: the index of its placement
      in the document and its slot in that placement's stack. */
  datatype Key = Key(entry: nat, slot: nat)

  /** One `<circle>` element. */
  datatype Circle = Circle(key: Key, cx: int, cy: int, r: int, fill: string)

  /** Radius of a checker. */
  const Radius := 10
  /** Vertical distance between two checkers of one stack. */
  const Pitch := 20

  /** Horizontal centre of the stack of a placement. There is no range check:
      every position up to 12, zero and negatives included, takes the
      bottom-row formula, and every larger one the top-row formula. */
  function ColumnX(position: int): int
  {
    if position <= 12 then 29 + (position - 1) * 60 else 30 + (position - 13) * 60
  }

  /** Vertical centre of the first checker: the bottom edge for the bottom
      row, the top edge for the top row. */
  function AnchorY(position: int): int
  {
    if position <= 12 then 288 else 10
  }

  /** Vertical centre of the checker in a given slot: bottom stacks grow
      upwards, top stacks downwards. */
  function SlotY(position: int, slot: int): int
  {
    if position <= 12 then AnchorY(position) - slot * Pitch else AnchorY(position) + slot * Pitch
  }

  /** Number of circles `Array.from({ length: checkers })` yields: a negative
      length counts as zero. */
  function StackHeight(checkers: int): (n: nat)
    ensures checkers >= 0 ==> n == checkers
    ensures checkers < 0 ==> n == 0
  {
    if checkers < 0 then 0 else checkers
  }

  /** `item.color || "transparent"`: a missing (null) or empty colour draws
      an invisible checker; any other colour is used as it is. */
  function Fill(color: Option<string>): (f: string)
    ensures color == None || color == Some("") ==> f == "transparent"
    ensures color.Some? && color.value != "" ==> f == color.value
  {
    match color
    case None => "transparent"
    case Some(c) => if c == "" then "transparent" else c
  }

  /** The stack of one placement, standing at index `entry` of the document:
      one circle per checker. */
  function Stack(c: Checker, entry: nat): (r: seq<Circle>)
    ensures |r| == StackHeight(c.checkers)
  {
    seq(StackHeight(c.checkers), i requires 0 <= i =>
      Circle(Key(entry, i), ColumnX(c.position), SlotY(c.position, i), Radius, Fill(c.color)))
  }

  /** Circle i of a placement's stack: key `(entry, i)`, radius 10, the
      placement's fill; up to position 12 it stands at
      `(29 + (p - 1) * 60, 288 - 20 i)`, above 12 at `(30 + (p - 13) * 60, 10 + 20 i)`. */
  lemma StackAt(c: Checker, entry: nat, i: int)
    requires 0 <= i < StackHeight(c.checkers)
    ensures Stack(c, entry)[i].key == Key(entry, i)
    ensures Stack(c, entry)[i].r == 10 && Stack(c, entry)[i].fill == Fill(c.color)
    ensures c.position <= 12 ==>
              Stack(c, entry)[i].cx == 29 + (c.position - 1) * 60 && Stack(c, entry)[i].cy == 288 - 20 * i
    ensures c.position > 12 ==>
              Stack(c, entry)[i].cx == 30 + (c.position - 13) * 60 && Stack(c, entry)[i].cy == 10 + 20 * i
  {
  }

  /** A bottom stack rises from y = 288 and a top stack descends from y = 10;
      within a stack the checkers share one column and neighbours touch
      without overlapping (their centres are two radii apart). */
  lemma StackDirection(c: Checker, entry: nat, i: int, j: int)
    requires 0 <= i < j < StackHeight(c.checkers)
    ensures Stack(c, entry)[i].cx == Stack(c, entry)[j].cx
    ensures c.position <= 12 ==> Stack(c, entry)[j].cy < Stack(c, entry)[i].cy <= 288
    ensures c.position > 12 ==> 10 <= Stack(c, entry)[i].cy < Stack(c, entry)[j].cy
    ensures j == i + 1 ==>
              Stack(c, entry)[i].cy - Stack(c, entry)[j].cy == 2 * Radius ||
              Stack(c, entry)[j].cy - Stack(c, entry)[i].cy == 2 * Radius
  {
    StackAt(c, entry, i);
    StackAt(c, entry, j);
  }

  /** Total number of checkers of a board, counting each placement by the
      length of its stack. */
  function TotalCheckers(board: seq<Checker>): nat
  {
    if board == [] then 0 else StackHeight(board[0].checkers) + TotalCheckers(board[1..])
  }

  /** Keys are ordered by placement, then by slot. */
  predicate KeyBefore(a: Key, b: Key)
  {
    a.entry < b.entry || (a.entry == b.entry && a.slot < b.slot)
  }

  /** The circles of the placements of `board`, the first of which stands at
      index `from` of the document: stacks one after the other, in document
      order, never merged. */
  function Stacks(board: seq<Checker>, from: nat): (r: seq<Circle>)
    ensures |r| == TotalCheckers(board)
  {
    if board == [] then []
    else Stack(board[0], from) + Stacks(board[1..], from + 1)
  }

  /** `checkers.map(...)`, flattened as React flattens nested children. */
  function Layout(board: seq<Checker>): (r: seq<Circle>)
    ensures |r| == TotalCheckers(board)
  {
    Stacks(board, 0)
  }

  /** Laying out two documents one after the other is laying out each. */
  lemma {:induction false} StacksAppend(a: seq<Checker>, b: seq<Checker>, from: nat)
    ensures Stacks(a + b, from) == Stacks(a, from) + Stacks(b, from + |a|)
  {
    if a == [] {
      assert a + b == b;
    } else {
      var head := Stack(a[0], from);
      assert (a + b)[0] == a[0] && (a + b)[1..] == a[1..] + b;
      calc {
        Stacks(a + b, from);
        head + Stacks(a[1..] + b, from + 1);
        { StacksAppend(a[1..], b, from + 1); }
        head + (Stacks(a[1..], from + 1) + Stacks(b, from + |a|));
        (head + Stacks(a[1..], from + 1)) + Stacks(b, from + |a|);
        Stacks(a, from) + Stacks(b, from + |a|);
      }
    }
  }

  /** Cutting the first half back out of a concatenation. */
  lemma SliceOfFirst<T>(a: seq<T>, b: seq<T>)
    ensures (a + b)[0 .. |a|] == a
  {
  }

  /** Cutting a slice out of the second half of a concatenation. */
  lemma SliceOfSecond<T>(a: seq<T>, b: seq<T>, lo: int, hi: int)
    requires 0 <= lo <= hi <= |b|
    ensures (a + b)[|a| + lo .. |a| + hi] == b[lo .. hi]
  {
  }

  /** Number of circles the placements before index j produce. */
  function Offset(board: seq<Checker>, j: int): nat
    requires 0 <= j <= |board|
  {
    TotalCheckers(board[..j])
  }

  /** The offset of placement j counts the first placement's stack and then
      the offset of placement j - 1 of the rest. */
  lemma OffsetStep(board: seq<Checker>, j: int)
    requires 0 < j <= |board|
    ensures Offset(board, j) == StackHeight(board[0].checkers) + Offset(board[1..], j - 1)
  {
    assert board[..j][0] == board[0] && board[..j][1..] == board[1..][..j - 1];
  }

  /** The stack a run's tail places at index j - 1 of the tail is the one
      the whole run places at index j. */
  lemma RunEntryStep(board: seq<Checker>, from: nat, j: int)
    requires 0 < j < |board|
    requires Offset(board[1..], j - 1) + StackHeight(board[j].checkers) <= |Stacks(board[1..], from + 1)|
    requires Stacks(board[1..], from + 1)[Offset(board[1..], j - 1) .. Offset(board[1..], j - 1) + StackHeight(board[j].checkers)]
               == Stack(board[j], from + j)
    ensures Offset(board, j) + StackHeight(board[j].checkers) <= |Stacks(board, from)|
    ensures Stacks(board, from)[Offset(board, j) .. Offset(board, j) + StackHeight(board[j].checkers)]
              == Stack(board[j], from + j)
  {
    var head, tail := Stack(board[0], from), Stacks(board[1..], from + 1);
    var off, h := Offset(board[1..], j - 1), StackHeight(board[j].checkers);
    OffsetStep(board, j);
    SliceOfSecond(head, tail, off, off + h);
  }

  /** Placement j of a run that starts at index `from` owns the circles that
      follow those of the placements before it, and they are exactly its own
      stack. */
  lemma {:induction false} RunEntryStack(board: seq<Checker>, from: nat, j: int)
    requires 0 <= j < |board|
    ensures Offset(board, j) + StackHeight(board[j].checkers) <= |Stacks(board, from)|
    ensures Stacks(board, from)[Offset(board, j) .. Offset(board, j) + StackHeight(board[j].checkers)]
              == Stack(board[j], from + j)
  {
    if j == 0 {
      assert board[..0] == [];
      SliceOfFirst(Stack(board[0], from), Stacks(board[1..], from + 1));
    } else {
      RunEntryStack(board[1..], from + 1, j - 1);
      assert board[1..][j - 1] == board[j];
      RunEntryStep(board, from, j);
    }
  }

  /** Placement j of the document owns the circles that follow the circles
      of the placements before it, and they are exactly its own stack; so
      every placement, including one that repeats an earlier position,
      starts its own stack from its edge of the board. */
  lemma EntryStack(board: seq<Checker>, j: int)
    requires 0 <= j < |board|
    ensures Offset(board, j) + StackHeight(board[j].checkers) <= |Layout(board)|
    ensures Layout(board)[Offset(board, j) .. Offset(board, j) + StackHeight(board[j].checkers)] == Stack(board[j], j)
  {
    RunEntryStack(board, 0, j);
  }

  /** Every circle's key names a placement of the run. */
  lemma {:induction false} StacksEntries(board: seq<Checker>, from: nat, m: int)
    requires 0 <= m < |Stacks(board, from)|
    ensures from <= Stacks(board, from)[m].key.entry < from + |board|
  {
    var head, tail := Stack(board[0], from), Stacks(board[1..], from + 1);
    assert Stacks(board, from) == head + tail;
    if m < |head| {
      StackAt(board[0], from, m);
    } else {
      assert Stacks(board, from)[m] == tail[m - |head|];
      StacksEntries(board[1..], from + 1, m - |head|);
    }
  }

  /** Circles come in key order: by placement, then by slot. */
  lemma {:induction false} StacksInKeyOrder(board: seq<Checker>, from: nat, m: int, n: int)
    requires 0 <= m < n < |Stacks(board, from)|
    ensures KeyBefore(Stacks(board, from)[m].key, Stacks(board, from)[n].key)
  {
    var head, tail := Stack(board[0], from), Stacks(board[1..], from + 1);
    assert Stacks(board, from) == head + tail;
    if n < |head| {
      assert Stacks(board, from)[m] == head[m] && Stacks(board, from)[n] == head[n];
      StackAt(board[0], from, m);
      StackAt(board[0], from, n);
    } else if m < |head| {
      assert Stacks(board, from)[m] == head[m] && Stacks(board, from)[n] == tail[n - |head|];
      StackAt(board[0], from, m);
      StacksEntries(board[1..], from + 1, n - |head|);
    } else {
      assert Stacks(board, from)[m] == tail[m - |head|] && Stacks(board, from)[n] == tail[n - |head|];
      StacksInKeyOrder(board[1..], from + 1, m - |head|, n - |head|);
    }
  }

  /** Each circle of a layout has its own key. */
  lemma KeysDistinct(board: seq<Checker>, m: int, n: int)
    requires 0 <= m < |Layout(board)| && 0 <= n < |Layout(board)| && m != n
    ensures Layout(board)[m].key != Layout(board)[n].key
  {
    if m < n {
      StacksInKeyOrder(board, 0, m, n);
    } else {
      StacksInKeyOrder(board, 0, n, m);
    }
  }
}
