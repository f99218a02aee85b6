# Backgammon board generator — a Dafny model

The application draws a backgammon board as an SVG picture from a JSON
document listing checker placements (`position`, `color`, `checkers`). The
user edits the document in a text area. "Generate board" applies it, and
"Load default" restores the built-in board. This project models the three
pieces of logic in `src/App.tsx`:

- **Checker layout** (`CheckerLayout`, `layout.dfy`). Every placement becomes
  its own stack of circles, in document order. Placements that share a
  position are never merged.
  - Positions up to 12 stand in column `29 + (position - 1) * 60` and rise
    from `y = 288`.
  - Larger positions stand in column `30 + (position - 13) * 60` and descend
    from `y = 10`.
  - Each circle has radius 10 and pitch 20. The fill is the colour, or
    `transparent` when the colour is null or empty.
  - There is no range check, so out-of-range positions extrapolate. The
    top-row columns sit one unit to the right of the bottom-row columns.
    The model follows the code here, not the idealised column index
    `(position - 1) mod 12`. `Scene.CheckerOverItsPoint` proves how the two
    relate for positions 1 to 24.
- **Background** (`Scene`, `scene.dfy`). The drawing has:
  - the board rectangle;
  - twelve bottom and twelve top triangles, kept as the literal table the
    drawing lists and proved equal to a closed formula in the point index;
  - the bar.
  `Render` puts the background in front of the checker circles.
- **Apply / load / edit** (`App.BoardEditor`, `app.dfy`). The class holds the
  three state fields: the live board, the edit buffer and the error message.
  - Apply accepts a parse result only when it is an array whose every
    element has the three keys. It then replaces the live board with that
    array, unchanged.
  - On any other outcome, apply keeps the live board and shows one fixed
    message. A parse failure and a shape failure give the same message: the
    code does not tell the two apart.
  - Apply never touches the buffer. Editing touches nothing but the buffer.

`Board` (`board.dfy`) holds the `Checker` record, the shape check and the
reading of a document as typed placements. `Json` (`json.dfy`) holds parsed
JSON values.

The parser is foreign code. Apply therefore takes it as a parameter
`parse: string -> Option<JsonValue>`, where `None` stands for a syntax error.
The default board and its serialised text are constructor arguments.

## Model

| member | source | states |
|---|---|---|
| `Board.Every` | src/App.tsx:83 | the `every` test holds exactly when every element of the array is an object with the keys `position`, `color` and `checkers` |
| `Board.Validate` | src/App.tsx:82-83 | apply accepts a parse result iff it parsed, is an array and every element has the three keys; what it accepts is that same array, unchanged and in order |
| `Board.Decode` | src/App.tsx:5-9 | an element read as a `Checker` record always has the three keys the apply check asks for |
| `Board.Encode` | src/App.tsx:5-9 | a written placement is an object with the three keys |
| `Board.DecodeEncode` | src/App.tsx:5-9 | reading back a written placement gives the same placement |
| `Board.DecodeBoard` | src/App.tsx:5-9 | a document reads as placements iff each element does, element by element and in order |
| `Board.EncodeBoard` | src/App.tsx:5-9 | a board is written element by element, in order |
| `Board.WellTypedIsAccepted` | src/App.tsx:82-84 | a document of well-typed placements always passes the apply check unchanged |
| `Board.BoardRoundTrip` | src/App.tsx:82-84 | writing a board and applying it gives the same array back, and it reads as the same placements in the same order |
| `CheckerLayout.StackHeight` | src/App.tsx:63 | `Array.from({ length: checkers })` yields `checkers` items, or none for a negative count |
| `CheckerLayout.Fill` | src/App.tsx:69 | a null or empty colour is drawn `transparent`; any other colour is used as it is |
| `CheckerLayout.Stack` | src/App.tsx:63 | a placement yields exactly as many circles as `Array.from` gives for its count |
| `CheckerLayout.StackAt` | src/App.tsx:56-70 | circle i of a placement has key `(index, i)`, radius 10 and the placement's fill; up to position 12 it is at `(29 + (p-1)*60, 288 - 20i)`, above 12 at `(30 + (p-13)*60, 10 + 20i)` |
| `CheckerLayout.StackDirection` | src/App.tsx:60-67 | a bottom stack strictly rises from 288 and a top stack strictly descends from 10, in one column, with neighbours two radii apart |
| `CheckerLayout.Stacks` | src/App.tsx:55-72 | the layout of a run of placements has one circle per checker of the run |
| `CheckerLayout.StacksEntries` | src/App.tsx:55-72 | every circle's key names a placement of the run it was laid out from |
| `CheckerLayout.StacksInKeyOrder` | src/App.tsx:55-72 | circles come in document order: by placement index, then by slot within the stack |
| `CheckerLayout.Layout` | src/App.tsx:55-72 | the whole layout has as many circles as the sum of the placements' counts |
| `CheckerLayout.StacksAppend` | src/App.tsx:55-72 | the layout of two documents in sequence is the layout of the first followed by the layout of the second |
| `CheckerLayout.RunEntryStack` | src/App.tsx:55-72 | in a run starting at index `from`, placement j owns exactly the circles after those of the placements before it, and they are its own full stack with index `from + j` |
| `CheckerLayout.EntryStack` | src/App.tsx:55-72 | placement j owns exactly the circles after those of placements 0..j-1, and they are its own full stack, so a repeated position starts a fresh stack |
| `CheckerLayout.KeysDistinct` | src/App.tsx:65 | no two circles of a layout share a key |
| `Scene.Background` | src/App.tsx:23-54 | the background is 26 shapes: the board rectangle, the bottom triangles k = 0..11, the top triangles k = 0..11 and the bar at x = 356, width 10 |
| `Scene.BottomRowFormula` | src/App.tsx:24-37 | bottom triangle k has apex `(25+60k, 160)`, base corners `(55+60k, 300)` and `(5+60k, 300)`, grey on even k |
| `Scene.TopRowFormula` | src/App.tsx:38-51 | top triangle k has apex `(25+60k, 140)`, base corners `(55+60k, 0)` and `(5+60k, 0)`, white on even k |
| `Scene.TopMirrorsBottom` | src/App.tsx:25-50 | each top triangle is its bottom neighbour reflected in y = 150 with the colour swapped; bottom is grey iff k is even, top white iff k is even |
| `Scene.Render` | src/App.tsx:22-74 | the drawing is the background followed by one disc per layout circle, in layout order |
| `Scene.BackgroundIndependentOfBoard` | src/App.tsx:23-54 | the background part of the drawing is the same for every board |
| `Scene.CheckerOverItsPoint` | src/App.tsx:25-58 | for positions 1..24 the column is that of point `(p-1) mod 12`, one unit right on the top row, and the checker lies over the base of its own triangle and clear of the bar |
| `Scene.Extrapolation` | src/App.tsx:56-62 | positions 0 and below continue the bottom row to the left, positions 25 and above continue the top row to the right, 60 units per position |
| `Scene.TwoWhiteOnPointOne` | src/App.tsx:55-71 | two white checkers on point 1 are drawn at (29, 288) and (29, 268) |
| `Scene.TransparentOnPointThirteen` | src/App.tsx:55-71 | a null-coloured checker on point 13 is drawn transparent at (30, 10) |
| `Scene.SamePointTwice` | src/App.tsx:55-71 | two placements on point 5 give two stacks in the same column, each starting at the bottom edge |
| `App.BoardEditor.constructor` | src/App.tsx:15-17 | at start-up the default board is live, its text is in the buffer and there is no error |
| `App.BoardEditor.HandleGenerateBoard` | src/App.tsx:79-92 | an accepted document replaces the live board wholesale and clears the error; anything else leaves the live board as it was and sets the single fixed message; the buffer never changes |
| `App.BoardEditor.LoadDefault` | src/App.tsx:94-99 | the default board becomes live, the error is cleared and the buffer holds the default's text |
| `App.BoardEditor.EditInput` | src/App.tsx:143 | editing changes the buffer only, never the live board or the error |
| `App.ApplyTwice` | src/App.tsx:79-92 | applying the same buffer twice has the effect of applying it once |
| `App.EditThenFailedApply` | src/App.tsx:79-92 | after an edit, a rejected apply leaves the live board as it was before the edit |
| `App.ReloadDefault` | src/App.tsx:79-99 | load-default followed by apply keeps the default board live with no error, when the default's text parses back to the default and passes the check |

## Left out

- `downloadPNG` (src/App.tsx:101-128) is not modelled. It serialises the SVG, draws it on a canvas and downloads a PNG through browser APIs with an asynchronous callback. It contains no logic of its own.
- `JSON.parse` and `JSON.stringify` are foreign library code and are not modelled. Parsing is a function parameter of apply. The default's serialised text is a constructor argument, and no relation between the two is assumed except where a member's `requires` states one.
- The contents of `./assets/defaultBoard.json` are configuration data. The default board is an arbitrary constructor argument.
- React hooks, JSX, CSS, and the SVG `viewBox`, `width` and `height` scaling are not modelled. Each `setX` call is a field assignment. The handler's two successive error settings (line 80, then line 85 or 90) end in the same state as the model's sequential assignments.
- JSON numbers are integers in this model. Fractional positions and counts, and the floating-point arithmetic of the coordinates, are not captured.
- `CheckerLayout.Layout` takes well-typed `Checker` records. The live board holds the raw accepted elements, because the code applies them without checking types. An element with the three keys but other value types (a string position, a numeric colour) is drawn through JavaScript's implicit conversions, and those conversions are not modelled. `Board.DecodeBoard` says which documents the renderer's input covers.
- `CheckerLayout.StackHeight`: does not model the `RangeError` that `Array.from` raises for a count above 2^32 - 1.
- The React key `${index}-${i}` is modelled as the pair (index, i). Distinct pairs give distinct strings, since neither number contains `-`.
