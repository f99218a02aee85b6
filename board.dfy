/** The board document: the `Checker` record of App.tsx and the shape check
    that "Generate board" applies to a parsed document before it replaces
    the live board. */
module Board {
  import opened Json

  /** One placement: a board point, a colour (None for JSON `null`) and the
      number of checkers stacked on it. */
  datatype Checker = Checker(position: int, color: Option<string>, checkers: int)

  /** `"position" in item && "color" in item && "checkers" in item` for one
      element. On an array element `in` is false; on `null`, a number, a
      string or a boolean it throws, and the handler catches that exactly
      like a false answer, so every non-object element fails the check. */
  predicate HasCheckerKeys(v: JsonValue)
  {
    v.JObject? && "position" in v.fields && "color" in v.fields && "checkers" in v.fields
  }

  /** `Array.prototype.every` with `HasCheckerKeys`: left to right, stopping
      at the first element that fails. */
  function Every(items: seq<JsonValue>): (ok: bool)
    ensures ok <==> forall i :: 0 <= i < |items| ==> HasCheckerKeys(items[i])
  {
    if items == [] then true
    else HasCheckerKeys(items[0]) && Every(items[1..])
  }

  /** What the apply handler accepts from a parse result: the array itself,
      unchanged and in order, when it is an array whose every element has
      the three keys; None when the text did not parse, when it is not an
      array, or when some element lacks a key (the two failures are not told
      apart). */
  function Validate(parsed: Option<JsonValue>): (r: Option<seq<JsonValue>>)
    ensures r.Some? <==>
              parsed.Some? && parsed.value.JArray? &&
              forall i :: 0 <= i < |parsed.value.elems| ==> HasCheckerKeys(parsed.value.elems[i])
    ensures r.Some? ==> parsed == Some(JArray(r.value))
  {
    match parsed
    case Some(JArray(items)) => if Every(items) then Some(items) else None
    case _ => None
  }

  /** Reads one element as a `Checker` when its three fields have the
      declared types: numbers for `position` and `checkers`, a string or
      `null` for `color`. */
  function Decode(v: JsonValue): (r: Option<Checker>)
    ensures r.Some? ==> HasCheckerKeys(v)
  {
    if HasCheckerKeys(v) then
      match (v.fields["position"], v.fields["color"], v.fields["checkers"])
      case (JNumber(p), JNull, JNumber(n)) => Some(Checker(p, None, n))
      case (JNumber(p), JString(c), JNumber(n)) => Some(Checker(p, Some(c), n))
      case _ => None
    else None
  }

  /** The JSON object a `Checker` is written as. */
  function Encode(c: Checker): (v: JsonValue)
    ensures HasCheckerKeys(v)
  {
    JObject(map[
      "position" := JNumber(c.position),
      "color" := (match c.color case None => JNull case Some(s) => JString(s)),
      "checkers" := JNumber(c.checkers)])
  }

  /** Reading back a written placement gives the same placement. */
  lemma DecodeEncode(c: Checker)
    ensures Decode(Encode(c)) == Some(c)
  {
  }

  /** Reads a whole document; None when some element is not a well-typed
      placement. */
  function DecodeBoard(items: seq<JsonValue>): (r: Option<seq<Checker>>)
    ensures r.Some? <==> forall i :: 0 <= i < |items| ==> Decode(items[i]).Some?
    ensures r.Some? ==> |r.value| == |items| &&
                        forall i :: 0 <= i < |items| ==> Decode(items[i]) == Some(r.value[i])
  {
    if items == [] then Some([])
    else
      match (Decode(items[0]), DecodeBoard(items[1..]))
      case (Some(c), Some(rest)) => Some([c] + rest)
      case _ => None
  }

  /** The JSON array a board is written as. */
  function EncodeBoard(board: seq<Checker>): (items: seq<JsonValue>)
    ensures |items| == |board|
    ensures forall i :: 0 <= i < |board| ==> items[i] == Encode(board[i])
  {
    seq(|board|, i requires 0 <= i < |board| => Encode(board[i]))
  }

  /** A document of well-typed placements always passes the shape check,
      and comes back unchanged. */
  lemma WellTypedIsAccepted(items: seq<JsonValue>)
    requires DecodeBoard(items).Some?
    ensures Validate(Some(JArray(items))) == Some(items)
  {
  }

  /** Writing a board and applying the result gives back the same board:
      the shape check accepts it unchanged, and it reads back as the same
      placements in the same order. */
  lemma {:induction false} BoardRoundTrip(board: seq<Checker>)
    ensures Validate(Some(JArray(EncodeBoard(board)))) == Some(EncodeBoard(board))
    ensures DecodeBoard(EncodeBoard(board)) == Some(board)
  {
    var items := EncodeBoard(board);
    forall i | 0 <= i < |items| ensures Decode(items[i]) == Some(board[i]) {
      DecodeEncode(board[i]);
    }
    WellTypedIsAccepted(items);
    assert DecodeBoard(items).value == board;
  }
}
