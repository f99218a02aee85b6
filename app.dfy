/** The application state behind the page: the live board that is drawn, the
    text being edited, and the error shown under the buttons, with the three
    handlers that change them. */
module App {
  import opened Json
  import opened Board

  /** The one message shown for every rejected document. */
  const InvalidJsonMessage := "Invalid JSON. Please check your input."

  class BoardEditor {
    /** The live board: the elements of the last accepted document. */
    var checkers: seq<JsonValue>
    /** The edit buffer shown in the text area. */
    var jsonInput: string
    /** The message shown to the user, if any. */
    var errorMessage: Option<string>

    /** The built-in default board and its serialised text. */
    const defaultBoard: seq<JsonValue>
    const defaultText: string

    /** Start-up: the default board is live, its text is in the buffer, and
        there is no error. */
    constructor (board: seq<JsonValue>, text: string)
      ensures defaultBoard == board && defaultText == text
      ensures checkers == board && jsonInput == text && errorMessage == None
    {
      defaultBoard, defaultText := board, text;
      checkers, jsonInput, errorMessage := board, text, None;
    }

    /** "Generate board": parse the buffer and, when the result is an array
        whose every element has the three keys, make it the live board and
        clear the error; otherwise keep the live board and show the message.
        The buffer itself is never changed. */
    method HandleGenerateBoard(parse: string -> Option<JsonValue>)
      modifies this`checkers, this`errorMessage
      ensures jsonInput == old(jsonInput)
      ensures Validate(parse(jsonInput)).Some? ==>
                checkers == Validate(parse(jsonInput)).value && errorMessage == None
      ensures Validate(parse(jsonInput)).None? ==>
                checkers == old(checkers) && errorMessage == Some(InvalidJsonMessage)
    {
      errorMessage := None;
      var parsed := parse(jsonInput);
      if parsed.Some? && parsed.value.JArray? && Every(parsed.value.elems) {
        checkers := parsed.value.elems;
        errorMessage := None;
      } else {
        errorMessage := Some(InvalidJsonMessage);
      }
    }

    /** "Load default": the default board becomes live, the error is
        cleared, and the buffer holds the default's text. */
    method LoadDefault()
      modifies this`checkers, this`errorMessage, this`jsonInput
      ensures checkers == defaultBoard && errorMessage == None && jsonInput == defaultText
    {
      checkers := defaultBoard;
      errorMessage := None;
      jsonInput := defaultText;
    }

    /** Typing in the text area: only the buffer changes. */
    method EditInput(text: string)
      modifies this`jsonInput
      ensures jsonInput == text
      ensures checkers == old(checkers) && errorMessage == old(errorMessage)
    {
      jsonInput := text;
    }
  }

  /** Applying the same buffer twice has the effect of applying it once. */
  method ApplyTwice(app: BoardEditor, parse: string -> Option<JsonValue>)
    modifies app`checkers, app`errorMessage
    ensures app.jsonInput == old(app.jsonInput)
    ensures Validate(parse(app.jsonInput)).Some? ==>
              app.checkers == Validate(parse(app.jsonInput)).value && app.errorMessage == None
    ensures Validate(parse(app.jsonInput)).None? ==>
              app.checkers == old(app.checkers) && app.errorMessage == Some(InvalidJsonMessage)
  {
    app.HandleGenerateBoard(parse);
    app.HandleGenerateBoard(parse);
  }

  /** Edits that are never applied leave the drawn board alone, whatever
      the text; an apply that fails afterwards keeps it too. */
  method EditThenFailedApply(app: BoardEditor, text: string, parse: string -> Option<JsonValue>)
    requires Validate(parse(text)).None?
    modifies app`checkers, app`errorMessage, app`jsonInput
    ensures app.checkers == old(app.checkers)
    ensures app.jsonInput == text && app.errorMessage == Some(InvalidJsonMessage)
  {
    app.EditInput(text);
    app.HandleGenerateBoard(parse);
  }

  /** After "Load default", "Generate board" on the unedited buffer keeps the
      default board live and shows no error, provided the default's text
      parses back to the default and passes the shape check. */
  method ReloadDefault(app: BoardEditor, parse: string -> Option<JsonValue>)
    requires parse(app.defaultText) == Some(JArray(app.defaultBoard))
    requires Every(app.defaultBoard)
    modifies app`checkers, app`errorMessage, app`jsonInput
    ensures app.checkers == app.defaultBoard && app.errorMessage == None
    ensures app.jsonInput == app.defaultText
  {
    app.LoadDefault();
    app.HandleGenerateBoard(parse);
  }
}
