/**
 * The text simplifier panel: the user's current selection, the reading level, the simplified
 * text on display, a loading flag, and a browser-style history of past simplifications with a
 * cursor. The request to the simplification service is not modelled; its outcome is a parameter.
 */
module TextSimplifier {
  import opened Wrappers
  import JsText

  /** The three options of the level selector. */
  datatype Level = Easy | Medium | Advanced

  /** One history record; it never changes once stored. */
  datatype Entry = Entry(selectedText: string, simplifiedText: string, level: Level)

  /** How the request to the simplification service ended. */
  datatype Outcome = Success(simplifiedText: string) | Failure

  /** What the handler captured when it sent the request: the selection and the level. */
  datatype Request = Request(selectedText: string, level: Level)

  /** The "current / total" label between the Previous and Next buttons. */
  datatype Position = Position(shown: int, total: int)

  const FailureMessage: string := "Failed to simplify the text. Please try again."

  /** The cursor is -1 on an empty history and otherwise indexes an entry. */
  predicate CursorInRange(history: seq<Entry>, cursor: int) {
    -1 <= cursor < |history| && (cursor == -1 ==> history == [])
  }

  /**
   * Browser-history append: every entry after the cursor is dropped, then `e` is added.
   * Entries up to the cursor are kept, and `e` becomes the last entry, right after them.
   */
  function Append(history: seq<Entry>, cursor: int, e: Entry): (r: seq<Entry>)
    requires -1 <= cursor < |history|
    ensures |r| == cursor + 2 && |r| <= |history| + 1
    ensures forall i :: 0 <= i <= cursor ==> r[i] == history[i]
    ensures r[cursor + 1] == e
  {
    history[..cursor + 1] + [e]
  }

  /** Moving the cursor to the new entry keeps it in range and puts it at the last entry. */
  lemma AppendKeepsCursorInRange(history: seq<Entry>, cursor: int, e: Entry)
    requires CursorInRange(history, cursor)
    ensures CursorInRange(Append(history, cursor, e), cursor + 1)
    ensures cursor + 1 == |Append(history, cursor, e)| - 1
  {
  }

  /** With the cursor on the last entry nothing is discarded: the entry is simply added. */
  lemma AppendAtTail(history: seq<Entry>, e: Entry)
    requires history != []
    ensures Append(history, |history| - 1, e) == history + [e]
  {
    assert history[..|history|] == history;
  }

  /** [A, B, C] with the cursor on B, then appending D, gives [A, B, D] with the cursor on D. */
  lemma AppendAfterGoingBack(a: Entry, b: Entry, c: Entry, d: Entry)
    ensures Append([a, b, c], 1, d) == [a, b, d]
    ensures CursorInRange([a, b, d], 2) && 2 == |[a, b, d]| - 1
  {
    assert [a, b, c][..2] == [a, b];
  }

  /** The position label: 1-based index of the entry on display and the history length. */
  function PositionOf(history: seq<Entry>, cursor: int): (p: Position)
    requires CursorInRange(history, cursor)
    ensures p.total == |history|
    ensures history == [] ==> p == Position(0, 0)
    ensures history != [] ==> 1 <= p.shown <= p.total && p.shown - 1 == cursor
  {
    Position(cursor + 1, |history|)
  }

  /**
   * The success path as the handler is written: the history is cut at the cursor captured when
   * the request was SENT (`sentCursor`), while the cursor is incremented from its value when the
   * response ARRIVES (`cursor`). JavaScript's `slice` clamps an end past the array's length.
   */
  function SucceedAsWritten(history: seq<Entry>, sentCursor: int, cursor: int, e: Entry): (r: (seq<Entry>, int))
    requires -1 <= sentCursor
    ensures r.1 == cursor + 1
    ensures sentCursor < |history| ==> r.0 == Append(history, sentCursor, e)
    ensures sentCursor >= |history| ==> r.0 == history + [e]
  {
    var end := if sentCursor + 1 <= |history| then sentCursor + 1 else |history|;
    (history[..end] + [e], cursor + 1)
  }

  /**
   * When nothing moves the cursor while the request is pending, the handler as written and the
   * one-cursor append agree.
   */
  lemma SucceedAsWrittenWithoutNavigation(history: seq<Entry>, cursor: int, e: Entry)
    requires CursorInRange(history, cursor)
    ensures SucceedAsWritten(history, cursor, cursor, e) == (Append(history, cursor, e), cursor + 1)
  {
  }

  /**
   * As written, the cursor can leave the history: the request is sent on [a, b] with the cursor
   * on a, the user clicks Next while it is pending (cursor on b), and the response gives the
   * history [a, d] with the cursor at index 2; the label would read "3 / 2".
   */
  lemma StaleCursorEscapesHistory(a: Entry, b: Entry, d: Entry)
    ensures CursorInRange([a, b], 0) && CursorInRange([a, b], 1)
    ensures SucceedAsWritten([a, b], 0, 1, d) == ([a, d], 2)
    ensures !CursorInRange([a, d], 2)
  {
    assert [a, b][..1] + [d] == [a, d];
  }

  class Simplifier {
    var selectedText: string
    var simplifiedText: string
    var level: Level
    var isLoading: bool
    var history: seq<Entry>
    var cursor: int
    ghost var appended: nat   // how many simplifications have succeeded so far

    /** The cursor stays in range, and the history never outgrows the successful requests. */
    ghost predicate Valid()
      reads this
    {
      CursorInRange(history, cursor) && |history| <= appended
    }

    /** The view shows exactly the fields of `e`. */
    predicate Shows(e: Entry)
      reads this
    {
      selectedText == e.selectedText && simplifiedText == e.simplifiedText && level == e.level
    }

    /** The Simplify button is disabled without a selection and while a request is pending. */
    predicate SimplifyDisabled()
      reads this
    {
      selectedText == "" || isLoading
    }

    predicate PreviousDisabled()
      reads this
    {
      cursor <= 0
    }

    predicate NextDisabled()
      reads this
    {
      cursor >= |history| - 1
    }

    constructor ()
      ensures Valid()
      ensures selectedText == "" && simplifiedText == "" && level == Medium && !isLoading
      ensures history == [] && cursor == -1
    {
      selectedText, simplifiedText, level, isLoading := "", "", Medium, false;
      history, cursor := [], -1;
      appended := 0;
    }

    /** A mouse-up delivers the selection `raw`; only a selection with non-blank text replaces the old one. */
    method HandleTextSelection(raw: string)
      requires Valid()
      modifies this`selectedText
      ensures Valid()
      ensures JsText.Trim(raw) != [] ==> selectedText == JsText.Trim(raw)
      ensures JsText.Trim(raw) == [] ==> selectedText == old(selectedText)
    {
      var trimmed := JsText.Trim(raw);
      if trimmed != [] {
        selectedText := trimmed;
      }
    }

    /** The level selector changes the level for the next request. */
    method SelectLevel(l: Level)
      requires Valid()
      modifies this`level
      ensures Valid() && level == l
    {
      level := l;
    }

    /**
     * The first half of the Simplify handler, up to the request: with no selection nothing
     * happens and no request is sent; otherwise the panel is loading and the request carries
     * the current selection and level.
     */
    method BeginSimplify() returns (request: Option<Request>)
      requires Valid()
      modifies this`isLoading
      ensures Valid()
      ensures request == None <==> selectedText == ""
      ensures request == None ==> unchanged(this)
      ensures request != None ==> request.value == Request(selectedText, level) && isLoading
      ensures request != None ==> SimplifyDisabled()   // the button stays disabled while pending
    {
      if selectedText == "" {
        return None;
      }
      isLoading := true;
      request := Some(Request(selectedText, level));
    }

    /**
     * The second half of the Simplify handler, once the service has answered. On success the
     * entry for `request` is appended after the cursor, the cursor moves onto it and its text is
     * shown verbatim; on failure only the fixed failure message is shown. Loading ends either way.
     */
    method FinishSimplify(request: Request, outcome: Outcome)
      requires Valid()
      modifies this`history, this`cursor, this`simplifiedText, this`isLoading, this`appended
      ensures Valid() && !isLoading
      ensures outcome.Success? ==>
        && history == Append(old(history), old(cursor), Entry(request.selectedText, outcome.simplifiedText, request.level))
        && cursor == old(cursor) + 1 && cursor == |history| - 1
        && simplifiedText == outcome.simplifiedText && appended == old(appended) + 1
      ensures outcome.Failure? ==>
        && history == old(history) && cursor == old(cursor) && appended == old(appended)
        && simplifiedText == FailureMessage
    {
      match outcome {
        case Success(text) =>
          var e := Entry(request.selectedText, text, request.level);
          AppendKeepsCursorInRange(history, cursor, e);
          history := Append(history, cursor, e);
          cursor := cursor + 1;
          appended := appended + 1;
          simplifiedText := text;
        case Failure =>
          simplifiedText := FailureMessage;
      }
      isLoading := false;
    }

    /** The whole Simplify handler when nothing else happens while the request is pending. */
    method HandleSimplify(outcome: Outcome) returns (sent: bool)
      requires Valid()
      modifies this`history, this`cursor, this`simplifiedText, this`isLoading, this`appended
      ensures Valid()
      ensures sent <==> selectedText != ""
      ensures !sent ==> unchanged(this)
      ensures sent ==> !isLoading
      ensures sent && outcome.Success? ==>
        && history == Append(old(history), old(cursor), Entry(selectedText, outcome.simplifiedText, level))
        && cursor == old(cursor) + 1 && cursor == |history| - 1
        && simplifiedText == outcome.simplifiedText && appended == old(appended) + 1
      ensures sent && outcome.Failure? ==>
        && history == old(history) && cursor == old(cursor) && appended == old(appended)
        && simplifiedText == FailureMessage
    {
      var request := BeginSimplify();
      sent := request != None;
      if sent {
        FinishSimplify(request.value, outcome);
      }
    }

    /**
     * Previous: unless the button is disabled (cursor on the first entry or no history), the
     * cursor moves back one entry and the view shows that entry. The history never changes.
     */
    method GoToPrevious()
      requires Valid()
      modifies this`cursor, this`selectedText, this`simplifiedText, this`level
      ensures Valid() && history == old(history)
      ensures unchanged(this) <==> old(PreviousDisabled())
      ensures !old(PreviousDisabled()) ==> cursor == old(cursor) - 1 && Shows(history[cursor])
    {
      if cursor > 0 {
        var e := history[cursor - 1];
        cursor := cursor - 1;
        selectedText, simplifiedText, level := e.selectedText, e.simplifiedText, e.level;
      }
    }

    /**
     * Next: unless the button is disabled (cursor on the last entry or no history), the cursor
     * moves forward one entry and the view shows that entry. The history never changes.
     */
    method GoToNext()
      requires Valid()
      modifies this`cursor, this`selectedText, this`simplifiedText, this`level
      ensures Valid() && history == old(history)
      ensures unchanged(this) <==> old(NextDisabled())
      ensures !old(NextDisabled()) ==> cursor == old(cursor) + 1 && Shows(history[cursor])
    {
      if cursor < |history| - 1 {
        var e := history[cursor + 1];
        cursor := cursor + 1;
        selectedText, simplifiedText, level := e.selectedText, e.simplifiedText, e.level;
      }
    }

    /** Previous followed by Next comes back to the same entry and shows it. */
    method PreviousThenNext()
      requires Valid() && !PreviousDisabled()
      modifies this`cursor, this`selectedText, this`simplifiedText, this`level
      ensures Valid() && history == old(history) && cursor == old(cursor)
      ensures Shows(history[cursor])
    {
      GoToPrevious();
      GoToNext();
    }
  }
}
