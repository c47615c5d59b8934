/** The text-field state machine `OGTextEditor`: the edited string, a cursor
    index, a selection-end index and a key-repeat timer, driven once per frame
    by polled keyboard input. The edit operations are first given as functions
    on an `EditState` value; the class's methods are proved to follow them. */
module TextEditing {
  import opened Geometry

  /** The part of the editor the edit operations change. */
  datatype EditState = EditState(text: string, cursor: int, select: int)

  /** The order every edit operation keeps: the cursor is never negative and
      never past the selection end. The selection end may pass the end of the
      text (see MovedRight). */
  predicate Ordered(s: EditState)
  {
    0 <= s.cursor <= s.select
  }

  /** .NET `String.Remove(start, count)`; outside these bounds it throws. */
  function Remove(s: string, start: int, count: int): (r: string)
    requires 0 <= start && 0 <= count && start + count <= |s|
    ensures |r| == |s| - count
    ensures r[..start] == s[..start] && r[start..] == s[start + count..]
  {
    s[..start] + s[start + count..]
  }

  /** Backspace's `Remove` call stays inside the text exactly when this holds. */
  predicate RemoveSafe(s: EditState)
  {
    s.cursor > 0 && |s.text| > 0 ==> s.cursor <= s.select <= |s.text|
  }

  /** `Backspace`: delete the selection, or the character before the cursor. */
  function Backspaced(s: EditState): (r: EditState)
    requires RemoveSafe(s)
    ensures s.cursor <= 0 || |s.text| == 0 ==> r == s
    ensures s.cursor > 0 && |s.text| > 0 ==> r.cursor == r.select
    ensures s.cursor > 0 && |s.text| > 0 && s.cursor == s.select ==>
      r.cursor == s.cursor - 1 && |r.text| == |s.text| - 1 &&
      (forall i :: 0 <= i < r.cursor ==> r.text[i] == s.text[i]) &&
      (forall i :: r.cursor <= i < |r.text| ==> r.text[i] == s.text[i + 1])
    ensures s.cursor > 0 && |s.text| > 0 && s.cursor != s.select ==>
      r.cursor == s.cursor && |r.text| == |s.text| - (s.select - s.cursor) &&
      (forall i :: 0 <= i < s.cursor ==> r.text[i] == s.text[i]) &&
      (forall i :: s.cursor <= i < |r.text| ==> r.text[i] == s.text[i + (s.select - s.cursor)])
    ensures Ordered(s) ==> Ordered(r)
  {
    if s.cursor > 0 && |s.text| > 0 then
      var c := if s.select == s.cursor then s.cursor - 1 else s.cursor;
      EditState(Remove(s.text, c, s.select - c), c, c)
    else
      s
  }

  /** `MoveLeft`; `shift` is whether either shift key is held. */
  function MovedLeft(s: EditState, shift: bool): (r: EditState)
    ensures r.text == s.text
    ensures s.cursor <= 0 ==> r == s
    ensures s.cursor > 0 && shift ==> r.cursor == s.cursor - 1 && r.select == s.select
    ensures s.cursor > 0 && !shift && s.cursor != s.select ==> r.cursor == s.cursor && r.select == s.cursor
    ensures s.cursor > 0 && !shift && s.cursor == s.select ==> r.cursor == r.select == s.cursor - 1
    ensures Ordered(s) ==> Ordered(r)
  {
    if s.cursor > 0 then
      if !shift then
        if s.cursor != s.select then s.(select := s.cursor)
        else s.(cursor := s.cursor - 1, select := s.cursor - 1)
      else s.(cursor := s.cursor - 1)
    else s
  }

  /** `MoveRight`. The guard looks at the cursor, not at the selection end,
      so with shift held the selection end can be pushed past the text. */
  function MovedRight(s: EditState, shift: bool): (r: EditState)
    ensures r.text == s.text
    ensures s.cursor >= |s.text| ==> r == s
    ensures s.cursor < |s.text| && shift ==> r.cursor == s.cursor && r.select == s.select + 1
    ensures s.cursor < |s.text| && !shift && s.cursor != s.select ==> r.cursor == s.select && r.select == s.select
    ensures s.cursor < |s.text| && !shift && s.cursor == s.select ==> r.cursor == r.select == s.cursor + 1
    ensures Ordered(s) ==> Ordered(r)
  {
    if s.cursor < |s.text| then
      if !shift then
        if s.cursor != s.select then s.(cursor := s.select)
        else s.(cursor := s.cursor + 1, select := s.cursor + 1)
      else s.(select := s.select + 1)
    else s
  }

  /** What InsertText demands: the Backspace it may run must be safe. */
  predicate InsertSafe(s: EditState, newText: string, arrowHeld: bool)
  {
    !arrowHeld && |newText| > 0 && s.cursor != s.select ==> RemoveSafe(s)
  }

  /** `InsertText`. A selection is first deleted by Backspace. The result of
      the mid-string `string.Insert` is discarded by the code, so text is
      only ever appended; the cursor moves either way. */
  function Inserted(s: EditState, newText: string, arrowHeld: bool): (r: EditState)
    requires InsertSafe(s, newText, arrowHeld)
    ensures arrowHeld || |newText| == 0 ==> r == s
    ensures !arrowHeld && |newText| > 0 ==>
      var b := if s.cursor != s.select then Backspaced(s) else s;
      r.cursor == r.select == b.cursor + |newText| &&
      (r.text == b.text + newText <==> b.cursor >= |b.text| - 1) &&
      (r.text == b.text <==> b.cursor < |b.text| - 1)
    ensures Ordered(s) ==> Ordered(r)
  {
    if arrowHeld || |newText| == 0 then s
    else
      var b := if s.cursor != s.select then Backspaced(s) else s;
      var t := if b.cursor < |b.text| - 1 then b.text else b.text + newText;
      EditState(t, b.cursor + |newText|, b.cursor + |newText|)
  }

  /** One frame of polled input. `exitKeyDown` is `Input.GetKeyDown(exitKey)`;
      the `...Down` fields are key-down edges, the `...Held` fields `GetKey`. */
  datatype FrameInput = FrameInput(
    exitKeyDown: bool,
    backspaceDown: bool,
    leftArrowDown: bool, leftArrowHeld: bool,
    rightArrowDown: bool, rightArrowHeld: bool,
    upArrowHeld: bool, downArrowHeld: bool,
    leftShiftHeld: bool, rightShiftHeld: bool,
    inputString: string,
    deltaTime: real)
  {
    predicate ShiftPressed() { leftShiftHeld || rightShiftHeld }
    predicate ArrowPressed() { leftArrowHeld || downArrowHeld || upArrowHeld || rightArrowHeld }
  }

  /** The branches of Update's action chain, in priority order. */
  datatype Action = ExitAction | BackspaceAction | LeftPress | LeftRepeat | RightPress | RightRepeat | Typing | Idle

  function Rank(a: Action): nat
  {
    match a
    case ExitAction => 0
    case BackspaceAction => 1
    case LeftPress => 2
    case LeftRepeat => 3
    case RightPress => 4
    case RightRepeat => 5
    case Typing => 6
    case Idle => 7
  }

  /** The condition under which each branch would fire on its own. */
  predicate Fires(a: Action, input: FrameInput, hasExitAction: bool, timer: real)
  {
    match a
    case ExitAction => hasExitAction && input.exitKeyDown
    case BackspaceAction => input.backspaceDown
    case LeftPress => input.leftArrowDown
    case LeftRepeat => input.leftArrowHeld && timer <= 0.0
    case RightPress => input.rightArrowDown
    case RightRepeat => input.rightArrowHeld && timer <= 0.0
    case Typing => |input.inputString| > 0
    case Idle => true
  }

  /** The one action a frame performs: the first branch, in rank order, whose
      condition holds. */
  function ChooseAction(input: FrameInput, hasExitAction: bool, timer: real): (a: Action)
    ensures Fires(a, input, hasExitAction, timer)
    ensures forall b: Action :: Rank(b) < Rank(a) ==> !Fires(b, input, hasExitAction, timer)
  {
    if hasExitAction && input.exitKeyDown then ExitAction
    else if input.backspaceDown then BackspaceAction
    else if input.leftArrowDown then LeftPress
    else if input.leftArrowHeld && timer <= 0.0 then LeftRepeat
    else if input.rightArrowDown then RightPress
    else if input.rightArrowHeld && timer <= 0.0 then RightRepeat
    else if |input.inputString| > 0 then Typing
    else Idle
  }

  /** What the chosen action may safely do to the state. */
  predicate ActionSafe(s: EditState, a: Action, input: FrameInput)
  {
    (a == BackspaceAction ==> RemoveSafe(s)) &&
    (a == Typing ==> InsertSafe(s, input.inputString, input.ArrowPressed()))
  }

  /** The edit an action makes. */
  function Apply(s: EditState, a: Action, input: FrameInput): (r: EditState)
    requires ActionSafe(s, a, input)
    ensures a == ExitAction || a == Idle ==> r == s
    ensures Ordered(s) ==> Ordered(r)
  {
    match a
    case ExitAction => s
    case BackspaceAction => Backspaced(s)
    case LeftPress => MovedLeft(s, input.ShiftPressed())
    case LeftRepeat => MovedLeft(s, input.ShiftPressed())
    case RightPress => MovedRight(s, input.ShiftPressed())
    case RightRepeat => MovedRight(s, input.ShiftPressed())
    case Typing => Inserted(s, input.inputString, input.ArrowPressed())
    case Idle => s
  }

  /** The repeat timer once the action has run: a key-down sets the initial
      delay, a repeat sets the repeat interval, anything else keeps it. */
  function TimerSet(a: Action, timer: real, delayUntilRepeat: real, repeat: real): real
  {
    if a == LeftPress || a == RightPress then delayUntilRepeat
    else if a == LeftRepeat || a == RightRepeat then repeat
    else timer
  }

  /** The repeat timer after a frame: set by the action, then counted down
      while positive. */
  function TimerAfter(a: Action, timer: real, delayUntilRepeat: real, repeat: real, deltaTime: real): (t: real)
    ensures a == LeftPress || a == RightPress ==>
      (delayUntilRepeat > 0.0 ==> t == delayUntilRepeat - deltaTime) && (delayUntilRepeat <= 0.0 ==> t == delayUntilRepeat)
    ensures a == LeftRepeat || a == RightRepeat ==>
      (repeat > 0.0 ==> t == repeat - deltaTime) && (repeat <= 0.0 ==> t == repeat)
    ensures a !in {LeftPress, RightPress, LeftRepeat, RightRepeat} ==>
      (timer > 0.0 ==> t == timer - deltaTime) && (timer <= 0.0 ==> t == timer)
  {
    var t0 := TimerSet(a, timer, delayUntilRepeat, repeat);
    if t0 > 0.0 then t0 - deltaTime else t0
  }

  /** A C# float-to-int cast: truncation toward zero. */
  function TruncToInt(q: real): (n: int)
    ensures q >= 0.0 ==> n >= 0 && n as real <= q < n as real + 1.0
    ensures q < 0.0 ==> n <= 0 && n as real - 1.0 < q <= n as real
  {
    if q >= 0.0 then q.Floor else -((-q).Floor)
  }

  /** The number of selection rows Update allocates, from the vertical
      distance `dy = cursorSelectPos.y - cursorPos.y` and the cursor height
      `h = cursorSize.y` (which `DrawLabel` sets to the font size, not to the
      label's line height). With a positive `h` there is at least one row
      exactly when `dy > -h`, at most one exactly when `dy < h`, and the
      count is negative (the array allocation throws) exactly when
      `dy <= -2h`. */
  function SelectionLines(cursorPos: Vec2, cursorSelectPos: Vec2, cursorSize: Vec2): (lines: int)
    requires cursorSize.y != 0.0
    ensures cursorSize.y > 0.0 ==> (lines >= 1 <==> cursorSelectPos.y - cursorPos.y > -cursorSize.y)
    ensures cursorSize.y > 0.0 ==> (lines <= 1 <==> cursorSelectPos.y - cursorPos.y < cursorSize.y)
    ensures cursorSize.y > 0.0 ==> (lines < 0 <==> cursorSelectPos.y - cursorPos.y <= -2.0 * cursorSize.y)
  {
    var d := cursorSelectPos.y - cursorPos.y;
    if cursorSize.y > 0.0 then
      TruncRows(d, cursorSize.y);
      TruncToInt(d / cursorSize.y) + 1
    else
      TruncToInt(d / cursorSize.y) + 1
  }

  /** The truncated quotient `d / h` against the multiples of `h` that decide
      the row count's sign. */
  lemma TruncRows(d: real, h: real)
    requires h > 0.0
    ensures TruncToInt(d / h) >= 0 <==> d > -h
    ensures TruncToInt(d / h) <= 0 <==> d < h
    ensures TruncToInt(d / h) <= -2 <==> d <= -2.0 * h
  {
    var q := d / h;
    var n := TruncToInt(q);
    DivMul(d, h);
    if q > -1.0 {
      MulStrict(-1.0, q, h);
      assert -1.0 < n as real;
      assert n >= 0;
    } else {
      MulMonotone(q, -1.0, h);
      assert n as real - 1.0 < -1.0;
      assert n < 0;
    }
    if q < 1.0 {
      MulStrict(q, 1.0, h);
      assert n as real < 1.0;
      assert n <= 0;
    } else {
      MulMonotone(1.0, q, h);
      assert n as real > 0.0;
      assert n > 0;
    }
    TruncBelowTwo(d, h);
  }

  lemma TruncBelowTwo(d: real, h: real)
    requires h > 0.0
    ensures TruncToInt(d / h) <= -2 <==> d <= -2.0 * h
  {
    var q := d / h;
    var n := TruncToInt(q);
    DivMul(d, h);
    if q <= -2.0 {
      MulMonotone(q, -2.0, h);
      assert n as real - 1.0 < -2.0;
      assert n <= -2;
    } else {
      MulStrict(-2.0, q, h);
      assert -2.0 < n as real;
      assert n > -2;
    }
  }

  /** In the label layout y grows upward and each line lies one line height
      below the previous one. With a 12-unit font size (the cursor height)
      and a 14.4-unit line height, a selection whose end is on the next line
      has `dy = -14.4`, between `-2h` and `-h`, and gets no rows at all. */
  lemma TwoLineSelectionGetsNoRows()
    ensures SelectionLines(Vec2(0.0, 100.0), Vec2(5.0, 85.6), Vec2(1.0, 12.0)) == 0
  {
    assert (85.6 - 100.0) / 12.0 == -1.2;
  }

  /** With the same sizes, a selection whose end is two lines further down
      has `dy = -28.8 <= -2h` and gets a negative row count, for which the
      row array cannot be allocated. */
  lemma ThreeLineSelectionGetsNegativeRows()
    ensures SelectionLines(Vec2(0.0, 100.0), Vec2(5.0, 71.2), Vec2(1.0, 12.0)) == -1
  {
    assert (71.2 - 100.0) / 12.0 == -2.4;
  }

  /** With the cursor at 0 Backspace does nothing, even over a selection. */
  lemma BackspaceAtStartKeepsSelection()
    ensures Backspaced(EditState("abc", 0, 2)) == EditState("abc", 0, 2)
  {
  }

  /** Typing "X" over the selection "hello" with the cursor at index 0: the
      Backspace does nothing at index 0 and the mid-string insert is lost, so
      only the cursor moves. */
  lemma TypingOverSelectionAtStart()
    ensures Inserted(EditState("hello world", 0, 5), "X", false) == EditState("hello world", 1, 1)
  {
  }

  /** Typing with the cursor at the last character appends instead of inserting. */
  lemma TypingBeforeLastCharacterAppends()
    ensures Inserted(EditState("ab", 1, 1), "X", false) == EditState("abX", 2, 2)
  {
    assert "ab" + "X" == "abX";
  }

  /** Shift-MoveRight with a selection can push the selection end past the
      text, and a following Backspace would then be out of range. */
  lemma ShiftRightOvershoots()
    ensures MovedRight(EditState("ab", 1, 2), true) == EditState("ab", 1, 3)
    ensures !RemoveSafe(EditState("ab", 1, 3))
  {
  }

  /** With the selection end on the cursor's row or past it (in the
      direction of `cursorSize.y`), a selection gets at least one row, and
      the rows after the first are the whole cursor heights between the two
      positions. */
  lemma SelectionRowsCover(cursorPos: Vec2, cursorSelectPos: Vec2, cursorSize: Vec2)
    requires cursorSize.y > 0.0 && cursorSelectPos.y >= cursorPos.y
    ensures SelectionLines(cursorPos, cursorSelectPos, cursorSize) >= 1
    ensures (SelectionLines(cursorPos, cursorSelectPos, cursorSize) - 1) as real * cursorSize.y
            <= cursorSelectPos.y - cursorPos.y
    ensures cursorSelectPos.y - cursorPos.y
            < SelectionLines(cursorPos, cursorSelectPos, cursorSize) as real * cursorSize.y
  {
    var h := cursorSize.y;
    var d := cursorSelectPos.y - cursorPos.y;
    TruncCovers(d, h);
    var n := TruncToInt(d / h);
    var lines := SelectionLines(cursorPos, cursorSelectPos, cursorSize);
    assert lines == n + 1;
    assert (lines - 1) as real == n as real && lines as real == (n + 1) as real;
  }

  /** For `d >= 0` the truncated quotient counts the whole multiples of `h`
      in `d`. */
  lemma TruncCovers(d: real, h: real)
    requires d >= 0.0 && h > 0.0
    ensures (TruncToInt(d / h) as real) * h <= d
    ensures d < ((TruncToInt(d / h) + 1) as real) * h
  {
    var q := d / h;
    DivNonNegative(d, h);
    var n := TruncToInt(q);
    assert n as real <= q < n as real + 1.0;
    DivMul(d, h);
    MulMonotone(n as real, q, h);
    MulStrict(q, n as real + 1.0, h);
    var above := (n + 1) as real;
    assert above == n as real + 1.0;
    assert above * h == (n as real + 1.0) * h;
    assert d == q * h;
    assert q * h < above * h;
    assert d < above * h;
    assert d < ((TruncToInt(d / h) + 1) as real) * h;
  }

  lemma DivNonNegative(d: real, h: real)
    requires d >= 0.0 && h > 0.0
    ensures d / h >= 0.0
  {
  }

  lemma DivMul(d: real, h: real)
    requires h != 0.0
    ensures (d / h) * h == d
  {
  }

  lemma MulMonotone(a: real, b: real, h: real)
    requires a <= b && h > 0.0
    ensures a * h <= b * h
  {
  }

  lemma MulStrict(a: real, b: real, h: real)
    requires a < b && h > 0.0
    ensures a * h < b * h
  {
  }

  /** The y of selection row `i`: `i` cursor heights above the cursor's
      (larger y) for a positive cursor height. */
  function RowY(y0: real, i: int, lineHeight: real): real { y0 + i as real * lineHeight }

  /** The editor object the text field owns across frames. */
  class TextEditor {
    var enabled: bool
    /** The source's `string` field. */
    var text: string
    var cursorPos: Vec2
    var cursorSelectPos: Vec2
    var cursorSize: Vec2
    var cursorRect: Rect
    var selectionRects: seq<Rect>
    var cursorIndex: int
    var cursorSelectIndex: int
    var delayUntilRepeat: real
    var repeat: real
    /** Whether `exitAction` is set. */
    var hasExitAction: bool
    /** How many times `exitAction` has been invoked. */
    var exitActionCalls: nat
    var inputTimer: real

    function State(): EditState
      reads this
    {
      EditState(text, cursorIndex, cursorSelectIndex)
    }

    predicate Valid()
      reads this
    {
      Ordered(State())
    }

    /** The fields that neither the edit operations nor label layout write. */
    function Settings(): (Rect, seq<Rect>, real, real, real, bool, bool, nat)
      reads this
    {
      (cursorRect, selectionRects, delayUntilRepeat, repeat, inputTimer, enabled, hasExitAction, exitActionCalls)
    }

    /** The field initialisers of the source class. */
    constructor ()
      ensures Valid() && State() == EditState("", 0, 0)
      ensures enabled && cursorSize == Vec2(2.0, 12.0) && selectionRects == []
      ensures delayUntilRepeat == 0.25 && repeat == 0.025 && inputTimer == 0.0
      ensures !hasExitAction && exitActionCalls == 0
    {
      enabled := true;
      text := "";
      cursorPos := Vec2(0.0, 0.0);
      cursorSelectPos := Vec2(0.0, 0.0);
      cursorSize := Vec2(2.0, 12.0);
      cursorRect := Rect(0.0, 0.0, 0.0, 0.0);
      selectionRects := [];
      cursorIndex := 0;
      cursorSelectIndex := 0;
      delayUntilRepeat := 0.25;
      repeat := 0.025;
      hasExitAction := false;
      exitActionCalls := 0;
      inputTimer := 0.0;
    }

    method Backspace()
      requires RemoveSafe(State())
      modifies this`text, this`cursorIndex, this`cursorSelectIndex
      ensures State() == Backspaced(old(State()))
      ensures old(Valid()) ==> Valid()
    {
      if cursorIndex > 0 && |text| > 0 {
        if cursorSelectIndex == cursorIndex {
          cursorIndex := cursorIndex - 1;
        }
        ghost var c := cursorIndex;
        text := Remove(text, cursorIndex, cursorSelectIndex - cursorIndex);
        cursorSelectIndex := cursorIndex;
        assert State() == EditState(text, c, c);
      }
    }

    /** `arrowHeld` is the source's `arrowPressed` property. */
    method InsertText(newText: string, arrowHeld: bool)
      requires InsertSafe(State(), newText, arrowHeld)
      modifies this`text, this`cursorIndex, this`cursorSelectIndex
      ensures State() == Inserted(old(State()), newText, arrowHeld)
      ensures old(Valid()) ==> Valid()
    {
      if arrowHeld || |newText| == 0 {
        return;
      }
      if cursorIndex != cursorSelectIndex {
        Backspace();
      }
      if cursorIndex < |text| - 1 {
        // The value of `string.Insert` is not stored: the text is unchanged.
      } else {
        text := text + newText;
      }
      cursorIndex := cursorIndex + |newText|;
      cursorSelectIndex := cursorIndex;
    }

    /** `shift` is the source's `shiftPressed` property. */
    method MoveLeft(shift: bool)
      modifies this`cursorIndex, this`cursorSelectIndex
      ensures State() == MovedLeft(old(State()), shift)
      ensures old(Valid()) ==> Valid()
    {
      if cursorIndex > 0 {
        if !shift {
          if cursorIndex != cursorSelectIndex {
            cursorSelectIndex := cursorIndex;
          } else {
            cursorIndex := cursorIndex - 1;
            cursorSelectIndex := cursorIndex;
          }
        } else {
          cursorIndex := cursorIndex - 1;
        }
      }
    }

    method MoveRight(shift: bool)
      modifies this`cursorIndex, this`cursorSelectIndex
      ensures State() == MovedRight(old(State()), shift)
      ensures old(Valid()) ==> Valid()
    {
      if cursorIndex < |text| {
        if !shift {
          if cursorIndex != cursorSelectIndex {
            cursorIndex := cursorSelectIndex;
          } else {
            cursorIndex := cursorIndex + 1;
            cursorSelectIndex := cursorIndex;
          }
        } else {
          cursorSelectIndex := cursorSelectIndex + 1;
        }
      }
    }

    /** The caret and selection rectangles Update leaves behind. With equal
        indices: no selection rows and a caret box at the cursor. Otherwise: a
        zero caret and one row per line the two positions span; the first row
        starts at the cursor, every later row spans the whole rectangle (the
        source never gives the last row the selection end's x). */
    predicate RectsDerived(rect: Rect)
      reads this`cursorIndex, this`cursorSelectIndex, this`cursorPos, this`cursorSelectPos,
            this`cursorSize, this`cursorRect, this`selectionRects
    {
      (cursorIndex == cursorSelectIndex ==>
        selectionRects == [] && cursorRect == Rect(cursorPos.x, cursorPos.y, cursorSize.x, cursorSize.y)) &&
      (cursorIndex != cursorSelectIndex ==>
        cursorRect == Rect(0.0, 0.0, 0.0, 0.0) &&
        cursorSize.y != 0.0 && |selectionRects| == SelectionLines(cursorPos, cursorSelectPos, cursorSize) &&
        (|selectionRects| == 1 ==>
          selectionRects[0] == Rect(cursorPos.x, cursorPos.y, cursorSelectPos.x - cursorPos.x, cursorSize.y)) &&
        (|selectionRects| > 1 ==>
          selectionRects[0] == Rect(cursorPos.x, cursorPos.y, rect.XMax() - cursorPos.x, cursorSize.y)) &&
        (forall i :: 1 <= i < |selectionRects| ==>
          selectionRects[i] == Rect(rect.x, RowY(cursorPos.y, i, cursorSize.y), rect.width, cursorSize.y)))
    }

    /** The action chain of one frame (the if/else-if chain of `Update`). */
    method RunAction(newText: string, input: FrameInput)
      requires ActionSafe(EditState(newText, cursorIndex, cursorSelectIndex),
                          ChooseAction(input, hasExitAction, inputTimer), input)
      modifies this`text, this`cursorIndex, this`cursorSelectIndex, this`inputTimer, this`exitActionCalls
      ensures var a := ChooseAction(input, hasExitAction, old(inputTimer));
              State() == Apply(EditState(newText, old(cursorIndex), old(cursorSelectIndex)), a, input) &&
              exitActionCalls == old(exitActionCalls) + (if a == ExitAction then 1 else 0) &&
              inputTimer == TimerSet(a, old(inputTimer), delayUntilRepeat, repeat)
      ensures old(Valid()) ==> Valid()
    {
      text := newText;
      if hasExitAction && input.exitKeyDown {
        exitActionCalls := exitActionCalls + 1;
      } else if input.backspaceDown {
        Backspace();
      } else if input.leftArrowDown {
        MoveLeft(input.ShiftPressed());
        inputTimer := delayUntilRepeat;
      } else if input.leftArrowHeld && inputTimer <= 0.0 {
        MoveLeft(input.ShiftPressed());
        inputTimer := repeat;
      } else if input.rightArrowDown {
        MoveRight(input.ShiftPressed());
        inputTimer := delayUntilRepeat;
      } else if input.rightArrowHeld && inputTimer <= 0.0 {
        MoveRight(input.ShiftPressed());
        inputTimer := repeat;
      } else if |input.inputString| > 0 {
        InsertText(input.inputString, input.ArrowPressed());
      }
    }

    /** The caret and selection rectangles of `Update`, derived from the two
        recorded screen positions and the cursor size. */
    method DeriveRects(rect: Rect)
      requires cursorIndex != cursorSelectIndex ==>
        cursorSize.y != 0.0 && SelectionLines(cursorPos, cursorSelectPos, cursorSize) >= 0
      modifies this`cursorRect, this`selectionRects
      ensures RectsDerived(rect)
    {
      if cursorIndex != cursorSelectIndex {
        cursorRect := Rect(0.0, 0.0, 0.0, 0.0);
        var lines := TruncToInt((cursorSelectPos.y - cursorPos.y) / cursorSize.y);
        lines := lines + 1;
        var rects := new Rect[lines];
        var i := 0;
        while i < lines
          invariant 0 <= i <= lines
          invariant cursorRect == Rect(0.0, 0.0, 0.0, 0.0)
          invariant 0 < i && lines > 1 ==>
            rects[0] == Rect(cursorPos.x, cursorPos.y, rect.XMax() - cursorPos.x, cursorSize.y)
          invariant 0 < i && lines <= 1 ==>
            rects[0] == Rect(cursorPos.x, cursorPos.y, cursorSelectPos.x - cursorPos.x, cursorSize.y)
          invariant forall k :: 1 <= k < i ==>
            rects[k] == Rect(rect.x, RowY(cursorPos.y, k, cursorSize.y), rect.width, cursorSize.y)
        {
          if i < 1 {
            if lines > 1 {
              rects[i] := Rect(cursorPos.x, cursorPos.y, rect.XMax() - cursorPos.x, cursorSize.y);
            } else {
              rects[i] := Rect(cursorPos.x, cursorPos.y, cursorSelectPos.x - cursorPos.x, cursorSize.y);
            }
          } else if i == lines {
            // Unreachable: the loop runs only while i < lines.
            assert false;
          } else {
            rects[i] := Rect(rect.x, cursorPos.y + i as real * cursorSize.y, rect.width, cursorSize.y);
            assert rects[i].y == RowY(cursorPos.y, i, cursorSize.y);
          }
          i := i + 1;
        }
        selectionRects := rects[..];
      } else {
        cursorRect := Rect(cursorPos.x, cursorPos.y, cursorSize.x, cursorSize.y);
        selectionRects := [];
      }
    }

    /** One frame: adopt the caller's text, run at most one action, derive the
        caret or the selection rectangles, count the repeat timer down. */
    method Update(newText: string, rect: Rect, input: FrameInput) returns (result: string)
      requires ActionSafe(EditState(newText, cursorIndex, cursorSelectIndex),
                          ChooseAction(input, hasExitAction, inputTimer), input)
      requires var after := Apply(EditState(newText, cursorIndex, cursorSelectIndex),
                                  ChooseAction(input, hasExitAction, inputTimer), input);
               after.cursor != after.select ==>
                 cursorSize.y != 0.0 && SelectionLines(cursorPos, cursorSelectPos, cursorSize) >= 0
      modifies this`text, this`cursorIndex, this`cursorSelectIndex, this`inputTimer, this`exitActionCalls,
               this`cursorRect, this`selectionRects
      ensures var a := ChooseAction(input, old(hasExitAction), old(inputTimer));
              State() == Apply(EditState(newText, old(cursorIndex), old(cursorSelectIndex)), a, input) &&
              exitActionCalls == old(exitActionCalls) + (if a == ExitAction then 1 else 0) &&
              inputTimer == TimerAfter(a, old(inputTimer), delayUntilRepeat, repeat, input.deltaTime)
      ensures result == text
      ensures old(Valid()) ==> Valid()
      ensures RectsDerived(rect)
      ensures enabled == old(enabled) && hasExitAction == old(hasExitAction)
      ensures delayUntilRepeat == old(delayUntilRepeat) && repeat == old(repeat)
      ensures cursorPos == old(cursorPos) && cursorSelectPos == old(cursorSelectPos) && cursorSize == old(cursorSize)
    {
      RunAction(newText, input);
      DeriveRects(rect);
      if inputTimer > 0.0 {
        inputTimer := inputTimer - input.deltaTime;
      }
      result := text;
    }
  }
  /** The editor's invariant after `Update`: equal indices exactly when no
      selection rows were made, as long as the selection end lies on the
      cursor's line or higher (larger y). */
  lemma SelectionIffRows(e: TextEditor, rect: Rect)
    requires e.RectsDerived(rect)
    requires e.cursorSize.y > 0.0 && e.cursorSelectPos.y >= e.cursorPos.y
    ensures e.cursorIndex == e.cursorSelectIndex <==> e.selectionRects == []
  {
    if e.cursorIndex != e.cursorSelectIndex {
      SelectionRowsCover(e.cursorPos, e.cursorSelectPos, e.cursorSize);
    }
  }

  /** The other side of `SelectionIffRows`: in the label's layout, where y
      grows upward, a selection whose end lies one cursor height (the font
      size) or more below the cursor keeps two different indices but gets no
      selection rows. */
  lemma SelectionOverLinesHasNoRows(e: TextEditor, rect: Rect)
    requires e.RectsDerived(rect)
    requires e.cursorIndex != e.cursorSelectIndex
    requires e.cursorSize.y > 0.0 && e.cursorSelectPos.y <= e.cursorPos.y - e.cursorSize.y
    ensures e.selectionRects == []
  {
    assert SelectionLines(e.cursorPos, e.cursorSelectPos, e.cursorSize) <= 0;
  }
}
