# OpenGUI drawing core in Dafny

This project models the drawing core of OpenGUI, an immediate-mode GUI layer
for Unity: the file `OGDrawHelper.js`. It covers three parts of that file.

- **`OGTextEditor`**, the text-field state machine (module `TextEditing`,
  `text_editor.dfy`). It keeps the edited string, a cursor index, a
  selection-end index and a key-repeat timer. Once per frame, `Update` adopts
  the caller's text and runs at most one action: exit, backspace, left
  (press or repeat), right (press or repeat), or typing. It then derives
  either a caret rectangle or one selection rectangle per covered line. Each
  edit is first written as a function on an `EditState` value
  (`Backspaced`, `MovedLeft`, `MovedRight`, `Inserted`, `ChooseAction`,
  `Apply`, `TimerAfter`). The class `TextEditor` has the source's fields, and
  each of its methods is proved to follow the matching function.
- **Label layout** (module `Label`, `label.dfy`). `GetLabelWidth` measures a
  string. The nine-argument `DrawLabel` does the early exits, the 9-way
  anchor, the greedy line breaker with its emergency brake, per-glyph quads
  clipped against the clip rectangle with matching UV shifts, and the
  recording of the editor's cursor and selection-end positions.
- **The sprite compositor** (module `Sprites`, `sprites.dfy`). It covers
  plain, tiled, 9-sliced and tiled 9-sliced sprites.

Shared geometry lives in module `Geometry` (`geometry.dfy`): rectangles,
colours, quads and the command stream. Every `GL.Color` call and every
emitted quad becomes one element of a `seq<Command>`. That sequence is the
result of each drawing operation. All arithmetic is exact `real` arithmetic.

The source's `string` field is called `text` here, because `string` is a
Dafny type. The shorter `DrawLabel` overloads (`OGDrawHelper.js:262-276`)
forward to the nine-argument one. Those without `intSize` and `alignment`
pass `style.fontSize` and `style.alignment`. Each passes its own clip widget
and editor when it has them, and `null` for the ones it lacks. The
`DrawSprite`, `DrawTiledSprite` and `DrawSlicedSprite` overloads without a
clip widget forward with `null` for it (`OGDrawHelper.js:576-580,645-647,672-674`).
All of these are covered by calling the longer operation with those
arguments: `None` for a null clip widget, `null` for a missing editor. The
style variants of `DrawSprite` and `DrawTiledSprite` are `DrawStyleSprite`
and `DrawTiledStyleSprite`.

## Behaviour of the code worth knowing

- With the cursor at index 0, `Backspace` does nothing, even over a
  selection (`OGDrawHelper.js:31`).
- `InsertText` discards the result of `string.Insert`, so a mid-string
  insert leaves the text unchanged. The cursor still moves
  (`OGDrawHelper.js:51-59`). Typing "X" over the selection `[0, 5)` of
  "hello world" therefore leaves the text as it was, with both indices at 1
  (`TypingOverSelectionAtStart`).
- Shift with `MoveLeft` moves `cursorIndex`, not the selection end. Shift
  with `MoveRight` moves `cursorSelectIndex` and can push it past the end of
  the text (`OGDrawHelper.js:75,93`). The indices are not clamped.
- The last selection row never gets the selection end's x. The
  `i == lines` branch cannot be reached inside the loop
  (`OGDrawHelper.js:155`), so every row after the first spans the whole
  rectangle.
- The selection rows grow upward from `cursorPos.y`, by whole cursor
  heights (`OGDrawHelper.js:139,159`). The cursor height `cursorSize.y` is
  the font size, which `DrawLabel` stores (`OGDrawHelper.js:534`). It is not
  the label's line height `font.lineSpacing * intSize / font.size`
  (`OGDrawHelper.js:310,331`).
  - Positions are in screen space, where y grows upward, and a later line of
    a label is lower. So for a selection that runs forward over several
    lines, `dy = cursorSelectPos.y - cursorPos.y` is negative.
  - With `h = cursorSize.y`, the row count `trunc(dy / h) + 1` is at least 1
    exactly when `dy > -h`. It is 0 when `-2h < dy <= -h`. It is negative
    exactly when `dy <= -2h`, and `new Rect[lines]` then throws
    (`SelectionLines`).
  - Take a label whose line height is at least the font size and less than
    twice it. Assume both recorded corners sit at the same offset from their
    lines: glyph bottoms include `vert.y + vert.height`
    (`OGDrawHelper.js:472`), so descenders and clipping can shift them.
    Then a forward selection over two lines gets 0 rows, and one over three
    or more gets a negative count (`TwoLineSelectionGetsNoRows`,
    `ThreeLineSelectionGetsNegativeRows`, `SelectionOverLinesHasNoRows`).
  - Other metrics move these boundaries. A line height below the font size
    gives a two-line selection one row. A line height of twice the font size
    already makes the two-line count negative.
- The editor's positions are taken from the quad after clipping, and only
  from glyphs that are drawn (`OGDrawHelper.js:510-535`).
- A line breaks when its width reaches the content width (`>=`), not only
  when the width exceeds it (`OGDrawHelper.js:423`).

## Model

| member | source | states |
|---|---|---|
| `TextEditing.Remove` | OpenGUI/Assets/Plugins/OpenGUI/Scripts/OGDrawHelper.js:36 | `String.Remove` keeps the prefix before `start` and the suffix after the removed `count` characters, and shortens the text by `count` |
| `TextEditing.Backspaced` | OpenGUI/Assets/Plugins/OpenGUI/Scripts/OGDrawHelper.js:30-40 | with the cursor at 0 or an empty text nothing changes, even over a selection; without a selection exactly the character before the cursor is removed and the cursor steps back; with a selection exactly `[cursor, select)` is removed; both indices end equal; order `0 <= cursor <= select` is kept |
| `TextEditing.MovedLeft` | OpenGUI/Assets/Plugins/OpenGUI/Scripts/OGDrawHelper.js:63-79 | the text is unchanged; at index 0 nothing moves; with shift only the cursor steps back; without shift a selection only collapses to the cursor, otherwise both indices step back; order is kept |
| `TextEditing.MovedRight` | OpenGUI/Assets/Plugins/OpenGUI/Scripts/OGDrawHelper.js:81-97 | the text is unchanged; at or past the end nothing moves; with shift only the selection end steps forward, possibly past the text; without shift a selection only collapses to its end, otherwise both indices step forward; order is kept |
| `TextEditing.Inserted` | OpenGUI/Assets/Plugins/OpenGUI/Scripts/OGDrawHelper.js:42-61 | no-op while an arrow is held or for empty input; otherwise both indices end at the post-Backspace cursor plus the input length, and the text gains the input exactly when that cursor is at least `length - 1`, otherwise it is unchanged; order is kept |
| `TextEditing.ChooseAction` | OpenGUI/Assets/Plugins/OpenGUI/Scripts/OGDrawHelper.js:103-134 | the action a frame runs is one whose condition holds, and no action of higher priority (exit, backspace, left press, left repeat with timer <= 0, right press, right repeat, typing) has its condition hold |
| `TextEditing.Apply` | OpenGUI/Assets/Plugins/OpenGUI/Scripts/OGDrawHelper.js:103-134 | the exit action and an idle frame leave the text and indices alone; every action keeps `0 <= cursor <= select` |
| `TextEditing.TimerAfter` | OpenGUI/Assets/Plugins/OpenGUI/Scripts/OGDrawHelper.js:110-172 | a key press sets the timer to `delayUntilRepeat`, a held repeat to `repeat`, any other action keeps it; the result is then reduced by `deltaTime` only when positive |
| `TextEditing.TruncToInt` | OpenGUI/Assets/Plugins/OpenGUI/Scripts/OGDrawHelper.js:139 | the float-to-int cast truncates toward zero: the result is within one of the quotient, on the zero side |
| `TextEditing.SelectionLines` | OpenGUI/Assets/Plugins/OpenGUI/Scripts/OGDrawHelper.js:139-141 | with `dy = cursorSelectPos.y - cursorPos.y` and a positive cursor height `h = cursorSize.y` (the font size, not the line height), the row count is at least 1 exactly when `dy > -h`, at most 1 exactly when `dy < h`, and negative exactly when `dy <= -2h` |
| `TextEditing.TruncRows` | OpenGUI/Assets/Plugins/OpenGUI/Scripts/OGDrawHelper.js:139 | the truncated quotient `trunc(d / h)` is non-negative exactly when `d > -h`, non-positive exactly when `d < h`, and at most -2 exactly when `d <= -2h` |
| `TextEditing.TwoLineSelectionGetsNoRows` | OpenGUI/Assets/Plugins/OpenGUI/Scripts/OGDrawHelper.js:139-143 | with a cursor height (font size) of 12 and a line height of 14.4, a selection whose end is on the next line down (cursor at y 100, end at y 85.6, so `-2h < dy <= -h`) gets a row count of 0 |
| `TextEditing.ThreeLineSelectionGetsNegativeRows` | OpenGUI/Assets/Plugins/OpenGUI/Scripts/OGDrawHelper.js:139-143 | with the same sizes, a selection whose end is two lines down (end at y 71.2, so `dy <= -2h`) gets a row count of -1, where the source's array allocation throws |
| `TextEditing.SelectionRowsCover` | OpenGUI/Assets/Plugins/OpenGUI/Scripts/OGDrawHelper.js:139-143 | with the selection end level with the cursor or higher (`dy >= 0`) and a positive cursor height, at least one row is made, and the rows after the first are the whole cursor heights between the two positions |
| `TextEditing.SelectionIffRows` | OpenGUI/Assets/Plugins/OpenGUI/Scripts/OGDrawHelper.js:136-168 | after `Update`, with the selection end level with the cursor or higher (`dy >= 0`) and a positive cursor height, the two indices are equal exactly when there are no selection rows |
| `TextEditing.SelectionOverLinesHasNoRows` | OpenGUI/Assets/Plugins/OpenGUI/Scripts/OGDrawHelper.js:136-168 | after `Update`, a selection whose end lies one cursor height (`cursorSize.y`, the font size) or more below the cursor (`dy <= -h`) has no selection rows although the indices differ |
| `TextEditing.BackspaceAtStartKeepsSelection` | OpenGUI/Assets/Plugins/OpenGUI/Scripts/OGDrawHelper.js:31 | Backspace on "abc" with cursor 0 and selection end 2 changes nothing |
| `TextEditing.TypingOverSelectionAtStart` | OpenGUI/Assets/Plugins/OpenGUI/Scripts/OGDrawHelper.js:47-60 | typing "X" over "hello" selected at the start of "hello world" keeps the text and leaves both indices at 1 |
| `TextEditing.TypingBeforeLastCharacterAppends` | OpenGUI/Assets/Plugins/OpenGUI/Scripts/OGDrawHelper.js:51-56 | with the cursor before the last character, typing appends to the end ("ab" becomes "abX") |
| `TextEditing.ShiftRightOvershoots` | OpenGUI/Assets/Plugins/OpenGUI/Scripts/OGDrawHelper.js:82-93 | shift-right on "ab" with indices 1 and 2 moves the selection end to 3, past the text, where Backspace's `Remove` would be out of range |
| `TextEditing.TextEditor.constructor` | OpenGUI/Assets/Plugins/OpenGUI/Scripts/OGDrawHelper.js:6-20 | the field initialisers: enabled, cursor size (2, 12), no selection rows, repeat delays 0.25 and 0.025, timer 0; the text starts as `""` where the source leaves `string` null |
| `TextEditing.TextEditor.Backspace` | OpenGUI/Assets/Plugins/OpenGUI/Scripts/OGDrawHelper.js:30-40 | the new text and indices are `Backspaced` of the old ones, and `Valid` is kept |
| `TextEditing.TextEditor.InsertText` | OpenGUI/Assets/Plugins/OpenGUI/Scripts/OGDrawHelper.js:42-61 | the new text and indices are `Inserted` of the old ones, and `Valid` is kept |
| `TextEditing.TextEditor.MoveLeft` | OpenGUI/Assets/Plugins/OpenGUI/Scripts/OGDrawHelper.js:63-79 | the new indices are `MovedLeft` of the old ones, and `Valid` is kept |
| `TextEditing.TextEditor.MoveRight` | OpenGUI/Assets/Plugins/OpenGUI/Scripts/OGDrawHelper.js:81-97 | the new indices are `MovedRight` of the old ones, and `Valid` is kept |
| `TextEditing.TextEditor.RunAction` | OpenGUI/Assets/Plugins/OpenGUI/Scripts/OGDrawHelper.js:102-134 | runs exactly the action `ChooseAction` picks, counts one exit-callback call for the exit action, sets the timer as `TimerSet` says, and keeps `Valid` |
| `TextEditing.TextEditor.DeriveRects` | OpenGUI/Assets/Plugins/OpenGUI/Scripts/OGDrawHelper.js:136-168 | equal indices give no rows and the caret box at `cursorPos`; otherwise a zero caret and `trunc(dy / cursorSize.y) + 1` rows, the first starting at `cursorPos` (to the selection end's x on one row, to `rect.xMax` otherwise), every later row `i` at `rect.x` with `rect.width` and at `cursorPos.y + i * cursorSize.y`, one cursor height higher each |
| `TextEditing.TextEditor.Update` | OpenGUI/Assets/Plugins/OpenGUI/Scripts/OGDrawHelper.js:99-175 | adopts the caller's text, applies the chosen action, derives the rectangles as `DeriveRects` states, counts the timer down only when positive, returns the new text, keeps `Valid`, and leaves the positions, cursor size and settings alone |
| `Label.GlyphsWidthMonotone` | OpenGUI/Assets/Plugins/OpenGUI/Scripts/OGDrawHelper.js:245-256 | with non-negative glyph widths and scale, a longer prefix never measures narrower |
| `Label.LabelWidthAppend` | OpenGUI/Assets/Plugins/OpenGUI/Scripts/OGDrawHelper.js:239-259 | the measured width of a concatenation is the sum of the parts' widths minus one horizontal padding |
| `Label.GetLabelWidth` | OpenGUI/Assets/Plugins/OpenGUI/Scripts/OGDrawHelper.js:239-259 | returns the horizontal padding plus, per character, the space width for a space, the scaled glyph width for a known glyph, and 0 otherwise |
| `Label.LayoutBounds` | OpenGUI/Assets/Plugins/OpenGUI/Scripts/OGDrawHelper.js:314-319 | the content box: `left` and `bottom` are the left and bottom padding, `right` is the width left between the paddings, `top` lies the top padding below the rectangle's height, `center` is half of `right` past `left`, and `middle` lies half a line height above the rectangle's mid-height |
| `Label.AnchorPoint` | OpenGUI/Assets/Plugins/OpenGUI/Scripts/OGDrawHelper.js:338-384 | the anchor's x is left, center or right by the alignment's column, and its y is top, middle or bottom by its row |
| `Label.GlyphQuad` | OpenGUI/Assets/Plugins/OpenGUI/Scripts/OGDrawHelper.js:454-473 | the unclipped glyph quad sits at rect + anchor + advance + scaled footprint offset, has the scaled footprint's size, and has the UV rectangle's corners, with the two off-diagonal corners swapped for a flipped glyph |
| `Label.ClipGlyph` | OpenGUI/Assets/Plugins/OpenGUI/Scripts/OGDrawHelper.js:478-508 | a glyph is kept exactly when its clamped sides still have positive extent; a kept quad lies inside the clip rectangle, and each UV moves by the cut length on its side divided by the atlas size |
| `Label.ClipDropsGlyphLeftOfClip` | OpenGUI/Assets/Plugins/OpenGUI/Scripts/OGDrawHelper.js:478-507 | a glyph wholly left of the clip's left edge is never emitted |
| `Label.ClipNarrowsStraddlingGlyph` | OpenGUI/Assets/Plugins/OpenGUI/Scripts/OGDrawHelper.js:480-484 | a glyph straddling the clip's left edge is emitted with exactly its visible width and its left UVs shifted by the cut |
| `Label.LastSpace` | OpenGUI/Assets/Plugins/OpenGUI/Scripts/OGDrawHelper.js:398-415 | the scan's `lastSpace` is 0 or the index of a space in the scanned range, and no space follows it in that range |
| `Label.MonospaceWidth` | OpenGUI/Assets/Plugins/OpenGUI/Scripts/OGDrawHelper.js:412-420 | on a run of glyphs all `w` wide, the accumulated line width is the run length times the scaled `w` |
| `Label.WordWrapOnMonospace` | OpenGUI/Assets/Plugins/OpenGUI/Scripts/OGDrawHelper.js:403-427 | with a content width of exactly `n` glyphs, the width stays below it up to the `n - 1`-th glyph and reaches it at the `n`-th, and the break goes after the last space before that, or, with no space, to that glyph itself |
| `Label.ScanChar` | OpenGUI/Assets/Plugins/OpenGUI/Scripts/OGDrawHelper.js:411-420 | one scanned character adds its width (space width, glyph width or 0) and makes itself the last space exactly when it is a space |
| `Label.ScanLine` | OpenGUI/Assets/Plugins/OpenGUI/Scripts/OGDrawHelper.js:403-427 | the scan stops at the first newline (next line just after it), or at the first character whose running width reaches `right` (next line at `lastSpace + 1`, or at that character when `lastSpace` is 0), or at the end of the text; no newline and no overflow come before its stop |
| `Label.NextLine` | OpenGUI/Assets/Plugins/OpenGUI/Scripts/OGDrawHelper.js:397-432 | the scan's stop, next start and width satisfy `LineBreak`: no newline before the stop and every prefix up to it narrower than `right`; the stop is the end of the text (next line at the end), a newline (next line just after it), or the first character whose running width reaches `right` (next line after the last space, at the stop without one, at the end when the stop is the last character); the next start stays put only for a hard break at the line's first character |
| `Label.LineBreakDeterministic` | OpenGUI/Assets/Plugins/OpenGUI/Scripts/OGDrawHelper.js:397-432 | a line's stop, next start and width are determined by the text, the start, the font and the content width: two results that both satisfy `LineBreak` are equal |
| `Label.EmitGlyph` | OpenGUI/Assets/Plugins/OpenGUI/Scripts/OGDrawHelper.js:510-535 | a drawn glyph sets the cursor position to its left-bottom corner when its index is the cursor's, or to its right-bottom corner when it is the last character and the cursor is at or past the end (otherwise the position is kept), the same for the selection end, and sets the cursor size to (1, fontSize) |
| `Label.RecordedAllUntouched` | OpenGUI/Assets/Plugins/OpenGUI/Scripts/OGDrawHelper.js:510-535 | when no emitted quad's character is the recorded index (or the last character with the index at or past the end), the position is unchanged |
| `Label.RecordedAllIsLast` | OpenGUI/Assets/Plugins/OpenGUI/Scripts/OGDrawHelper.js:510-535 | otherwise the position is the left-bottom corner of the last such quad when its character is the index, and its right-bottom corner when it is the last character |
| `Label.EmitLine` | OpenGUI/Assets/Plugins/OpenGUI/Scripts/OGDrawHelper.js:441-553 | the pen advances by the line's measured width whether or not glyphs are drawn; the quads and their characters are exactly `LineQuads`, so every quad lies strictly inside the clip rectangle when there is one; the cursor and selection-end positions are exactly the recorded corners of the last emitted quads whose characters set them, unchanged if none does, and the cursor size becomes (1, fontSize) once a quad is emitted |
| `Label.DrawGlyph` | OpenGUI/Assets/Plugins/OpenGUI/Scripts/OGDrawHelper.js:443-508 | one character draws nothing when it has no glyph or is a space, and otherwise its glyph quad, clipped when there is a clip rectangle; the pen moves by the space width for a space, the scaled glyph width for a glyph, and 0 without a glyph |
| `Label.LineQuadsDrawVisibleGlyphs` | OpenGUI/Assets/Plugins/OpenGUI/Scripts/OGDrawHelper.js:441-553 | a line draws exactly its visible glyphs, once each and in order: every command is the quad of the character it is tagged with, at the pen moved on by the widths of the characters before it; the tags increase; every character of the line with a drawn quad is tagged |
| `Label.DrawLine` | OpenGUI/Assets/Plugins/OpenGUI/Scripts/OGDrawHelper.js:397-553 | one pass of the line loop breaks the line as `LineBreak` says, starts its pen at the aligned x (half the width back when centred, the whole width back when right-aligned) and draws its `LineQuads`; the pass extends the layout by one line |
| `Label.LaidOutSnoc` | OpenGUI/Assets/Plugins/OpenGUI/Scripts/OGDrawHelper.js:394-557 | a pass that starts where the previous one ended, one line height lower, while the loop condition holds, extends the layout, and its quads follow the earlier lines' quads |
| `Label.LaidOutTake` | OpenGUI/Assets/Plugins/OpenGUI/Scripts/OGDrawHelper.js:394-567 | every prefix of a layout is a layout |
| `Label.LaidOutUnique` | OpenGUI/Assets/Plugins/OpenGUI/Scripts/OGDrawHelper.js:394-567 | two layouts of the same label with the same number of passes are the same |
| `Label.EndedLayoutIsLongest` | OpenGUI/Assets/Plugins/OpenGUI/Scripts/OGDrawHelper.js:394-567 | a layout after which the loop condition fails has no longer layout beside it |
| `Label.LabelLinesDeterministic` | OpenGUI/Assets/Plugins/OpenGUI/Scripts/OGDrawHelper.js:394-567 | two layouts that each end where the loop ends (its condition fails, or the brake fires after 1002 passes) are the same, so the lines of a label are determined |
| `Label.DrawLines` | OpenGUI/Assets/Plugins/OpenGUI/Scripts/OGDrawHelper.js:394-567 | the loop's passes form a layout of at most 1002 lines that ends where the loop ends; the brake fires exactly after the 1002nd pass; the stream is exactly the layout's `LinesQuads`; the editor positions are the recorded corners of those quads |
| `Label.FramedStream` | OpenGUI/Assets/Plugins/OpenGUI/Scripts/OGDrawHelper.js:386-568 | the tint colour is first, the colour reset last unless the brake fired, only quads lie between, the stream holds a quad exactly when the lines did, and clipped quads stay inside the clip |
| `Label.DrawLabelText` | OpenGUI/Assets/Plugins/OpenGUI/Scripts/OGDrawHelper.js:386-568 | after the early exits, the stream is the tint colour, the `LinesQuads` of a layout that ends where the loop ends, and the white reset unless the brake fired; the editor positions are the recorded corners of the drawn quads |
| `Label.DrawLabel` | OpenGUI/Assets/Plugins/OpenGUI/Scripts/OGDrawHelper.js:278-569 | no font, empty text, off screen or outside the clip emit nothing; empty text with an editor resets its indices and puts the cursor at `rect.xMin` and one font size below `rect.yMin`; otherwise the stream is the tint colour, then the quads `LinesQuads` gives for the label's layout (`LayoutOf`: scale `intSize / font.size`, line height `lineSpacing` times it, the padded content box and the anchor), whose lines form the one layout that ends where the loop ends (at most 1002 passes), then the white reset unless the brake returned; clipped quads stay inside the clip; the editor positions are the recorded corners of the last emitted quads whose characters set them (unchanged if none), and the cursor size becomes (1, fontSize) once any quad is drawn |
| `Sprites.SpriteQuad` | OpenGUI/Assets/Plugins/OpenGUI/Scripts/OGDrawHelper.js:601-638 | each side of the sprite quad is clamped into the clip rectangle when there is one, and the UVs are the corners of `uvRect / texSize` |
| `Sprites.SpriteCommands` | OpenGUI/Assets/Plugins/OpenGUI/Scripts/OGDrawHelper.js:588-642 | nothing is emitted exactly when the sprite is off screen; the clip reject emits only the tint colour (skipping the white reset); otherwise tint colour, the sprite quad, white |
| `Sprites.DrawSprite` | OpenGUI/Assets/Plugins/OpenGUI/Scripts/OGDrawHelper.js:588-642 | a sprite emits at most one quad, and one exactly when it is neither off screen nor rejected by the clip rectangle |
| `Sprites.SpriteUVsScaleBack` | OpenGUI/Assets/Plugins/OpenGUI/Scripts/OGDrawHelper.js:619-622 | under any clip rectangle or none, the sprite quad's four UVs times the texture size are the corners of `uvRect`: bottom-left, top-left, top-right, bottom-right |
| `Sprites.SpriteUVIgnoresClip` | OpenGUI/Assets/Plugins/OpenGUI/Scripts/OGDrawHelper.js:607-622 | the sprite's UVs are the same under any clip rectangle or none |
| `Sprites.ClippedSpriteWithinClip` | OpenGUI/Assets/Plugins/OpenGUI/Scripts/OGDrawHelper.js:607-617 | a non-negative sprite that passes the clip reject is drawn with its corners inside the clip rectangle |
| `Sprites.TouchingSpriteDrawsEmptyQuad` | OpenGUI/Assets/Plugins/OpenGUI/Scripts/OGDrawHelper.js:609-617 | a sprite that only touches the clip's left edge passes the reject and is drawn as a zero-width quad |
| `Sprites.DrawStyleSprite` | OpenGUI/Assets/Plugins/OpenGUI/Scripts/OGDrawHelper.js:582-586 | a missing style draws nothing; otherwise it is the sprite of the style's coordinates and colour |
| `Sprites.TileCount` | OpenGUI/Assets/Plugins/OpenGUI/Scripts/OGDrawHelper.js:650-651 | an integer loop bounded by a float `t` runs the least count not below `t` |
| `Sprites.NextCell` | OpenGUI/Assets/Plugins/OpenGUI/Scripts/OGDrawHelper.js:663-664 | the loop body's cell is column `x`, row `y` of the `tileX` by `tileY` subdivision |
| `Sprites.DrawTiledColumn` | OpenGUI/Assets/Plugins/OpenGUI/Scripts/OGDrawHelper.js:662-667 | the inner loop draws the cells of one column, bottom to top |
| `Sprites.DrawTiledSprite` | OpenGUI/Assets/Plugins/OpenGUI/Scripts/OGDrawHelper.js:660-669 | draws one sprite per grid cell, column by column, each with the whole `uvRect` |
| `Sprites.DrawStyleColumn` | OpenGUI/Assets/Plugins/OpenGUI/Scripts/OGDrawHelper.js:651-656 | the inner loop of the style variant extends the grid drawn so far by one column |
| `Sprites.DrawTiledStyleSprite` | OpenGUI/Assets/Plugins/OpenGUI/Scripts/OGDrawHelper.js:649-658 | draws nothing for a missing style, otherwise the tiled sprite of the style's coordinates and colour |
| `Sprites.TileCellsAbut` | OpenGUI/Assets/Plugins/OpenGUI/Scripts/OGDrawHelper.js:652-655 | neighbouring cells share an edge |
| `Sprites.TiledRowEnds` | OpenGUI/Assets/Plugins/OpenGUI/Scripts/OGDrawHelper.js:650-655 | the first cell starts at the rectangle's corner; with a whole tile count the last cell ends at the far edge, with a fractional count it overhangs it |
| `Sprites.TiledDrawsAtMostOnePerCell` | OpenGUI/Assets/Plugins/OpenGUI/Scripts/OGDrawHelper.js:660-669 | a tiled sprite emits at most one quad per grid cell |
| `Sprites.SingleTileIsSprite` | OpenGUI/Assets/Plugins/OpenGUI/Scripts/OGDrawHelper.js:660-669 | a one-by-one grid draws exactly the plain sprite |
| `Sprites.DrawSlicedSprite` | OpenGUI/Assets/Plugins/OpenGUI/Scripts/OGDrawHelper.js:676-779 | a missing style draws nothing; all-zero borders draw exactly the plain style sprite; otherwise the nine region sprites in the source's order, each region's texture rectangle cut from the style's coordinates by the same formula as its screen rectangle from `rect` |
| `Sprites.SliceOrderCoversGrid` | OpenGUI/Assets/Plugins/OpenGUI/Scripts/OGDrawHelper.js:689-777 | the nine draws visit every cell of the 3-by-3 grid exactly once |
| `Sprites.SliceRegionsAreGridCells` | OpenGUI/Assets/Plugins/OpenGUI/Scripts/OGDrawHelper.js:689-777 | with `horizontal = left + right` and `vertical = top + bottom`, each drawn region is the grid cell its position in the order names |
| `Sprites.SliceCellsTile` | OpenGUI/Assets/Plugins/OpenGUI/Scripts/OGDrawHelper.js:689-777 | the grid's outer cells meet the rectangle's edges and neighbouring cells share edges |
| `Sprites.SlicedDrawCount` | OpenGUI/Assets/Plugins/OpenGUI/Scripts/OGDrawHelper.js:676-779 | a sliced sprite emits at most nine quads |
| `Sprites.DrawTiledSlicedSprite` | OpenGUI/Assets/Plugins/OpenGUI/Scripts/OGDrawHelper.js:786-897 | all-zero borders draw the plain sprite; otherwise the four corners as plain sprites and the side panels tiled vertically, the top and bottom panels horizontally and the center both ways, in the sliced order |
| `Sprites.SlicedIsOneTileTiledSliced` | OpenGUI/Assets/Plugins/OpenGUI/Scripts/OGDrawHelper.js:676-897 | unclipped, the sliced sprite is the tiled sliced sprite with one tile per panel |
| `Sprites.DrawTiledSlicedSpriteUnclipped` | OpenGUI/Assets/Plugins/OpenGUI/Scripts/OGDrawHelper.js:782-784 | the six-argument variant draws nothing for a missing style and otherwise, whatever its tile counts, what the clipping variant draws unclipped with one tile per panel |

## Left out

- Bezier sampling, `DrawLine` and `DrawCurve`: these are float polynomial evaluation plus raw vertices, with no algorithm to state beyond the formula.
- `SetPass` binds a material, which is a call into the engine. The texture size it stores is a parameter (`Target.texSize`) instead.
- Font re-resolution through the `OGRoot` singleton: a missing font emits nothing, and the re-resolution itself is not modelled.
- `Input`, `Time.deltaTime` and `Screen.width/height` are parameters (`FrameInput`, the `screen` vector).
- `exitAction` is a flag plus a call counter. What the callback does is not modelled, and neither is the exit key's identity: only "exit key pressed this frame" is an input.
- `Debug.Log` of the emergency brake is not modelled.
- `GL.Color` state: the model records each `GL.Color` call in the command stream, but does not track what colour the engine holds.
- Floating-point rounding: all arithmetic is exact.
- `OGSlicedSpriteOffset.horizontal` and `vertical` are computed outside this file. They are kept as given fields. The grid lemmas assume `horizontal = left + right` and `vertical = top + bottom` (`Border.Consistent`).
- The editor's `enabled` flag is not read by any operation in this file, so it is only stored.
- `TextEditing.TextEditor.constructor`: the text starts as `""`, where the source leaves `string` null until `Update` first adopts the caller's text. A null text is not modelled.
- `TextEditing.TextEditor.Backspace`: requires the `Remove` bounds (`cursorSelectIndex` between `cursorIndex` and the text length when the cursor is past 0). The source throws outside them, and the model does not model the exception.
- `TextEditing.TextEditor.Update`: requires a non-zero `cursorSize.y` and a non-negative row count whenever a selection remains. This excludes every selection whose end lies two cursor heights or more below the cursor (`dy <= -2 * cursorSize.y`), where the source's `new Rect[lines]` throws; the model does not model the exception. With a line height at least the font size and below twice it, and the two recorded corners at the same offset from their lines, that is every selection running forward over three or more lines. A zero `cursorSize.y` is a float division by zero in the source.
- `TextEditing.TextEditor.DeriveRects`: the same row-count requirement as `Update`, for the same reason.
- `TextEditing.SelectionRowsCover`: stated only when the selection end is level with the cursor or higher (`dy >= 0`), with a positive cursor height. That leaves out every selection that runs forward over more than one line. For those, `SelectionLines` gives the row count in terms of `dy`: zero rows for `-2h < dy <= -h`, and a negative count for `dy <= -2h` (see `SelectionOverLinesHasNoRows`). How many lines that is depends on the line height against the font size and on where the glyph bottoms lie.
- `TextEditing.SelectionIffRows`: stated under the same condition as `SelectionRowsCover`. With `dy <= -h`, a selection gets no rows although the indices differ (`SelectionOverLinesHasNoRows`). With `-h < dy < 0`, it gets one row, so the equivalence still holds there but is not proved.
- `Label.GetLabelWidth`: requires a font with a space glyph and a non-zero native size. The source dereferences the space glyph unconditionally.
- `Label.DrawLabel`: requires a space glyph and a non-zero font size when layout is reached. The source dereferences the space glyph and divides by the font size there.
- `Sprites.DrawTiledSlicedSprite`: the seven-argument variant reads `style.coordinates` without a null check (`OGDrawHelper.js:786-787`), so a null style throws there. The model takes a style that is present (`SpriteStyle`, not `Option<SpriteStyle>`), so that exception is not modelled.
- `Sprites.DrawSprite`: requires a non-zero texture size (`Target.Textured`), as do all sprite operations. With a zero size the source's float division gives infinite or NaN UVs, which exact arithmetic cannot express.
- `Label.DrawLabel`: with a clip rectangle, requires a non-zero atlas size, for the same reason as `Target.Textured`.
- Text lengths and indices count Dafny characters (Unicode scalar values). The source's `String.Length` and indices count UTF-16 code units, so the two differ for characters outside the Basic Multilingual Plane.
