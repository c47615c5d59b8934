/** Label layout (`OGDrawHelper.GetLabelWidth` and the nine-argument
    `OGDrawHelper.DrawLabel`): greedy line breaking over a per-character width
    table, 9-way anchoring, per-glyph quads clipped against a clipping
    rectangle with matching UV shifts, and the screen positions of a text
    editor's two indices. */
module Label {
  import opened Geometry
  import opened TextEditing

  /** `OGCharacterInfo`: advance width, footprint and UV rectangle in font
      units, and whether the atlas stores the glyph rotated. */
  datatype GlyphInfo = GlyphInfo(width: real, vert: Rect, uv: Rect, flipped: bool)

  /** `OGFont`: native size, atlas size, line spacing and the character table
      that `GetCharacterInfo` looks up. */
  datatype Font = Font(size: int, atlasSize: Vec2, lineSpacing: real, glyphs: map<char, GlyphInfo>) {
    function GetCharacterInfo(c: char): Option<GlyphInfo>
    {
      if c in glyphs then Some(glyphs[c]) else None
    }
  }

  datatype Padding = Padding(left: real, right: real, top: real, bottom: real)

  /** Unity's `TextAnchor`. */
  datatype Anchor =
    | UpperLeft | UpperCenter | UpperRight
    | MiddleLeft | MiddleCenter | MiddleRight
    | LowerLeft | LowerCenter | LowerRight
  {
    /** 0 for left, 1 for center, 2 for right. */
    function Column(): (c: nat)
      ensures c < 3
    {
      match this
      case UpperLeft => 0  case MiddleLeft => 0  case LowerLeft => 0
      case UpperCenter => 1  case MiddleCenter => 1  case LowerCenter => 1
      case UpperRight => 2  case MiddleRight => 2  case LowerRight => 2
    }

    /** 0 for upper, 1 for middle, 2 for lower. */
    function Row(): (r: nat)
      ensures r < 3
    {
      match this
      case UpperLeft => 0  case UpperCenter => 0  case UpperRight => 0
      case MiddleLeft => 1  case MiddleCenter => 1  case MiddleRight => 1
      case LowerLeft => 2  case LowerCenter => 2  case LowerRight => 2
    }
  }

  /** `OGTextStyle`, reduced to what label drawing reads. */
  datatype TextStyle = TextStyle(font: Option<Font>, fontSize: int, padding: Padding,
                                 alignment: Anchor, fontColor: Color)

  /** A length in font units at the requested pixel size. */
  function Scaled(w: real, size: real): real { w * size }

  /** The width a character adds to a line: the space glyph's width for a
      space, the glyph's own width for a known glyph, nothing otherwise. */
  function CharWidth(font: Font, size: real, ch: char): real
    requires ' ' in font.glyphs
  {
    if ch == ' ' then Scaled(font.glyphs[' '].width, size)
    else if ch in font.glyphs then Scaled(font.glyphs[ch].width, size)
    else 0.0
  }

  /** The summed character widths of a string. */
  function GlyphsWidth(font: Font, size: real, s: string): real
    requires ' ' in font.glyphs
  {
    if s == [] then 0.0 else GlyphsWidth(font, size, s[..|s| - 1]) + CharWidth(font, size, s[|s| - 1])
  }

  lemma {:induction false} GlyphsWidthAppend(font: Font, size: real, a: string, b: string)
    requires ' ' in font.glyphs
    ensures GlyphsWidth(font, size, a + b) == GlyphsWidth(font, size, a) + GlyphsWidth(font, size, b)
    decreases |b|
  {
    if b == [] {
      assert a + b == a;
    } else {
      assert (a + b)[..|a + b| - 1] == a + b[..|b| - 1];
      GlyphsWidthAppend(font, size, a, b[..|b| - 1]);
    }
  }

  /** With non-negative glyph widths and scale, a longer prefix is never narrower. */
  lemma {:induction false} GlyphsWidthMonotone(font: Font, size: real, s: string, i: nat, j: nat)
    requires ' ' in font.glyphs
    requires size >= 0.0 && forall c :: c in font.glyphs ==> font.glyphs[c].width >= 0.0
    requires i <= j <= |s|
    ensures GlyphsWidth(font, size, s[..i]) <= GlyphsWidth(font, size, s[..j])
    decreases j - i
  {
    if i < j {
      GlyphsWidthMonotone(font, size, s, i, j - 1);
      assert s[..j][..j - 1] == s[..j - 1];
      assert GlyphsWidth(font, size, s[..j]) == GlyphsWidth(font, size, s[..j - 1]) + CharWidth(font, size, s[j - 1]);
      assert CharWidth(font, size, s[j - 1]) >= 0.0;
    }
  }

  /** The scale from the font's native size to a requested pixel size. */
  function Scale(pixelSize: int, font: Font): real
    requires font.size != 0
  {
    pixelSize as real / font.size as real
  }

  /** What `GetLabelWidth` returns: horizontal padding plus the summed widths. */
  function LabelWidth(s: string, style: TextStyle): real
    requires style.font.Some? && style.font.value.size != 0 && ' ' in style.font.value.glyphs
  {
    style.padding.left + style.padding.right + GlyphsWidth(style.font.value, Scale(style.fontSize, style.font.value), s)
  }

  /** A label is as wide as its two halves measured apart, minus one padding. */
  lemma LabelWidthAppend(a: string, b: string, style: TextStyle)
    requires style.font.Some? && style.font.value.size != 0 && ' ' in style.font.value.glyphs
    ensures LabelWidth(a + b, style) == LabelWidth(a, style) + LabelWidth(b, style)
                                         - (style.padding.left + style.padding.right)
  {
    GlyphsWidthAppend(style.font.value, Scale(style.fontSize, style.font.value), a, b);
  }

  /** `GetLabelWidth`. The space glyph is looked up unconditionally, so a font
      without one fails in the source; that is the requirement here. */
  method GetLabelWidth(s: string, style: TextStyle) returns (width: real)
    requires style.font.Some? && style.font.value.size != 0 && ' ' in style.font.value.glyphs
    ensures width == LabelWidth(s, style)
  {
    var font := style.font.value;
    width := style.padding.left + style.padding.right;
    var size := style.fontSize as real / font.size as real;
    var space := Scaled(font.glyphs[' '].width, size);
    var c := 0;
    while c < |s|
      invariant 0 <= c <= |s|
      invariant width == style.padding.left + style.padding.right + GlyphsWidth(font, size, s[..c])
    {
      assert s[..c + 1][..c] == s[..c];
      if s[c] == ' ' {
        width := width + space;
      } else {
        var info := font.GetCharacterInfo(s[c]);
        if info.Some? {
          width := width + Scaled(info.value.width, size);
        }
      }
      c := c + 1;
    }
    assert s[..c] == s;
  }

  /** The content box of `DrawLabel`, relative to the label rectangle. The
      source names the content width `right`. */
  datatype Bounds = Bounds(left: real, right: real, top: real, bottom: real, middle: real, center: real)

  /** The bounds `DrawLabel` computes: the content width is what the two
      paddings leave of the rectangle's width, `top` lies the top padding
      below the rectangle's height, `center` is the midpoint of the content
      and `middle` lies half a line height above the rectangle's half
      height. */
  function LayoutBounds(rect: Rect, padding: Padding, lineHeight: real): (b: Bounds)
    ensures b.left == padding.left && padding.left + b.right + padding.right == rect.width
    ensures b.top + padding.top == rect.height && b.bottom == padding.bottom
    ensures b.center - b.left == b.left + b.right - b.center
    ensures b.middle - rect.height / 2.0 == lineHeight / 2.0
  {
    var left := padding.left;
    var right := rect.width - padding.right - padding.left;
    Bounds(left, right, rect.height - padding.top, padding.bottom,
           rect.height / 2.0 + lineHeight / 2.0, left + right / 2.0)
  }

  /** The 9-way anchor switch: the column picks x, the row picks y. */
  function AnchorPoint(alignment: Anchor, b: Bounds): (p: Vec2)
    ensures p.x == [b.left, b.center, b.right][alignment.Column()]
    ensures p.y == [b.top, b.middle, b.bottom][alignment.Row()]
  {
    match alignment
    case UpperLeft => Vec2(b.left, b.top)
    case MiddleLeft => Vec2(b.left, b.middle)
    case LowerLeft => Vec2(b.left, b.bottom)
    case UpperCenter => Vec2(b.center, b.top)
    case MiddleCenter => Vec2(b.center, b.middle)
    case LowerCenter => Vec2(b.center, b.bottom)
    case UpperRight => Vec2(b.right, b.top)
    case MiddleRight => Vec2(b.right, b.middle)
    case LowerRight => Vec2(b.right, b.bottom)
  }

  /** A glyph's quad before clipping. Its size is the scaled footprint; its
      UVs are the corners of the glyph's UV rectangle, with the two
      off-diagonal corners exchanged for a flipped glyph. */
  function GlyphQuad(info: GlyphInfo, size: real, anchor: Vec2, rect: Rect, advance: Vec2, depth: real): (q: Quad)
    ensures q.left == rect.x + anchor.x + advance.x + info.vert.x * size
    ensures q.right - q.left == info.vert.width * size
    ensures q.top == rect.y + anchor.y + advance.y + info.vert.y * size
    ensures q.bottom - q.top == info.vert.height * size
    ensures q.depth == depth
    ensures q.uv0 == Vec2(info.uv.XMin(), info.uv.YMin()) && q.uv2 == Vec2(info.uv.XMax(), info.uv.YMax())
    ensures !info.flipped ==> q.uv1 == Vec2(info.uv.XMin(), info.uv.YMax()) && q.uv3 == Vec2(info.uv.XMax(), info.uv.YMin())
    ensures info.flipped ==> q.uv1 == Vec2(info.uv.XMax(), info.uv.YMin()) && q.uv3 == Vec2(info.uv.XMin(), info.uv.YMax())
  {
    var vert := Rect(info.vert.x * size, info.vert.y * size, info.vert.width * size, info.vert.height * size);
    var u := info.uv;
    var (uv0, uv1, uv2, uv3) :=
      if info.flipped then
        (Vec2(u.x, u.y), Vec2(u.x + u.width, u.y), Vec2(u.x + u.width, u.y + u.height), Vec2(u.x, u.y + u.height))
      else
        (Vec2(u.x, u.y), Vec2(u.x, u.y + u.height), Vec2(u.x + u.width, u.y + u.height), Vec2(u.x + u.width, u.y));
    var gLeft := anchor.x + vert.x + rect.x + advance.x;
    var gRight := anchor.x + vert.x + rect.x + advance.x + vert.width;
    var gBottom := anchor.y + vert.height + vert.y + rect.y + advance.y;
    var gTop := anchor.y + vert.height + vert.y + rect.y + advance.y - vert.height;
    Quad(gLeft, gRight, gBottom, gTop, depth, uv0, uv1, uv2, uv3)
  }

  /** Clipping of one glyph quad: each side is pulled in to the clip
      rectangle, the UVs on that side move by the cut length over the atlas
      size, and a quad left without positive extent is dropped. */
  function ClipGlyph(q: Quad, clip: Rect, atlas: Vec2): (r: Option<Quad>)
    requires atlas.x != 0.0 && atlas.y != 0.0
    ensures r.Some? <==>
      Max(q.left, clip.XMin()) < Min(q.right, clip.XMax()) && Max(q.bottom, clip.YMin()) < Min(q.top, clip.YMax())
    ensures r.Some? ==> InsideStrict(r.value, clip)
    ensures r.Some? ==>
      var c := r.value;
      c.left == Max(q.left, clip.XMin()) && c.right == Min(q.right, clip.XMax()) &&
      c.bottom == Max(q.bottom, clip.YMin()) && c.top == Min(q.top, clip.YMax()) && c.depth == q.depth &&
      c.uv0 == Vec2(q.uv0.x + (c.left - q.left) / atlas.x, q.uv0.y + (c.bottom - q.bottom) / atlas.y) &&
      c.uv1 == Vec2(q.uv1.x + (c.left - q.left) / atlas.x, q.uv1.y + (q.top - c.top) / atlas.y) &&
      c.uv2 == Vec2(q.uv2.x - (q.right - c.right) / atlas.x, q.uv2.y + (q.top - c.top) / atlas.y) &&
      c.uv3 == Vec2(q.uv3.x - (q.right - c.right) / atlas.x, q.uv3.y + (c.bottom - q.bottom) / atlas.y)
  {
    var (u0x, u1x, gLeft) :=
      if q.left < clip.XMin() then
        (q.uv0.x + (clip.XMin() - q.left) / atlas.x, q.uv1.x + (clip.XMin() - q.left) / atlas.x, clip.XMin())
      else (q.uv0.x, q.uv1.x, q.left);
    var (u2x, u3x, gRight) :=
      if q.right > clip.XMax() then
        (q.uv2.x - (q.right - clip.XMax()) / atlas.x, q.uv3.x - (q.right - clip.XMax()) / atlas.x, clip.XMax())
      else (q.uv2.x, q.uv3.x, q.right);
    var (u0y, u3y, gBottom) :=
      if q.bottom < clip.YMin() then
        (q.uv0.y + (clip.YMin() - q.bottom) / atlas.y, q.uv3.y + (clip.YMin() - q.bottom) / atlas.y, clip.YMin())
      else (q.uv0.y, q.uv3.y, q.bottom);
    var (u1y, u2y, gTop) :=
      if q.top > clip.YMax() then
        (q.uv1.y + (q.top - clip.YMax()) / atlas.y, q.uv2.y + (q.top - clip.YMax()) / atlas.y, clip.YMax())
      else (q.uv1.y, q.uv2.y, q.top);
    if gLeft >= gRight || gBottom >= gTop then None
    else Some(Quad(gLeft, gRight, gBottom, gTop, q.depth, Vec2(u0x, u0y), Vec2(u1x, u1y), Vec2(u2x, u2y), Vec2(u3x, u3y)))
  }

  /** A glyph wholly left of the clip rectangle is never emitted. */
  lemma ClipDropsGlyphLeftOfClip(q: Quad, clip: Rect, atlas: Vec2)
    requires atlas.x != 0.0 && atlas.y != 0.0
    requires q.right <= clip.XMin()
    ensures ClipGlyph(q, clip, atlas) == None
  {
  }

  /** A glyph straddling the clip's left edge keeps exactly its visible width. */
  lemma ClipNarrowsStraddlingGlyph(q: Quad, clip: Rect, atlas: Vec2)
    requires atlas.x != 0.0 && atlas.y != 0.0
    requires q.left < clip.XMin() < q.right <= clip.XMax()
    requires clip.YMin() <= q.bottom < q.top <= clip.YMax()
    ensures ClipGlyph(q, clip, atlas).Some?
    ensures ClipGlyph(q, clip, atlas).value.right - ClipGlyph(q, clip, atlas).value.left == q.right - clip.XMin()
    ensures ClipGlyph(q, clip, atlas).value.uv0.x == q.uv0.x + (clip.XMin() - q.left) / atlas.x
  {
  }

  /** Scanning one more character adds its width. */
  lemma GlyphsWidthStep(font: Font, size: real, s: string, start: int, c: int)
    requires ' ' in font.glyphs && 0 <= start <= c < |s|
    ensures GlyphsWidth(font, size, s[start..c + 1]) == GlyphsWidth(font, size, s[start..c]) + CharWidth(font, size, s[c])
  {
    assert s[start..c + 1][..c - start] == s[start..c];
  }

  /** The value the line scan leaves in `lastSpace` after scanning
      `s[start..end]`: the index of the last space, or 0 when there is none.
      A space at index 0 reads as "no space". */
  function LastSpace(s: string, start: int, end: int): (k: int)
    requires 0 <= start <= end <= |s|
    ensures k == 0 || (start <= k < end && s[k] == ' ')
    ensures forall j :: k < j < end && start <= j ==> s[j] != ' '
    decreases end - start
  {
    if end == start then 0
    else if s[end - 1] == ' ' then end - 1
    else LastSpace(s, start, end - 1)
  }

  /** With every character of `s[start..end]` a glyph `w` wide (the space
      glyph included), the run is as wide as its length times `w`. */
  lemma {:induction false} MonospaceWidth(font: Font, size: real, s: string, start: int, end: int, w: real)
    requires ' ' in font.glyphs && 0 <= start <= end <= |s|
    requires forall k :: start <= k < end ==> s[k] in font.glyphs && font.glyphs[s[k]].width == w
    ensures GlyphsWidth(font, size, s[start..end]) == (end - start) as real * (w * size)
    decreases end - start
  {
    if end == start {
      assert s[start..end] == [];
    } else {
      var ws, m := w * size, (end - 1 - start) as real;
      MonospaceWidth(font, size, s, start, end - 1, w);
      GlyphsWidthStep(font, size, s, start, end - 1);
      assert CharWidth(font, size, s[end - 1]) == ws;
      assert GlyphsWidth(font, size, s[start..end]) == m * ws + ws;
      assert m * ws + ws == (m + 1.0) * ws;
      assert (end - start) as real == m + 1.0;
    }
  }

  /** The word-wrap rule on a monospace font whose content width is exactly
      `n` glyphs: the widths stay below `right` up to the `n - 1`-th glyph and
      reach it at the `n`-th, so the scan stops at index `start + n - 1`
      (the width test is `>=`, so a full line holds `n - 1` glyphs). The line
      then breaks just after the last space before that index, or, without
      one, at that index itself. */
  lemma WordWrapOnMonospace(font: Font, size: real, s: string, start: int, n: int, w: real)
    requires ' ' in font.glyphs && 0 <= start && 1 <= n && start + n <= |s|
    requires w > 0.0 && size > 0.0
    requires forall k :: start <= k < start + n ==> s[k] in font.glyphs && font.glyphs[s[k]].width == w
    ensures forall k :: start < k < start + n ==> GlyphsWidth(font, size, s[start..k]) < n as real * (w * size)
    ensures GlyphsWidth(font, size, s[start..start + n]) >= n as real * (w * size)
    ensures (forall k :: start <= k < start + n ==> s[k] != ' ') ==> LastSpace(s, start, start + n) == 0
    ensures forall j :: (0 < j < start + n && start <= j && s[j] == ' ' &&
                         forall k :: j < k < start + n ==> s[k] != ' ') ==> LastSpace(s, start, start + n) == j
  {
    MonospaceBelowFull(font, size, s, start, n, w);
    var full := s[start..start + n];
    MonospaceWidth(font, size, s, start, start + n, w);
    assert GlyphsWidth(font, size, full) == n as real * (w * size);
    LastSpaceIsLastSpace(s, start, start + n);
  }

  /** On such a run, every proper prefix is narrower than the whole run. */
  lemma MonospaceBelowFull(font: Font, size: real, s: string, start: int, n: int, w: real)
    requires ' ' in font.glyphs && 0 <= start && 1 <= n && start + n <= |s|
    requires w > 0.0 && size > 0.0
    requires forall k :: start <= k < start + n ==> s[k] in font.glyphs && font.glyphs[s[k]].width == w
    ensures forall k :: start < k < start + n ==> GlyphsWidth(font, size, s[start..k]) < n as real * (w * size)
  {
    var ws := w * size;
    assert ws > 0.0;
    forall k | start < k < start + n
      ensures GlyphsWidth(font, size, s[start..k]) < n as real * ws
    {
      MonospaceWidth(font, size, s, start, k, w);
      MulStrict((k - start) as real, n as real, ws);
    }
  }

  /** `LastSpace` is 0 exactly when no space past index 0 is in range, and
      otherwise the last space. */
  lemma LastSpaceIsLastSpace(s: string, start: int, end: int)
    requires 0 <= start <= end <= |s|
    ensures (forall k :: start <= k < end ==> s[k] != ' ') ==> LastSpace(s, start, end) == 0
    ensures forall j :: (0 < j < end && start <= j && s[j] == ' ' &&
                         forall k :: j < k < end ==> s[k] != ' ') ==> LastSpace(s, start, end) == j
  {
  }

  /** The line scan of `DrawLabel`: the inner `for` over `c`, which stops at
      the first newline or at the first character whose width reaches
      `right`, and otherwise runs to the end of the text. `c` is its final
      value and `next` what it leaves in `nextLineStart`. */
  method ScanLine(s: string, start: int, font: Font, size: real, right: real)
    returns (next: int, lineWidth: real, c: int)
    requires 0 <= start < |s|
    requires ' ' in font.glyphs
    ensures start <= c <= |s|
    ensures forall k :: start <= k < c ==> s[k] != '\n'
    ensures forall k :: start < k <= c ==> GlyphsWidth(font, size, s[start..k]) < right
    ensures c == |s| ==> lineWidth == GlyphsWidth(font, size, s[start..])
    ensures c < |s| && s[c] == '\n' ==> next == c + 1 && lineWidth == GlyphsWidth(font, size, s[start..c])
    ensures c < |s| && s[c] != '\n' ==>
      lineWidth == GlyphsWidth(font, size, s[start..c + 1]) && lineWidth >= right &&
      next == (if LastSpace(s, start, c + 1) == 0 then c else LastSpace(s, start, c + 1) + 1)
  {
    var space := Scaled(font.glyphs[' '].width, size);
    var lastSpace := 0;
    lineWidth := 0.0;
    next := start;
    c := start;
    while c < |s|
      invariant start <= c <= |s|
      invariant lineWidth == GlyphsWidth(font, size, s[start..c])
      invariant lastSpace == LastSpace(s, start, c)
      invariant forall k :: start <= k < c ==> s[k] != '\n'
      invariant forall k :: start < k <= c ==> GlyphsWidth(font, size, s[start..k]) < right
    {
      GlyphsWidthStep(font, size, s, start, c);
      if s[c] == '\n' {
        next := c + 1;
        break;
      }
      lineWidth, lastSpace := ScanChar(s[c], c, font, size, space, lineWidth, lastSpace);
      assert lineWidth == GlyphsWidth(font, size, s[start..c + 1]);
      assert lastSpace == LastSpace(s, start, c + 1);
      if lineWidth >= right {
        next := if lastSpace == 0 then c else lastSpace + 1;
        break;
      }
      c := c + 1;
    }
    if c == |s| {
      assert s[start..c] == s[start..];
    }
  }

  /** The width and last-space bookkeeping of one non-newline character `ch`
      at index `c` of the line scan. */
  method ScanChar(ch: char, c: int, font: Font, size: real, space: real, lineWidth: real, lastSpace: int)
    returns (width: real, newLastSpace: int)
    requires ' ' in font.glyphs && space == Scaled(font.glyphs[' '].width, size)
    ensures width == lineWidth + CharWidth(font, size, ch)
    ensures newLastSpace == if ch == ' ' then c else lastSpace
  {
    var info := font.GetCharacterInfo(ch);
    width, newLastSpace := lineWidth, lastSpace;
    if ch == ' ' {
      width := lineWidth + space;
      newLastSpace := c;
    } else if info.Some? {
      width := lineWidth + Scaled(info.value.width, size);
    }
  }

  /** The outcome of breaking the line that starts at `start`: `stop` is the
      first newline, or the first character whose running width reaches
      `right`, or the end of the text; `width` is the width scanned up to
      and including that character; `next` is where the following line
      starts: just after a newline, after the last space before an overflow
      (or at the overflowing character when there is none), and at the end
      of the text once `stop` is at or past the last character. */
  predicate LineBreak(s: string, start: int, font: Font, size: real, right: real, stop: int, next: int, width: real)
    requires 0 <= start < |s| && ' ' in font.glyphs
  {
    start <= stop <= |s| && start <= next <= |s| &&
    (forall k :: start <= k < stop ==> s[k] != '\n') &&
    (forall k :: start < k <= stop ==> GlyphsWidth(font, size, s[start..k]) < right) &&
    (stop == |s| ==> next == |s| && width == GlyphsWidth(font, size, s[start..])) &&
    (stop < |s| && s[stop] == '\n' ==>
      next == stop + 1 && width == GlyphsWidth(font, size, s[start..stop])) &&
    (stop < |s| && s[stop] != '\n' ==>
      width == GlyphsWidth(font, size, s[start..stop + 1]) && width >= right &&
      next == (if stop >= |s| - 1 then |s|
               else if LastSpace(s, start, stop + 1) == 0 then stop
               else LastSpace(s, start, stop + 1) + 1))
  }

  /** A line breaks in exactly one way: the break, the next start and the
      width are determined by the text, the font and the content width. */
  lemma LineBreakDeterministic(s: string, start: int, font: Font, size: real, right: real,
                               stop1: int, next1: int, width1: real, stop2: int, next2: int, width2: real)
    requires 0 <= start < |s| && ' ' in font.glyphs
    requires LineBreak(s, start, font, size, right, stop1, next1, width1)
    requires LineBreak(s, start, font, size, right, stop2, next2, width2)
    ensures stop1 == stop2 && next1 == next2 && width1 == width2
  {
    StopNotBefore(s, start, font, size, right, stop1, next1, width1, stop2, next2, width2);
    StopNotBefore(s, start, font, size, right, stop2, next2, width2, stop1, next1, width1);
  }

  /** A break cannot come before another valid break of the same line. */
  lemma StopNotBefore(s: string, start: int, font: Font, size: real, right: real,
                      stop1: int, next1: int, width1: real, stop2: int, next2: int, width2: real)
    requires 0 <= start < |s| && ' ' in font.glyphs
    requires LineBreak(s, start, font, size, right, stop1, next1, width1)
    requires LineBreak(s, start, font, size, right, stop2, next2, width2)
    ensures stop2 <= stop1
  {
  }

  /** One line of `DrawLabel`'s layout: the scan, then the end-of-string
      fix-up that sends the next line to the end of the text once the scan's
      final index is at or past the last character. `stop` is that index,
      `next` the start of the following line. */
  method NextLine(s: string, start: int, font: Font, size: real, right: real)
    returns (next: int, lineWidth: real, stop: int)
    requires 0 <= start < |s|
    requires ' ' in font.glyphs
    ensures LineBreak(s, start, font, size, right, stop, next, lineWidth)
    ensures next == start ==> stop == start && s[start] != '\n' && start < |s| - 1
  {
    next, lineWidth, stop := ScanLine(s, start, font, size, right);
    if stop >= |s| - 1 {
      next := |s|;
    }
  }

  /** Whether a drawn glyph of character `tag` sets the editor position of
      index `index`, over an editor text of length `len`: the index's own
      character does, and so does the last character when the index is at or
      past the end. */
  predicate Sets(index: int, len: int, tag: int)
  {
    tag == index || (index >= len && tag == len - 1)
  }

  /** The position a drawn glyph `q` of character `tag` leaves behind: its
      left-bottom corner for the index's own character, its right-bottom
      corner for the last character when the index is at or past the end,
      and `pos` otherwise. */
  function Recorded(pos: Vec2, index: int, len: int, q: Quad, tag: int): Vec2
  {
    if tag == index then Vec2(q.left, q.bottom)
    else if index >= len && tag == len - 1 then Vec2(q.right, q.bottom)
    else pos
  }

  /** The position left after every drawn quad of `cmds`, in order, starting
      from `pos`; `tags` gives the character each command was drawn for. */
  function RecordedAll(pos: Vec2, index: int, len: int, cmds: seq<Command>, tags: seq<int>): Vec2
    requires |cmds| == |tags|
  {
    if cmds == [] then pos
    else
      var p := RecordedAll(pos, index, len, cmds[..|cmds| - 1], tags[..|tags| - 1]);
      if cmds[|cmds| - 1].Draw? then Recorded(p, index, len, cmds[|cmds| - 1].quad, tags[|tags| - 1]) else p
  }

  /** One more drawn quad updates the position as `Recorded` says. */
  lemma RecordedAllSnoc(pos: Vec2, index: int, len: int, cmds: seq<Command>, tags: seq<int>, q: Quad, tag: int)
    requires |cmds| == |tags|
    ensures RecordedAll(pos, index, len, cmds + [Draw(q)], tags + [tag])
         == Recorded(RecordedAll(pos, index, len, cmds, tags), index, len, q, tag)
  {
    assert (cmds + [Draw(q)])[..|cmds|] == cmds && (tags + [tag])[..|tags|] == tags;
  }

  /** Recording over a concatenation continues from where the first part
      left the position. */
  lemma {:induction false} RecordedAllAppend(pos: Vec2, index: int, len: int,
                                             a: seq<Command>, ta: seq<int>, b: seq<Command>, tb: seq<int>)
    requires |a| == |ta| && |b| == |tb|
    ensures RecordedAll(pos, index, len, a + b, ta + tb)
         == RecordedAll(RecordedAll(pos, index, len, a, ta), index, len, b, tb)
    decreases |b|
  {
    if b == [] {
      assert a + b == a && ta + tb == ta;
    } else {
      assert (a + b)[..|a + b| - 1] == a + b[..|b| - 1];
      assert (ta + tb)[..|ta + tb| - 1] == ta + tb[..|tb| - 1];
      RecordedAllAppend(pos, index, len, a, ta, b[..|b| - 1], tb[..|tb| - 1]);
    }
  }

  /** A stream with no drawn quad that sets the index leaves the position
      where it was. */
  lemma {:induction false} RecordedAllUntouched(pos: Vec2, index: int, len: int, cmds: seq<Command>, tags: seq<int>)
    requires |cmds| == |tags|
    requires forall j :: 0 <= j < |cmds| && cmds[j].Draw? ==> !Sets(index, len, tags[j])
    ensures RecordedAll(pos, index, len, cmds, tags) == pos
    decreases |cmds|
  {
    if cmds != [] {
      RecordedAllUntouched(pos, index, len, cmds[..|cmds| - 1], tags[..|tags| - 1]);
    }
  }

  /** Otherwise the position is the corner of the last drawn quad that sets
      it: the left-bottom corner when that quad is the index's own
      character, the right-bottom corner when it is the last character of
      the text. */
  lemma {:induction false} RecordedAllIsLast(pos: Vec2, index: int, len: int, cmds: seq<Command>, tags: seq<int>, i: int)
    requires |cmds| == |tags| && 0 <= i < |cmds|
    requires cmds[i].Draw? && Sets(index, len, tags[i])
    requires forall j :: i < j < |cmds| && cmds[j].Draw? ==> !Sets(index, len, tags[j])
    ensures RecordedAll(pos, index, len, cmds, tags)
         == if tags[i] == index then Vec2(cmds[i].quad.left, cmds[i].quad.bottom)
            else Vec2(cmds[i].quad.right, cmds[i].quad.bottom)
    decreases |cmds|
  {
    if i < |cmds| - 1 {
      RecordedAllIsLast(pos, index, len, cmds[..|cmds| - 1], tags[..|tags| - 1], i);
    }
  }

  /** The pen at character `g` of a line that starts at `start` with the pen
      at `pen`: moved right by the widths of the characters before `g`. */
  function PenAt(s: string, start: int, g: int, font: Font, size: real, pen: Vec2): Vec2
    requires 0 <= start <= g <= |s| && ' ' in font.glyphs
  {
    Vec2(pen.x + GlyphsWidth(font, size, s[start..g]), pen.y)
  }

  /** The quad character `g` is drawn as with the pen at `pen`: nothing for a
      character without a glyph or for a space; otherwise the glyph's quad,
      clipped when there is a clip rectangle, and nothing when clipping
      leaves it empty. */
  function GlyphAt(s: string, g: int, font: Font, size: real, anchor: Vec2, rect: Rect, pen: Vec2,
                   clip: Option<Rect>, depth: real): Option<Quad>
    requires 0 <= g < |s|
    requires clip.Some? ==> font.atlasSize.x != 0.0 && font.atlasSize.y != 0.0
  {
    var info := font.GetCharacterInfo(s[g]);
    if info.None? || s[g] == ' ' then None
    else
      var q := GlyphQuad(info.value, size, anchor, rect, pen, depth);
      if clip.Some? then ClipGlyph(q, clip.value, font.atlasSize) else Some(q)
  }

  /** What the glyph loop draws for the characters `start .. g - 1` of a line
      whose pen starts at `pen`: one `Draw` per drawn glyph, in order, paired
      with the characters they were drawn for. */
  function LineQuads(s: string, start: int, g: int, font: Font, size: real, anchor: Vec2, rect: Rect, pen: Vec2,
                     clip: Option<Rect>, depth: real): (seq<Command>, seq<int>)
    requires 0 <= start <= g <= |s| && ' ' in font.glyphs
    requires clip.Some? ==> font.atlasSize.x != 0.0 && font.atlasSize.y != 0.0
    decreases g
  {
    if g == start then ([], [])
    else
      var prior := LineQuads(s, start, g - 1, font, size, anchor, rect, pen, clip, depth);
      var drawn := GlyphAt(s, g - 1, font, size, anchor, rect, PenAt(s, start, g - 1, font, size, pen), clip, depth);
      if drawn.Some? then (prior.0 + [Draw(drawn.value)], prior.1 + [g - 1]) else prior
  }

  /** A line draws exactly its visible glyphs, in order, each once and at
      its own pen position: every command is the quad of the character it is
      tagged with, the tags increase, and every character of the range with
      a drawn quad is among them. */
  lemma {:induction false} LineQuadsDrawVisibleGlyphs(s: string, start: int, g: int, font: Font, size: real,
                                                      anchor: Vec2, rect: Rect, pen: Vec2,
                                                      clip: Option<Rect>, depth: real)
    requires 0 <= start <= g <= |s| && ' ' in font.glyphs
    requires clip.Some? ==> font.atlasSize.x != 0.0 && font.atlasSize.y != 0.0
    ensures var r := LineQuads(s, start, g, font, size, anchor, rect, pen, clip, depth);
      |r.0| == |r.1| &&
      (forall i :: 0 <= i < |r.1| ==>
         start <= r.1[i] < g &&
         GlyphAt(s, r.1[i], font, size, anchor, rect, PenAt(s, start, r.1[i], font, size, pen), clip, depth).Some? &&
         r.0[i] == Draw(GlyphAt(s, r.1[i], font, size, anchor, rect, PenAt(s, start, r.1[i], font, size, pen), clip, depth).value)) &&
      (forall i, j :: 0 <= i < j < |r.1| ==> r.1[i] < r.1[j]) &&
      (forall k ::
         (start <= k < g && GlyphAt(s, k, font, size, anchor, rect, PenAt(s, start, k, font, size, pen), clip, depth).Some?)
         ==> k in r.1)
    decreases g
  {
    if g > start {
      LineQuadsDrawVisibleGlyphs(s, start, g - 1, font, size, anchor, rect, pen, clip, depth);
    }
  }

  /** The glyph loop of `DrawLabel` for one line `s[start..next]`: every
      character with a glyph advances the pen by its width whether or not it
      is drawn; spaces advance without drawing; a drawn glyph may set the
      editor's two positions and its cursor size. */
  method EmitLine(s: string, start: int, next: int, font: Font, size: real, anchor: Vec2, rect: Rect,
                  advance: Vec2, clip: Option<Rect>, depth: real, fontSize: int, editor: TextEditor?)
    returns (advanceX: real, cmds: seq<Command>, ghost tags: seq<int>)
    requires 0 <= start <= next <= |s|
    requires ' ' in font.glyphs
    requires clip.Some? ==> font.atlasSize.x != 0.0 && font.atlasSize.y != 0.0
    modifies editor
    ensures advanceX == advance.x + GlyphsWidth(font, size, s[start..next])
    ensures (cmds, tags) == LineQuads(s, start, next, font, size, anchor, rect, advance, clip, depth)
    ensures |cmds| == |tags|
    ensures forall i :: 0 <= i < |cmds| ==> cmds[i].Draw? && start <= tags[i] < next
    ensures clip.Some? ==> forall i :: 0 <= i < |cmds| ==> InsideStrict(cmds[i].quad, clip.value)
    ensures editor != null ==>
      editor.State() == old(editor.State()) && editor.Settings() == old(editor.Settings()) &&
      editor.cursorPos == RecordedAll(old(editor.cursorPos), editor.cursorIndex, |editor.text|, cmds, tags) &&
      editor.cursorSelectPos == RecordedAll(old(editor.cursorSelectPos), editor.cursorSelectIndex, |editor.text|, cmds, tags) &&
      editor.cursorSize == if cmds == [] then old(editor.cursorSize) else Vec2(1.0, fontSize as real)
  {
    advanceX := advance.x;
    cmds := [];
    tags := [];
    var g := start;
    while g < next
      invariant start <= g <= next
      invariant advanceX == advance.x + GlyphsWidth(font, size, s[start..g])
      invariant (cmds, tags) == LineQuads(s, start, g, font, size, anchor, rect, advance, clip, depth)
      invariant |cmds| == |tags|
      invariant editor != null ==>
        editor.State() == old(editor.State()) && editor.Settings() == old(editor.Settings()) &&
        editor.cursorPos == RecordedAll(old(editor.cursorPos), editor.cursorIndex, |editor.text|, cmds, tags) &&
        editor.cursorSelectPos == RecordedAll(old(editor.cursorSelectPos), editor.cursorSelectIndex, |editor.text|, cmds, tags) &&
        editor.cursorSize == if cmds == [] then old(editor.cursorSize) else Vec2(1.0, fontSize as real)
    {
      GlyphsWidthStep(font, size, s, start, g);
      assert PenAt(s, start, g, font, size, advance) == Vec2(advanceX, advance.y);
      var drawn, width := DrawGlyph(s, g, font, size, anchor, rect, Vec2(advanceX, advance.y), clip, depth);
      assert LineQuads(s, start, g + 1, font, size, anchor, rect, advance, clip, depth)
          == if drawn.Some? then (cmds + [Draw(drawn.value)], tags + [g]) else (cmds, tags);
      advanceX := advanceX + width;
      if drawn.Some? {
        EmitGlyph(drawn.value, g, fontSize, editor);
        var c1 := [Draw(drawn.value)];
        ghost var t1 := [g];
        if editor != null {
          RecordedAllSnoc(old(editor.cursorPos), editor.cursorIndex, |editor.text|, cmds, tags, drawn.value, g);
          RecordedAllSnoc(old(editor.cursorSelectPos), editor.cursorSelectIndex, |editor.text|, cmds, tags, drawn.value, g);
        }
        cmds := cmds + c1;
        tags := tags + t1;
      }
      g := g + 1;
    }
    LineQuadsDrawVisibleGlyphs(s, start, next, font, size, anchor, rect, advance, clip, depth);
  }

  /** One pass of the glyph loop for character `g` with the pen at `pen`:
      the quad drawn, if any, and how far the pen moves. A character without
      a glyph moves nothing; a space moves by the space width. */
  method DrawGlyph(s: string, g: int, font: Font, size: real, anchor: Vec2, rect: Rect, pen: Vec2,
                   clip: Option<Rect>, depth: real) returns (drawn: Option<Quad>, width: real)
    requires 0 <= g < |s| && ' ' in font.glyphs
    requires clip.Some? ==> font.atlasSize.x != 0.0 && font.atlasSize.y != 0.0
    ensures drawn == GlyphAt(s, g, font, size, anchor, rect, pen, clip, depth)
    ensures width == CharWidth(font, size, s[g])
  {
    var info := font.GetCharacterInfo(s[g]);
    drawn, width := None, 0.0;
    if info.None? {
      // No glyph: nothing drawn and no advance.
    } else if s[g] == ' ' {
      width := Scaled(font.glyphs[' '].width, size);
    } else {
      var q := GlyphQuad(info.value, size, anchor, rect, pen, depth);
      width := Scaled(info.value.width, size);
      drawn := if clip.Some? then ClipGlyph(q, clip.value, font.atlasSize) else Some(q);
    }
  }

  /** The editor updates made for one drawn glyph `q` of character `g`. */
  method EmitGlyph(q: Quad, g: int, fontSize: int, editor: TextEditor?)
    modifies editor
    ensures editor != null ==>
      editor.State() == old(editor.State()) && editor.Settings() == old(editor.Settings()) &&
      editor.cursorPos == Recorded(old(editor.cursorPos), editor.cursorIndex, |editor.text|, q, g) &&
      editor.cursorSelectPos == Recorded(old(editor.cursorSelectPos), editor.cursorSelectIndex, |editor.text|, q, g) &&
      editor.cursorSize == Vec2(1.0, fontSize as real)
  {
    if editor != null {
      if editor.cursorIndex == g {
        editor.cursorPos := Vec2(q.left, q.bottom);
      } else if editor.cursorIndex >= |editor.text| && g == |editor.text| - 1 {
        editor.cursorPos := Vec2(q.right, q.bottom);
      }
      if editor.cursorSelectIndex == g {
        editor.cursorSelectPos := Vec2(q.left, q.bottom);
      } else if editor.cursorSelectIndex >= |editor.text| && g == |editor.text| - 1 {
        editor.cursorSelectPos := Vec2(q.right, q.bottom);
      }
      editor.cursorSize := Vec2(1.0, fontSize as real);
    }
  }

  /** The stream holds at least one drawn quad. */
  predicate HasDraw(cmds: seq<Command>)
  {
    exists i :: 0 <= i < |cmds| && cmds[i].Draw?
  }

  /** The early exits of `DrawLabel` all pass: a font, a non-empty string, a
      rectangle on screen and not outside the clip rectangle. */
  predicate LayoutReached(rect: Rect, text: string, style: TextStyle, clip: Option<Rect>, screen: Vec2)
  {
    style.font.Some? && |text| > 0 && !OffScreen(rect, screen) && !(clip.Some? && OutsideClip(rect, clip.value))
  }

  /** The values `DrawLabel` derives once its early exits pass: the font,
      the scale to the requested size, the line height, the content box and
      the anchor point. */
  datatype LabelLayout = LabelLayout(font: Font, size: real, lineHeight: real, bounds: Bounds, anchor: Vec2)

  function LayoutOf(rect: Rect, style: TextStyle, intSize: int, alignment: Anchor): LabelLayout
    requires style.font.Some? && style.font.value.size != 0
  {
    var font := style.font.value;
    var size := Scale(intSize, font);
    var lineHeight := font.lineSpacing * size;
    var b := LayoutBounds(rect, style.padding, lineHeight);
    LabelLayout(font, size, lineHeight, b, AnchorPoint(alignment, b))
  }

  /** One pass of the line loop: where the line starts, where its scan
      stopped, where the next line starts, its measured width and the pen
      its glyphs start from. */
  datatype LineLayout = LineLayout(start: int, stop: int, next: int, width: real, pen: Vec2)

  /** Where the line after `lines` starts: at 0 for the first line. */
  function NextStart(lines: seq<LineLayout>): int
  {
    if lines == [] then 0 else lines[|lines| - 1].next
  }

  /** The pen height of the line after `lines`: 0 for the first line, one
      line height lower for every later one. */
  function NextPenY(lines: seq<LineLayout>, lineHeight: real): real
  {
    if lines == [] then 0.0 else lines[|lines| - 1].pen.y - lineHeight
  }

  /** The line loop's condition: text is left and the pen is still above
      the bottom of the content box. */
  predicate LinesContinue(text: string, start: int, penY: real, rect: Rect, padding: Padding)
  {
    start < |text| && penY - padding.top > -(rect.height - padding.top - padding.bottom)
  }

  /** The pen's x for a line `width` wide: half the width back for a centred
      anchor, the whole width back for a right one, 0 otherwise. The anchor
      is told apart by comparing values, as the source does. */
  function AlignedPenX(anchorX: real, b: Bounds, width: real): real
  {
    if anchorX == b.center then 0.0 - width / 2.0
    else if anchorX == b.right then 0.0 - width
    else 0.0
  }

  /** `lines` are the first `|lines|` passes of the line loop: each starts
      where the previous one left off, one line height lower, while the
      loop's condition holds, breaks as `LineBreak` says, and starts its pen
      at the aligned x. */
  predicate LaidOut(text: string, rect: Rect, padding: Padding, L: LabelLayout, lines: seq<LineLayout>)
    requires ' ' in L.font.glyphs
    decreases |lines|
  {
    lines == [] ||
    var prior, l := lines[..|lines| - 1], lines[|lines| - 1];
    LaidOut(text, rect, padding, L, prior) &&
    l.start == NextStart(prior) && l.pen.y == NextPenY(prior, L.lineHeight) &&
    0 <= l.start && LinesContinue(text, l.start, l.pen.y, rect, padding) &&
    LineBreak(text, l.start, L.font, L.size, L.bounds.right, l.stop, l.next, l.width) &&
    l.pen.x == AlignedPenX(L.anchor.x, L.bounds, l.width)
  }

  /** The quads of all laid-out lines, line after line, with their tags. */
  function LinesQuads(text: string, rect: Rect, padding: Padding, L: LabelLayout, lines: seq<LineLayout>,
                      clip: Option<Rect>, depth: real): (seq<Command>, seq<int>)
    requires ' ' in L.font.glyphs
    requires clip.Some? ==> L.font.atlasSize.x != 0.0 && L.font.atlasSize.y != 0.0
    requires LaidOut(text, rect, padding, L, lines)
    decreases |lines|
  {
    if lines == [] then ([], [])
    else
      var prior := LinesQuads(text, rect, padding, L, lines[..|lines| - 1], clip, depth);
      var l := lines[|lines| - 1];
      var line := LineQuads(text, l.start, l.next, L.font, L.size, L.anchor, rect, l.pen, clip, depth);
      (prior.0 + line.0, prior.1 + line.1)
  }

  /** Appending one more pass to a layout. */
  lemma LaidOutSnoc(text: string, rect: Rect, padding: Padding, L: LabelLayout, lines: seq<LineLayout>,
                    l: LineLayout, clip: Option<Rect>, depth: real)
    requires ' ' in L.font.glyphs
    requires clip.Some? ==> L.font.atlasSize.x != 0.0 && L.font.atlasSize.y != 0.0
    requires LaidOut(text, rect, padding, L, lines)
    requires l.start == NextStart(lines) && l.pen.y == NextPenY(lines, L.lineHeight)
    requires 0 <= l.start && LinesContinue(text, l.start, l.pen.y, rect, padding)
    requires LineBreak(text, l.start, L.font, L.size, L.bounds.right, l.stop, l.next, l.width)
    requires l.pen.x == AlignedPenX(L.anchor.x, L.bounds, l.width)
    ensures LaidOut(text, rect, padding, L, lines + [l])
    ensures NextStart(lines + [l]) == l.next && NextPenY(lines + [l], L.lineHeight) == l.pen.y - L.lineHeight
    ensures LinesQuads(text, rect, padding, L, lines + [l], clip, depth)
         == (LinesQuads(text, rect, padding, L, lines, clip, depth).0
               + LineQuads(text, l.start, l.next, L.font, L.size, L.anchor, rect, l.pen, clip, depth).0,
             LinesQuads(text, rect, padding, L, lines, clip, depth).1
               + LineQuads(text, l.start, l.next, L.font, L.size, L.anchor, rect, l.pen, clip, depth).1)
  {
    assert (lines + [l])[..|lines|] == lines;
  }

  /** Every prefix of a layout is a layout. */
  lemma {:induction false} LaidOutTake(text: string, rect: Rect, padding: Padding, L: LabelLayout,
                                       lines: seq<LineLayout>, m: nat)
    requires ' ' in L.font.glyphs
    requires LaidOut(text, rect, padding, L, lines) && m <= |lines|
    ensures LaidOut(text, rect, padding, L, lines[..m])
    decreases |lines| - m
  {
    if m < |lines| {
      var prior := lines[..|lines| - 1];
      LaidOutTake(text, rect, padding, L, prior, m);
      assert prior[..m] == lines[..m];
    } else {
      assert lines[..m] == lines;
    }
  }

  /** Two layouts with the same number of passes are the same. */
  lemma {:induction false} LaidOutUnique(text: string, rect: Rect, padding: Padding, L: LabelLayout,
                                         a: seq<LineLayout>, b: seq<LineLayout>)
    requires ' ' in L.font.glyphs
    requires LaidOut(text, rect, padding, L, a) && LaidOut(text, rect, padding, L, b) && |a| == |b|
    ensures a == b
    decreases |a|
  {
    if a != [] {
      var n := |a| - 1;
      LaidOutUnique(text, rect, padding, L, a[..n], b[..n]);
      LineBreakDeterministic(text, a[n].start, L.font, L.size, L.bounds.right,
                             a[n].stop, a[n].next, a[n].width, b[n].stop, b[n].next, b[n].width);
      assert a == a[..n] + [a[n]] && b == b[..n] + [b[n]];
    }
  }

  /** The line loop's passes are determined by the label: two layouts that
      each end where the loop ends (its condition fails, or the emergency
      brake fires after 1002 passes) are the same. */
  lemma LabelLinesDeterministic(text: string, rect: Rect, padding: Padding, L: LabelLayout,
                                a: seq<LineLayout>, b: seq<LineLayout>)
    requires ' ' in L.font.glyphs
    requires LaidOut(text, rect, padding, L, a) && LaidOut(text, rect, padding, L, b)
    requires |a| <= 1002 && |b| <= 1002
    requires |a| <= 1001 ==> !LinesContinue(text, NextStart(a), NextPenY(a, L.lineHeight), rect, padding)
    requires |b| <= 1001 ==> !LinesContinue(text, NextStart(b), NextPenY(b, L.lineHeight), rect, padding)
    ensures a == b
  {
    if |a| < |b| {
      EndedLayoutIsLongest(text, rect, padding, L, a, b);
    } else if |b| < |a| {
      EndedLayoutIsLongest(text, rect, padding, L, b, a);
    } else {
      LaidOutUnique(text, rect, padding, L, a, b);
    }
  }

  /** A layout whose loop condition fails has no longer layout beside it. */
  lemma EndedLayoutIsLongest(text: string, rect: Rect, padding: Padding, L: LabelLayout,
                             a: seq<LineLayout>, b: seq<LineLayout>)
    requires ' ' in L.font.glyphs
    requires LaidOut(text, rect, padding, L, a) && LaidOut(text, rect, padding, L, b)
    requires !LinesContinue(text, NextStart(a), NextPenY(a, L.lineHeight), rect, padding)
    ensures |b| <= |a|
  {
    if |a| < |b| {
      var c := b[..|a| + 1];
      LaidOutTake(text, rect, padding, L, b, |a| + 1);
      assert c[..|a|] == b[..|a|];
      LaidOutTake(text, rect, padding, L, b, |a|);
      LaidOutUnique(text, rect, padding, L, a, b[..|a|]);
    }
  }

  /** The stream `DrawLabel` appends around the lines' quads: the tint, the
      quads, and the colour reset unless the brake fired. */
  lemma FramedStream(color: Color, lineCmds: seq<Command>, braked: bool, clip: Option<Rect>)
    requires forall i :: 0 <= i < |lineCmds| ==> lineCmds[i].Draw?
    requires clip.Some? ==> forall i :: 0 <= i < |lineCmds| ==> InsideStrict(lineCmds[i].quad, clip.value)
    ensures var cmds := [SetColor(color)] + lineCmds + (if braked then [] else [SetColor(White)]);
      |cmds| >= 1 && cmds[0] == SetColor(color) &&
      (HasDraw(cmds) <==> lineCmds != []) &&
      (!braked ==> |cmds| >= 2 && cmds[|cmds| - 1] == SetColor(White) &&
                   forall i :: 1 <= i < |cmds| - 1 ==> cmds[i].Draw?) &&
      (braked ==> forall i :: 1 <= i < |cmds| ==> cmds[i].Draw?) &&
      (clip.Some? ==> forall i :: 0 <= i < |cmds| && cmds[i].Draw? ==> InsideStrict(cmds[i].quad, clip.value))
  {
    var cmds := [SetColor(color)] + lineCmds + (if braked then [] else [SetColor(White)]);
    if lineCmds != [] {
      assert cmds[1].Draw?;
    }
  }

  /** The nine-argument `DrawLabel`. The result is the command stream it
      appends; `tags` gives, per command, the character it was drawn for,
      `passes` counts the passes of the line loop and `lines` records them. */
  method DrawLabel(rect: Rect, text: string, style: TextStyle, intSize: int, alignment: Anchor, depth: real,
                   tint: Color, clip: Option<Rect>, editor: TextEditor?, screen: Vec2)
    returns (cmds: seq<Command>, ghost tags: seq<int>, ghost passes: nat, ghost lines: seq<LineLayout>)
    requires LayoutReached(rect, text, style, clip, screen) ==>
      style.font.value.size != 0 && ' ' in style.font.value.glyphs &&
      (clip.Some? ==> style.font.value.atlasSize.x != 0.0 && style.font.value.atlasSize.y != 0.0)
    modifies editor
    ensures |cmds| == |tags|
    ensures !LayoutReached(rect, text, style, clip, screen) ==> cmds == []
    ensures editor != null && !LayoutReached(rect, text, style, clip, screen) && !(style.font.Some? && text == "") ==>
      editor.State() == old(editor.State()) && editor.Settings() == old(editor.Settings()) &&
      editor.cursorPos == old(editor.cursorPos) && editor.cursorSelectPos == old(editor.cursorSelectPos) &&
      editor.cursorSize == old(editor.cursorSize)
    ensures editor != null && style.font.Some? && text == "" ==>
      editor.State() == EditState(old(editor.text), 0, 0) && editor.Settings() == old(editor.Settings()) &&
      editor.cursorPos == Vec2(rect.XMin(), rect.YMin() - style.fontSize as real) &&
      editor.cursorSelectPos == old(editor.cursorSelectPos) && editor.cursorSize == old(editor.cursorSize)
    ensures LayoutReached(rect, text, style, clip, screen) ==>
      passes <= 1002 && |cmds| >= 1 && cmds[0] == SetColor(Tinted(style.fontColor, tint)) &&
      (passes <= 1001 ==> |cmds| >= 2 && cmds[|cmds| - 1] == SetColor(White) &&
                          forall i :: 1 <= i < |cmds| - 1 ==> cmds[i].Draw?) &&
      (passes == 1002 ==> forall i :: 1 <= i < |cmds| ==> cmds[i].Draw?) &&
      (clip.Some? ==> forall i :: 0 <= i < |cmds| && cmds[i].Draw? ==> InsideStrict(cmds[i].quad, clip.value))
    ensures LayoutReached(rect, text, style, clip, screen) ==>
      var L := LayoutOf(rect, style, intSize, alignment);
      |lines| == passes && LaidOut(text, rect, style.padding, L, lines) &&
      (passes <= 1001 ==> !LinesContinue(text, NextStart(lines), NextPenY(lines, L.lineHeight), rect, style.padding)) &&
      cmds == [SetColor(Tinted(style.fontColor, tint))] + LinesQuads(text, rect, style.padding, L, lines, clip, depth).0
              + (if passes <= 1001 then [SetColor(White)] else []) &&
      tags == [-1] + LinesQuads(text, rect, style.padding, L, lines, clip, depth).1
              + (if passes <= 1001 then [-1] else [])
    ensures LayoutReached(rect, text, style, clip, screen) && editor != null ==>
      editor.State() == old(editor.State()) && editor.Settings() == old(editor.Settings()) &&
      editor.cursorPos == RecordedAll(old(editor.cursorPos), editor.cursorIndex, |editor.text|, cmds, tags) &&
      editor.cursorSelectPos == RecordedAll(old(editor.cursorSelectPos), editor.cursorSelectIndex, |editor.text|, cmds, tags) &&
      editor.cursorSize == if HasDraw(cmds) then Vec2(1.0, style.fontSize as real) else old(editor.cursorSize)
  {
    cmds, tags, passes, lines := [], [], 0, [];
    // Check font (the source re-resolves it for the next call)
    if style.font.None? {
      return;
    }
    // Check string
    if |text| == 0 {
      if editor != null {
        editor.cursorIndex := 0;
        editor.cursorSelectIndex := 0;
        editor.cursorPos := Vec2(rect.XMin(), rect.YMin() - style.fontSize as real);
      }
      return;
    }
    // Check screen
    if OffScreen(rect, screen) {
      return;
    }
    // Check clipping
    if clip.Some? && OutsideClip(rect, clip.value) {
      return;
    }

    var font := style.font.value;
    var size := intSize as real / font.size as real;
    var lineHeight := font.lineSpacing * size;
    var b := LayoutBounds(rect, style.padding, lineHeight);
    var anchor := AnchorPoint(alignment, b);
    var layout := LabelLayout(font, size, lineHeight, b, anchor);
    assert layout == LayoutOf(rect, style, intSize, alignment);

    cmds, tags, lines := DrawLabelText(text, rect, style.padding, layout, Tinted(style.fontColor, tint),
                                       clip, depth, style.fontSize, editor);
    passes := |lines|;
  }

  /** `DrawLabel` once its early exits pass: the tint, the line loop's
      quads, and the colour reset unless the emergency brake fired. */
  method DrawLabelText(text: string, rect: Rect, padding: Padding, layout: LabelLayout, color: Color,
                       clip: Option<Rect>, depth: real, fontSize: int, editor: TextEditor?)
    returns (cmds: seq<Command>, ghost tags: seq<int>, ghost lines: seq<LineLayout>)
    requires ' ' in layout.font.glyphs
    requires clip.Some? ==> layout.font.atlasSize.x != 0.0 && layout.font.atlasSize.y != 0.0
    modifies editor
    ensures |cmds| == |tags| && |lines| <= 1002
    ensures LaidOut(text, rect, padding, layout, lines)
    ensures |lines| <= 1001 ==> !LinesContinue(text, NextStart(lines), NextPenY(lines, layout.lineHeight), rect, padding)
    ensures cmds == [SetColor(color)] + LinesQuads(text, rect, padding, layout, lines, clip, depth).0
                    + (if |lines| <= 1001 then [SetColor(White)] else [])
    ensures tags == [-1] + LinesQuads(text, rect, padding, layout, lines, clip, depth).1
                    + (if |lines| <= 1001 then [-1] else [])
    ensures cmds[0] == SetColor(color)
    ensures |lines| <= 1001 ==> |cmds| >= 2 && cmds[|cmds| - 1] == SetColor(White) &&
                                forall i :: 1 <= i < |cmds| - 1 ==> cmds[i].Draw?
    ensures |lines| == 1002 ==> forall i :: 1 <= i < |cmds| ==> cmds[i].Draw?
    ensures clip.Some? ==> forall i :: 0 <= i < |cmds| && cmds[i].Draw? ==> InsideStrict(cmds[i].quad, clip.value)
    ensures editor != null ==>
      editor.State() == old(editor.State()) && editor.Settings() == old(editor.Settings()) &&
      editor.cursorPos == RecordedAll(old(editor.cursorPos), editor.cursorIndex, |editor.text|, cmds, tags) &&
      editor.cursorSelectPos == RecordedAll(old(editor.cursorSelectPos), editor.cursorSelectIndex, |editor.text|, cmds, tags) &&
      editor.cursorSize == if HasDraw(cmds) then Vec2(1.0, fontSize as real) else old(editor.cursorSize)
  {
    var lineCmds, braked;
    ghost var lineTags;
    lineCmds, lineTags, lines, braked := DrawLines(text, rect, padding, layout, clip, depth, fontSize, editor);
    if editor != null {
      RecordedAllAppend(old(editor.cursorPos), editor.cursorIndex, |editor.text|, [SetColor(color)], [-1], lineCmds, lineTags);
      RecordedAllAppend(old(editor.cursorSelectPos), editor.cursorSelectIndex, |editor.text|, [SetColor(color)], [-1], lineCmds, lineTags);
    }
    FramedStream(color, lineCmds, braked, clip);
    cmds, tags := [SetColor(color)] + lineCmds, [-1] + lineTags;
    // Emergency: the source returns before the colour reset
    if braked {
      return;
    }
    if editor != null {
      RecordedAllAppend(old(editor.cursorPos), editor.cursorIndex, |editor.text|, cmds, tags, [SetColor(White)], [-1]);
      RecordedAllAppend(old(editor.cursorSelectPos), editor.cursorSelectIndex, |editor.text|, cmds, tags, [SetColor(White)], [-1]);
    }
    cmds, tags := cmds + [SetColor(White)], tags + [-1];
  }

  /** The line loop of `DrawLabel`: one line per pass while text is left and
      the pen is above the bottom of the content box. After its 1002nd pass
      the emergency brake stops it, and `braked` tells `DrawLabel` to return
      at once. The result holds only the glyph quads. */
  method DrawLines(text: string, rect: Rect, padding: Padding, layout: LabelLayout, clip: Option<Rect>, depth: real,
                   fontSize: int, editor: TextEditor?)
    returns (cmds: seq<Command>, ghost tags: seq<int>, ghost lines: seq<LineLayout>, braked: bool)
    requires ' ' in layout.font.glyphs
    requires clip.Some? ==> layout.font.atlasSize.x != 0.0 && layout.font.atlasSize.y != 0.0
    modifies editor
    ensures LaidOut(text, rect, padding, layout, lines) && |lines| <= 1002
    ensures braked <==> |lines| == 1002
    ensures !braked ==> !LinesContinue(text, NextStart(lines), NextPenY(lines, layout.lineHeight), rect, padding)
    ensures (cmds, tags) == LinesQuads(text, rect, padding, layout, lines, clip, depth) && |cmds| == |tags|
    ensures forall i :: 0 <= i < |cmds| ==> cmds[i].Draw?
    ensures clip.Some? ==> forall i :: 0 <= i < |cmds| ==> InsideStrict(cmds[i].quad, clip.value)
    ensures editor != null ==>
      editor.State() == old(editor.State()) && editor.Settings() == old(editor.Settings()) &&
      editor.cursorPos == RecordedAll(old(editor.cursorPos), editor.cursorIndex, |editor.text|, cmds, tags) &&
      editor.cursorSelectPos == RecordedAll(old(editor.cursorSelectPos), editor.cursorSelectIndex, |editor.text|, cmds, tags) &&
      editor.cursorSize == if cmds == [] then old(editor.cursorSize) else Vec2(1.0, fontSize as real)
  {
    var advance := Vec2(0.0, 0.0);
    var nextLineStart := 0;
    var emergencyBrake := 0;
    cmds, tags, lines, braked := [], [], [], false;
    while nextLineStart < |text| &&
          advance.y - padding.top > -(rect.height - padding.top - padding.bottom)
      invariant 0 <= nextLineStart <= |text|
      invariant 0 <= emergencyBrake <= 1001 && |lines| == emergencyBrake
      invariant advance.x == 0.0
      invariant LaidOut(text, rect, padding, layout, lines)
      invariant nextLineStart == NextStart(lines) && advance.y == NextPenY(lines, layout.lineHeight)
      invariant (cmds, tags) == LinesQuads(text, rect, padding, layout, lines, clip, depth) && |cmds| == |tags|
      invariant forall i :: 0 <= i < |cmds| ==> cmds[i].Draw?
      invariant clip.Some? ==> forall i :: 0 <= i < |cmds| ==> InsideStrict(cmds[i].quad, clip.value)
      invariant editor != null ==>
        editor.State() == old(editor.State()) && editor.Settings() == old(editor.Settings()) &&
        editor.cursorPos == RecordedAll(old(editor.cursorPos), editor.cursorIndex, |editor.text|, cmds, tags) &&
        editor.cursorSelectPos == RecordedAll(old(editor.cursorSelectPos), editor.cursorSelectIndex, |editor.text|, cmds, tags) &&
        editor.cursorSize == if cmds == [] then old(editor.cursorSize) else Vec2(1.0, fontSize as real)
      decreases 1001 - emergencyBrake
    {
      var lineCmds;
      ghost var lineTags, line;
      var thisLineStart := nextLineStart;
      nextLineStart, lineCmds, lineTags, line :=
        DrawLine(text, rect, padding, layout, lines, thisLineStart, advance.y, clip, depth, fontSize, editor);
      if editor != null {
        RecordedAllAppend(old(editor.cursorPos), editor.cursorIndex, |editor.text|, cmds, tags, lineCmds, lineTags);
        RecordedAllAppend(old(editor.cursorSelectPos), editor.cursorSelectIndex, |editor.text|, cmds, tags, lineCmds, lineTags);
      }
      cmds, tags, lines := cmds + lineCmds, tags + lineTags, lines + [line];

      // Next line
      advance := Vec2(0.0, advance.y - layout.lineHeight);

      // Emergency
      if emergencyBrake > 1000 {
        braked := true;
        return;
      } else {
        emergencyBrake := emergencyBrake + 1;
      }
    }
  }

  /** One pass of the line loop: break the line that starts at `start`,
      move the pen back as the alignment asks, and draw the line's glyphs
      with the pen at height `penY`. `line` records the pass. */
  method DrawLine(text: string, rect: Rect, padding: Padding, layout: LabelLayout, ghost lines: seq<LineLayout>,
                  start: int, penY: real, clip: Option<Rect>, depth: real, fontSize: int, editor: TextEditor?)
    returns (next: int, lineCmds: seq<Command>, ghost lineTags: seq<int>, ghost line: LineLayout)
    requires ' ' in layout.font.glyphs
    requires clip.Some? ==> layout.font.atlasSize.x != 0.0 && layout.font.atlasSize.y != 0.0
    requires LaidOut(text, rect, padding, layout, lines)
    requires start == NextStart(lines) && penY == NextPenY(lines, layout.lineHeight)
    requires 0 <= start && LinesContinue(text, start, penY, rect, padding)
    modifies editor
    ensures LaidOut(text, rect, padding, layout, lines + [line])
    ensures next == line.next == NextStart(lines + [line]) && 0 <= next <= |text|
    ensures line.pen.y == penY && NextPenY(lines + [line], layout.lineHeight) == penY - layout.lineHeight
    ensures LinesQuads(text, rect, padding, layout, lines + [line], clip, depth)
         == (LinesQuads(text, rect, padding, layout, lines, clip, depth).0 + lineCmds,
             LinesQuads(text, rect, padding, layout, lines, clip, depth).1 + lineTags)
    ensures |lineCmds| == |lineTags|
    ensures forall i :: 0 <= i < |lineCmds| ==> lineCmds[i].Draw?
    ensures clip.Some? ==> forall i :: 0 <= i < |lineCmds| ==> InsideStrict(lineCmds[i].quad, clip.value)
    ensures editor != null ==>
      editor.State() == old(editor.State()) && editor.Settings() == old(editor.Settings()) &&
      editor.cursorPos == RecordedAll(old(editor.cursorPos), editor.cursorIndex, |editor.text|, lineCmds, lineTags) &&
      editor.cursorSelectPos == RecordedAll(old(editor.cursorSelectPos), editor.cursorSelectIndex, |editor.text|, lineCmds, lineTags) &&
      editor.cursorSize == if lineCmds == [] then old(editor.cursorSize) else Vec2(1.0, fontSize as real)
  {
    var lineWidth, stop;
    next, lineWidth, stop := NextLine(text, start, layout.font, layout.size, layout.bounds.right);

    // Alignment advance adjustments (comparing values, as the source does)
    var advance := Vec2(0.0, penY);
    if layout.anchor.x == layout.bounds.center {
      advance := advance.(x := advance.x - lineWidth / 2.0);
    } else if layout.anchor.x == layout.bounds.right {
      advance := advance.(x := advance.x - lineWidth);
    }

    line := LineLayout(start, stop, next, lineWidth, advance);
    LaidOutSnoc(text, rect, padding, layout, lines, line, clip, depth);
    var advanceX;
    advanceX, lineCmds, lineTags := EmitLine(text, start, next, layout.font, layout.size,
                                             layout.anchor, rect, advance, clip, depth, fontSize, editor);
  }
}
