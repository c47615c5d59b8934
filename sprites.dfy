/** The sprite compositor of `OGDrawHelper`: one textured quad per sprite,
    sprites repeated over a grid, and the 9-slice decomposition of a
    rectangle into corners, panels and a center. */
module Sprites {
  import opened Geometry

  /** `OGSlicedSpriteOffset`. Its `horizontal` and `vertical` extents are
      computed outside this file and are kept here as given. */
  datatype Border = Border(left: real, right: real, top: real, bottom: real, horizontal: real, vertical: real) {
    /** The assumed meaning of the two computed extents. */
    predicate Consistent() { horizontal == left + right && vertical == top + bottom }

    predicate IsZero() { left == 0.0 && right == 0.0 && top == 0.0 && bottom == 0.0 }
  }

  /** `OGStyle`, reduced to what sprite drawing reads. */
  datatype SpriteStyle = SpriteStyle(coordinates: Rect, border: Border, color: Color)

  /** The screen size and the size of the texture bound by `SetPass`. */
  datatype Target = Target(screen: Vec2, texSize: Vec2) {
    predicate Textured() { texSize.x != 0.0 && texSize.y != 0.0 }
  }

  /** The clip rectangle exists and the sprite lies wholly outside it. */
  predicate Rejected(rect: Rect, clip: Option<Rect>)
  {
    clip.Some? && OutsideClip(rect, clip.value)
  }

  /** The texture rectangle in the texture's normalised units. */
  function Normalised(uvRect: Rect, texSize: Vec2): Rect
    requires texSize.x != 0.0 && texSize.y != 0.0
  {
    Rect(uvRect.x / texSize.x, uvRect.y / texSize.y, uvRect.width / texSize.x, uvRect.height / texSize.y)
  }

  /** The quad of a sprite that passes both rejects: each side pulled in to
      the clip rectangle, texture coordinates the corners of the normalised
      texture rectangle, whatever the clipping did. */
  function SpriteQuad(rect: Rect, uvRect: Rect, depth: real, clip: Option<Rect>, texSize: Vec2): (q: Quad)
    requires texSize.x != 0.0 && texSize.y != 0.0
    ensures q.depth == depth
    ensures q.left == (if clip.Some? then Max(rect.XMin(), clip.value.XMin()) else rect.XMin())
    ensures q.right == (if clip.Some? then Min(rect.XMax(), clip.value.XMax()) else rect.XMax())
    ensures q.bottom == (if clip.Some? then Max(rect.YMin(), clip.value.YMin()) else rect.YMin())
    ensures q.top == (if clip.Some? then Min(rect.YMax(), clip.value.YMax()) else rect.YMax())
    ensures var n := Normalised(uvRect, texSize);
      q.uv0 == Vec2(n.XMin(), n.YMin()) && q.uv1 == Vec2(n.XMin(), n.YMax()) &&
      q.uv2 == Vec2(n.XMax(), n.YMax()) && q.uv3 == Vec2(n.XMax(), n.YMin())
  {
    var left, right, bottom, top := rect.x, rect.x + rect.width, rect.y, rect.y + rect.height;
    var left := if clip.Some? && left < clip.value.XMin() then clip.value.XMin() else left;
    var right := if clip.Some? && right > clip.value.XMax() then clip.value.XMax() else right;
    var bottom := if clip.Some? && bottom < clip.value.YMin() then clip.value.YMin() else bottom;
    var top := if clip.Some? && top > clip.value.YMax() then clip.value.YMax() else top;
    var uv := Normalised(uvRect, texSize);
    Quad(left, right, bottom, top, depth,
         Vec2(uv.x, uv.y), Vec2(uv.x, uv.y + uv.height),
         Vec2(uv.x + uv.width, uv.y + uv.height), Vec2(uv.x + uv.width, uv.y))
  }

  /** Whatever the clipping did to the corners, the sprite quad's texture
      coordinates scaled back by the texture size are the corners of
      `uvRect`: bottom-left, top-left, top-right, bottom-right. */
  lemma SpriteUVsScaleBack(rect: Rect, uvRect: Rect, depth: real, clip: Option<Rect>, texSize: Vec2)
    requires texSize.x != 0.0 && texSize.y != 0.0
    ensures var q := SpriteQuad(rect, uvRect, depth, clip, texSize);
      q.uv0.x * texSize.x == uvRect.XMin() && q.uv0.y * texSize.y == uvRect.YMin() &&
      q.uv1.x * texSize.x == uvRect.XMin() && q.uv1.y * texSize.y == uvRect.YMax() &&
      q.uv2.x * texSize.x == uvRect.XMax() && q.uv2.y * texSize.y == uvRect.YMax() &&
      q.uv3.x * texSize.x == uvRect.XMax() && q.uv3.y * texSize.y == uvRect.YMin()
  {
    var n := Normalised(uvRect, texSize);
    assert n.XMin() * texSize.x == uvRect.XMin() && n.YMin() * texSize.y == uvRect.YMin();
    assert n.XMax() * texSize.x == (uvRect.x / texSize.x + uvRect.width / texSize.x) * texSize.x == uvRect.XMax();
    assert n.YMax() * texSize.y == (uvRect.y / texSize.y + uvRect.height / texSize.y) * texSize.y == uvRect.YMax();
  }

  /** The six-argument `DrawSprite`. It draws at most one quad, and one
      exactly when the sprite passes both the screen and the clip reject. */
  function DrawSprite(rect: Rect, uvRect: Rect, depth: real, color: Color, tint: Color,
                      clip: Option<Rect>, target: Target): (cmds: seq<Command>)
    requires target.Textured()
    ensures DrawCount(cmds) <= 1
    ensures DrawCount(cmds) == 1 <==> !OffScreen(rect, target.screen) && !Rejected(rect, clip)
  {
    if OffScreen(rect, target.screen) then []
    else
      var color := Tinted(color, tint);
      if Rejected(rect, clip) then
        DrawCountSingle(SetColor(color));
        [SetColor(color)]
      else
        var q := SpriteQuad(rect, uvRect, depth, clip, target.texSize);
        DrawCountTriple(SetColor(color), Draw(q), SetColor(White));
        [SetColor(color), Draw(q), SetColor(White)]
  }

  /** What `DrawSprite` emits: nothing off screen; the tint colour alone
      when the clip reject returns before the white reset; otherwise the
      tint colour, the sprite's quad and the white reset. */
  lemma SpriteCommands(rect: Rect, uvRect: Rect, depth: real, color: Color, tint: Color,
                       clip: Option<Rect>, target: Target)
    requires target.Textured()
    ensures var cmds := DrawSprite(rect, uvRect, depth, color, tint, clip, target);
      (cmds == [] <==> OffScreen(rect, target.screen)) &&
      (cmds != [] ==> cmds[0] == SetColor(Tinted(color, tint))) &&
      (!OffScreen(rect, target.screen) && Rejected(rect, clip) ==> |cmds| == 1) &&
      (!OffScreen(rect, target.screen) && !Rejected(rect, clip) ==>
         |cmds| == 3 && cmds[1] == Draw(SpriteQuad(rect, uvRect, depth, clip, target.texSize)) &&
         cmds[2] == SetColor(White))
  {
  }

  /** Clipping moves the corners of a sprite but never its texture
      coordinates: a sprite drawn under two clip rectangles (or none) shows
      the same UVs. */
  lemma SpriteUVIgnoresClip(rect: Rect, uvRect: Rect, depth: real, color: Color, tint: Color,
                            clip1: Option<Rect>, clip2: Option<Rect>, target: Target)
    requires target.Textured()
    requires !OffScreen(rect, target.screen) && !Rejected(rect, clip1) && !Rejected(rect, clip2)
    ensures var q1 := DrawSprite(rect, uvRect, depth, color, tint, clip1, target)[1].quad;
            var q2 := DrawSprite(rect, uvRect, depth, color, tint, clip2, target)[1].quad;
            q1.uv0 == q2.uv0 && q1.uv1 == q2.uv1 && q1.uv2 == q2.uv2 && q1.uv3 == q2.uv3
  {
  }

  /** A sprite of non-negative size that passes the clip reject is drawn
      with its corners inside the clip rectangle, and keeps a non-negative
      size. */
  lemma ClippedSpriteWithinClip(rect: Rect, uvRect: Rect, depth: real, color: Color, tint: Color,
                                clip: Rect, target: Target)
    requires target.Textured()
    requires rect.width >= 0.0 && rect.height >= 0.0 && clip.width >= 0.0 && clip.height >= 0.0
    requires !OffScreen(rect, target.screen) && !OutsideClip(rect, clip)
    ensures var q := DrawSprite(rect, uvRect, depth, color, tint, Some(clip), target)[1].quad;
            clip.XMin() <= q.left <= q.right <= clip.XMax() && clip.YMin() <= q.bottom <= q.top <= clip.YMax()
  {
  }

  /** A sprite whose right edge only touches the clip rectangle's left edge
      passes the clip reject and is still drawn, as a quad of zero width. */
  lemma TouchingSpriteDrawsEmptyQuad(rect: Rect, uvRect: Rect, depth: real, color: Color, tint: Color,
                                     clip: Rect, target: Target)
    requires target.Textured() && !OffScreen(rect, target.screen)
    requires rect.width >= 0.0 && clip.width >= 0.0 && rect.XMax() == clip.XMin()
    requires rect.YMin() <= clip.YMax() && rect.YMax() >= clip.YMin()
    ensures var cmds := DrawSprite(rect, uvRect, depth, color, tint, Some(clip), target);
            |cmds| == 3 && cmds[1].Draw? && cmds[1].quad.left == cmds[1].quad.right == clip.XMin()
  {
  }

  /** The five-argument `DrawSprite`, which takes the texture rectangle and
      the colour from a style and draws nothing for a missing style. */
  function DrawStyleSprite(rect: Rect, style: Option<SpriteStyle>, depth: real, tint: Color,
                           clip: Option<Rect>, target: Target): (cmds: seq<Command>)
    requires target.Textured()
    ensures style.None? ==> cmds == []
    ensures style.Some? ==> cmds == DrawSprite(rect, style.value.coordinates, depth, style.value.color, tint, clip, target)
  {
    if style.None? then [] else DrawSprite(rect, style.value.coordinates, depth, style.value.color, tint, clip, target)
  }

  /** How many times `for (x : int = 0; x < t; x++)` runs for a float bound `t`. */
  function TileCount(t: real): (n: nat)
    ensures n as real >= t
    ensures n > 0 ==> (n - 1) as real < t
  {
    if t <= 0.0 then 0
    else if t.Floor as real == t then t.Floor
    else t.Floor + 1
  }

  /** `i` lengths of `len` placed end to end. */
  function Offset(i: int, len: real): real { i as real * len }

  /** The cell of the grid at column `x`, row `y`: a `tileX` by `tileY`
      subdivision of `rect`. A zero count (never reached by the loops)
      yields a cell of zero size. */
  function TileCell(rect: Rect, tileX: real, tileY: real, x: int, y: int): Rect
  {
    var w := if tileX != 0.0 then rect.width / tileX else 0.0;
    var h := if tileY != 0.0 then rect.height / tileY else 0.0;
    Rect(rect.x + Offset(x, w), rect.y + Offset(y, h), w, h)
  }

  /** The loop body's `newScale` and `newPosition` for cell (`x`, `y`). */
  method NextCell(rect: Rect, tileX: real, tileY: real, x: int, y: int) returns (cell: Rect)
    requires 0 <= x && x as real < tileX && 0 <= y && y as real < tileY
    ensures cell == TileCell(rect, tileX, tileY, x, y)
  {
    var newScale := Vec2(rect.width / tileX, rect.height / tileY);
    var newPosition := Vec2(rect.x + Offset(x, newScale.x), rect.y + Offset(y, newScale.y));
    cell := Rect(newPosition.x, newPosition.y, newScale.x, newScale.y);
  }

  /** The sprites of column `x`, rows `0 .. ny - 1`, in drawing order. */
  function TiledColumn(rect: Rect, uvRect: Rect, depth: real, color: Color, tint: Color, tileX: real, tileY: real,
                       clip: Option<Rect>, target: Target, x: int, ny: nat): (cmds: seq<Command>)
    requires target.Textured()
    ensures DrawCount(cmds) <= ny
  {
    if ny == 0 then []
    else
      var below := TiledColumn(rect, uvRect, depth, color, tint, tileX, tileY, clip, target, x, ny - 1);
      var cell := DrawSprite(TileCell(rect, tileX, tileY, x, ny - 1), uvRect, depth, color, tint, clip, target);
      DrawCountConcatBound(below, cell, ny - 1, 1);
      below + cell
  }

  /** The sprites of columns `0 .. nx - 1`, column by column. */
  function TiledGrid(rect: Rect, uvRect: Rect, depth: real, color: Color, tint: Color, tileX: real, tileY: real,
                     clip: Option<Rect>, target: Target, nx: nat, ny: nat): (cmds: seq<Command>)
    requires target.Textured()
    ensures DrawCount(cmds) <= GridCells(nx, ny)
  {
    if nx == 0 then []
    else
      var left := TiledGrid(rect, uvRect, depth, color, tint, tileX, tileY, clip, target, nx - 1, ny);
      var column := TiledColumn(rect, uvRect, depth, color, tint, tileX, tileY, clip, target, nx - 1, ny);
      DrawCountConcatBound(left, column, GridCells(nx - 1, ny), ny);
      left + column
  }

  /** What `DrawTiledSprite` draws: one sprite per grid cell, column-major. */
  function TiledCommands(rect: Rect, uvRect: Rect, depth: real, color: Color, tint: Color, tileX: real, tileY: real,
                         clip: Option<Rect>, target: Target): seq<Command>
    requires target.Textured()
  {
    TiledGrid(rect, uvRect, depth, color, tint, tileX, tileY, clip, target, TileCount(tileX), TileCount(tileY))
  }

  /** One pass of the inner loop extends the column by the next cell's sprite. */
  lemma ColumnStep(rect: Rect, uvRect: Rect, depth: real, color: Color, tint: Color,
                   tileX: real, tileY: real, clip: Option<Rect>, target: Target, x: int, y: nat)
    requires target.Textured()
    ensures TiledColumn(rect, uvRect, depth, color, tint, tileX, tileY, clip, target, x, y)
            + DrawSprite(TileCell(rect, tileX, tileY, x, y), uvRect, depth, color, tint, clip, target)
         == TiledColumn(rect, uvRect, depth, color, tint, tileX, tileY, clip, target, x, y + 1)
  {
  }

  /** One pass of the outer loop extends the grid by the next column. */
  lemma GridStep(rect: Rect, uvRect: Rect, depth: real, color: Color, tint: Color,
                 tileX: real, tileY: real, clip: Option<Rect>, target: Target, x: nat, ny: nat)
    requires target.Textured()
    ensures TiledGrid(rect, uvRect, depth, color, tint, tileX, tileY, clip, target, x, ny)
            + TiledColumn(rect, uvRect, depth, color, tint, tileX, tileY, clip, target, x, ny)
         == TiledGrid(rect, uvRect, depth, color, tint, tileX, tileY, clip, target, x + 1, ny)
  {
  }

  /** The eight-argument `DrawTiledSprite`. */
  method DrawTiledSprite(rect: Rect, uvRect: Rect, depth: real, color: Color, tint: Color, tileX: real, tileY: real,
                         clip: Option<Rect>, target: Target) returns (cmds: seq<Command>)
    requires target.Textured()
    ensures cmds == TiledCommands(rect, uvRect, depth, color, tint, tileX, tileY, clip, target)
  {
    cmds := [];
    var x := 0;
    while x as real < tileX
      invariant 0 <= x <= TileCount(tileX)
      invariant cmds == TiledGrid(rect, uvRect, depth, color, tint, tileX, tileY, clip, target, x, TileCount(tileY))
      decreases TileCount(tileX) - x
    {
      var column := DrawTiledColumn(rect, uvRect, depth, color, tint, tileX, tileY, clip, target, x);
      GridStep(rect, uvRect, depth, color, tint, tileX, tileY, clip, target, x, TileCount(tileY));
      cmds := cmds + column;
      x := x + 1;
    }
    assert x == TileCount(tileX);
  }

  /** The inner loop of the eight-argument `DrawTiledSprite`: column `x`. */
  method DrawTiledColumn(rect: Rect, uvRect: Rect, depth: real, color: Color, tint: Color, tileX: real, tileY: real,
                         clip: Option<Rect>, target: Target, x: nat) returns (column: seq<Command>)
    requires target.Textured() && x as real < tileX
    ensures column == TiledColumn(rect, uvRect, depth, color, tint, tileX, tileY, clip, target, x, TileCount(tileY))
  {
    column := [];
    var y := 0;
    while y as real < tileY
      invariant 0 <= y <= TileCount(tileY)
      invariant column == TiledColumn(rect, uvRect, depth, color, tint, tileX, tileY, clip, target, x, y)
      decreases TileCount(tileY) - y
    {
      var cell := NextCell(rect, tileX, tileY, x, y);
      var sprite := DrawSprite(cell, uvRect, depth, color, tint, clip, target);
      ColumnStep(rect, uvRect, depth, color, tint, tileX, tileY, clip, target, x, y);
      column := column + sprite;
      y := y + 1;
    }
    assert y == TileCount(tileY);
  }

  /** The seven-argument `DrawTiledSprite`, which draws each cell through
      the style-taking `DrawSprite`: nothing for a missing style, otherwise
      the tiled sprite of the style's texture rectangle and colour. */
  method DrawTiledStyleSprite(rect: Rect, style: Option<SpriteStyle>, depth: real, tint: Color, tileX: real, tileY: real,
                              clip: Option<Rect>, target: Target) returns (cmds: seq<Command>)
    requires target.Textured()
    ensures style.None? ==> cmds == []
    ensures style.Some? ==>
      cmds == TiledCommands(rect, style.value.coordinates, depth, style.value.color, tint, tileX, tileY, clip, target)
  {
    cmds := [];
    var x := 0;
    while x as real < tileX
      invariant 0 <= x <= TileCount(tileX)
      invariant cmds == StyleGrid(rect, style, depth, tint, tileX, tileY, clip, target, x)
      decreases TileCount(tileX) - x
    {
      var column := DrawStyleColumn(rect, style, depth, tint, tileX, tileY, clip, target, x);
      cmds := cmds + column;
      x := x + 1;
    }
    assert x == TileCount(tileX);
  }

  /** The columns `0 .. nx - 1` of the style's tiled sprite; nothing for a missing style. */
  function StyleGrid(rect: Rect, style: Option<SpriteStyle>, depth: real, tint: Color, tileX: real, tileY: real,
                     clip: Option<Rect>, target: Target, nx: nat): seq<Command>
    requires target.Textured()
  {
    if style.None? then []
    else TiledGrid(rect, style.value.coordinates, depth, style.value.color, tint, tileX, tileY, clip, target, nx, TileCount(tileY))
  }

  /** The inner loop of the seven-argument `DrawTiledSprite`: column `x`. */
  method DrawStyleColumn(rect: Rect, style: Option<SpriteStyle>, depth: real, tint: Color, tileX: real, tileY: real,
                         clip: Option<Rect>, target: Target, x: nat) returns (column: seq<Command>)
    requires target.Textured() && x as real < tileX
    ensures StyleGrid(rect, style, depth, tint, tileX, tileY, clip, target, x) + column
         == StyleGrid(rect, style, depth, tint, tileX, tileY, clip, target, x + 1)
  {
    column := [];
    var y := 0;
    while y as real < tileY
      invariant 0 <= y <= TileCount(tileY)
      invariant style.None? ==> column == []
      invariant style.Some? ==>
        column == TiledColumn(rect, style.value.coordinates, depth, style.value.color, tint, tileX, tileY, clip, target, x, y)
      decreases TileCount(tileY) - y
    {
      var cell := NextCell(rect, tileX, tileY, x, y);
      var sprite := DrawStyleSprite(cell, style, depth, tint, clip, target);
      if style.Some? {
        ColumnStep(rect, style.value.coordinates, depth, style.value.color, tint, tileX, tileY, clip, target, x, y);
      }
      column := column + sprite;
      y := y + 1;
    }
    assert y == TileCount(tileY);
  }

  /** Neighbouring cells share an edge. */
  lemma TileCellsAbut(rect: Rect, tileX: real, tileY: real, x: int, y: int)
    ensures TileCell(rect, tileX, tileY, x + 1, y).XMin() == TileCell(rect, tileX, tileY, x, y).XMax()
    ensures TileCell(rect, tileX, tileY, x, y + 1).YMin() == TileCell(rect, tileX, tileY, x, y).YMax()
  {
    var w := if tileX != 0.0 then rect.width / tileX else 0.0;
    var h := if tileY != 0.0 then rect.height / tileY else 0.0;
    assert Offset(x + 1, w) == Offset(x, w) + w;
    assert Offset(y + 1, h) == Offset(y, h) + h;
  }

  /** The first cell starts at the rectangle's corner; with a whole tile
      count the last cell ends exactly at the far edge, and with a
      fractional count it overhangs it. */
  lemma TiledRowEnds(rect: Rect, tileX: real, tileY: real)
    requires tileX > 0.0 && rect.width > 0.0
    ensures TileCell(rect, tileX, tileY, 0, 0).XMin() == rect.XMin()
    ensures tileX == TileCount(tileX) as real ==>
      TileCell(rect, tileX, tileY, TileCount(tileX) - 1, 0).XMax() == rect.XMax()
    ensures tileX != TileCount(tileX) as real ==>
      TileCell(rect, tileX, tileY, TileCount(tileX) - 1, 0).XMax() > rect.XMax()
  {
    var n := TileCount(tileX);
    var w := rect.width / tileX;
    var last := rect.x + Offset(n - 1, w) + w;
    assert Offset(0, w) == 0.0;
    assert TileCell(rect, tileX, tileY, n - 1, 0).XMax() == last;
    OffsetStep(n - 1, w);
    assert last == rect.x + Offset(n, w);
    if tileX == n as real {
      assert Offset(n, w) == tileX * w;
    } else {
      OffsetBeyond(n, tileX, w);
    }
    assert tileX * w == rect.width;
  }

  lemma OffsetStep(i: int, w: real)
    ensures Offset(i, w) + w == Offset(i + 1, w)
  {
  }

  lemma OffsetBeyond(n: int, t: real, w: real)
    requires n as real > t && w > 0.0
    ensures Offset(n, w) > t * w
  {
    var d := n as real - t;
    assert Offset(n, w) == t * w + d * w;
    assert d * w > 0.0;
  }

  /** `nx` columns of `ny` cells each, counted column by column. */
  function GridCells(nx: nat, ny: nat): nat
  {
    if nx == 0 then 0 else GridCells(nx - 1, ny) + ny
  }

  lemma {:induction false} GridCellsProduct(nx: nat, ny: nat)
    ensures GridCells(nx, ny) == nx * ny
  {
    if nx > 0 {
      GridCellsProduct(nx - 1, ny);
      assert (nx - 1) * ny + ny == nx * ny;
    }
  }

  /** A tiled sprite draws at most one quad per grid cell. */
  lemma TiledDrawsAtMostOnePerCell(rect: Rect, uvRect: Rect, depth: real, color: Color, tint: Color,
                                   tileX: real, tileY: real, clip: Option<Rect>, target: Target)
    requires target.Textured()
    ensures DrawCount(TiledCommands(rect, uvRect, depth, color, tint, tileX, tileY, clip, target))
            <= TileCount(tileX) * TileCount(tileY)
  {
    GridCellsProduct(TileCount(tileX), TileCount(tileY));
  }

  /** A one-by-one grid is the sprite itself. */
  lemma SingleTileIsSprite(rect: Rect, uvRect: Rect, depth: real, color: Color, tint: Color,
                           clip: Option<Rect>, target: Target)
    requires target.Textured()
    ensures TiledCommands(rect, uvRect, depth, color, tint, 1.0, 1.0, clip, target)
            == DrawSprite(rect, uvRect, depth, color, tint, clip, target)
  {
    assert TileCount(1.0) == 1;
    assert TileCell(rect, 1.0, 1.0, 0, 0) == rect;
    var s := DrawSprite(rect, uvRect, depth, color, tint, clip, target);
    assert TiledColumn(rect, uvRect, depth, color, tint, 1.0, 1.0, clip, target, 0, 1) == [] + s;
    assert TiledGrid(rect, uvRect, depth, color, tint, 1.0, 1.0, clip, target, 1, 1) == [] + ([] + s);
  }

  /** The `k`-th of the nine regions `DrawSlicedSprite` draws, in its order:
      bottom-left corner, left panel, top-left corner, top panel, top-right
      corner, right panel, bottom-right corner, bottom panel, center. The
      same formula builds the screen rectangle from `rect` and the texture
      rectangle from the style's coordinates. */
  function SliceRegion(r: Rect, b: Border, k: nat): Rect
    requires k < 9
  {
    match k
    case 0 => Rect(r.x, r.y, b.left, b.bottom)
    case 1 => Rect(r.x, r.y + b.bottom, b.left, r.height - b.bottom - b.top)
    case 2 => Rect(r.x, r.y + r.height - b.top, b.left, b.top)
    case 3 => Rect(r.x + b.left, r.y + r.height - b.top, r.width - b.horizontal, b.top)
    case 4 => Rect(r.x + r.width - b.right, r.y + r.height - b.top, b.right, b.top)
    case 5 => Rect(r.x + r.width - b.right, r.y + b.bottom, b.right, r.height - b.vertical)
    case 6 => Rect(r.x + r.width - b.right, r.y, b.right, b.bottom)
    case 7 => Rect(r.x + b.left, r.y, r.width - b.horizontal, b.bottom)
    case _ => Rect(r.x + b.left, r.y + b.bottom, r.width - b.right - b.left, r.height - b.bottom - b.top)
  }

  /** The sprite drawn for region `k` of a sliced sprite. */
  function SliceSprite(rect: Rect, style: SpriteStyle, depth: real, tint: Color, clip: Option<Rect>,
                       target: Target, k: nat): seq<Command>
    requires target.Textured() && k < 9
  {
    DrawSprite(SliceRegion(rect, style.border, k), SliceRegion(style.coordinates, style.border, k),
               depth, style.color, tint, clip, target)
  }

  /** The sprites of the nine regions, in drawing order. */
  function SliceSprites(rect: Rect, style: SpriteStyle, depth: real, tint: Color, clip: Option<Rect>,
                        target: Target): seq<seq<Command>>
    requires target.Textured()
  {
    seq(9, k requires 0 <= k < 9 => SliceSprite(rect, style, depth, tint, clip, target, k))
  }

  /** The nine region sprites listed one by one. */
  lemma SliceSpritesInOrder(rect: Rect, style: SpriteStyle, depth: real, tint: Color, clip: Option<Rect>,
                            target: Target)
    requires target.Textured()
    ensures SliceSprites(rect, style, depth, tint, clip, target)
         == [SliceSprite(rect, style, depth, tint, clip, target, 0), SliceSprite(rect, style, depth, tint, clip, target, 1),
             SliceSprite(rect, style, depth, tint, clip, target, 2), SliceSprite(rect, style, depth, tint, clip, target, 3),
             SliceSprite(rect, style, depth, tint, clip, target, 4), SliceSprite(rect, style, depth, tint, clip, target, 5),
             SliceSprite(rect, style, depth, tint, clip, target, 6), SliceSprite(rect, style, depth, tint, clip, target, 7),
             SliceSprite(rect, style, depth, tint, clip, target, 8)]
  {
  }

  /** The five-argument `DrawSlicedSprite`: nothing for a missing style, the
      plain sprite when no border is set, and otherwise the nine region
      sprites in order, each with its texture rectangle cut from the style's
      coordinates by the same formula as its screen rectangle from `rect`. */
  function DrawSlicedSprite(rect: Rect, style: Option<SpriteStyle>, depth: real, tint: Color,
                            clip: Option<Rect>, target: Target): (cmds: seq<Command>)
    requires target.Textured()
    ensures style.None? ==> cmds == []
    ensures style.Some? && style.value.border.IsZero() ==>
      cmds == DrawSprite(rect, style.value.coordinates, depth, style.value.color, tint, clip, target)
    ensures style.Some? && !style.value.border.IsZero() ==>
      cmds == Flatten(SliceSprites(rect, style.value, depth, tint, clip, target))
  {
    if style.None? then []
    else
      var uvRect := style.value.coordinates;
      var border := style.value.border;
      var color := style.value.color;
      if border.left == 0.0 && border.right == 0.0 && border.top == 0.0 && border.bottom == 0.0 then
        DrawSprite(rect, uvRect, depth, color, tint, clip, target)
      else
        var b := border;
        // Bottom left corner
        var p0 := DrawSprite(SliceRegion(rect, b, 0), SliceRegion(uvRect, b, 0), depth, color, tint, clip, target);
        // Left panel
        var p1 := DrawSprite(SliceRegion(rect, b, 1), SliceRegion(uvRect, b, 1), depth, color, tint, clip, target);
        // Top left corner
        var p2 := DrawSprite(SliceRegion(rect, b, 2), SliceRegion(uvRect, b, 2), depth, color, tint, clip, target);
        // Top panel
        var p3 := DrawSprite(SliceRegion(rect, b, 3), SliceRegion(uvRect, b, 3), depth, color, tint, clip, target);
        // Top right corner
        var p4 := DrawSprite(SliceRegion(rect, b, 4), SliceRegion(uvRect, b, 4), depth, color, tint, clip, target);
        // Right panel
        var p5 := DrawSprite(SliceRegion(rect, b, 5), SliceRegion(uvRect, b, 5), depth, color, tint, clip, target);
        // Bottom right corner
        var p6 := DrawSprite(SliceRegion(rect, b, 6), SliceRegion(uvRect, b, 6), depth, color, tint, clip, target);
        // Bottom panel
        var p7 := DrawSprite(SliceRegion(rect, b, 7), SliceRegion(uvRect, b, 7), depth, color, tint, clip, target);
        // Center
        var p8 := DrawSprite(SliceRegion(rect, b, 8), SliceRegion(uvRect, b, 8), depth, color, tint, clip, target);
        SliceSpritesInOrder(rect, style.value, depth, tint, clip, target);
        Flatten9(p0, p1, p2, p3, p4, p5, p6, p7, p8);
        p0 + p1 + p2 + p3 + p4 + p5 + p6 + p7 + p8
  }

  /** The 3-by-3 grid a border cuts a rectangle into: column lines at the
      left edge, `left` in, `right` in from the far edge and the far edge,
      row lines likewise with `bottom` and `top`. */
  function SliceCell(r: Rect, b: Border, col: nat, row: nat): Rect
    requires col < 3 && row < 3
  {
    var xs := [r.x, r.x + b.left, r.x + r.width - b.right, r.x + r.width];
    var ys := [r.y, r.y + b.bottom, r.y + r.height - b.top, r.y + r.height];
    Rect(xs[col], ys[row], xs[col + 1] - xs[col], ys[row + 1] - ys[row])
  }

  /** The grid cell of each region, in drawing order. */
  const SliceOrder: seq<(nat, nat)> := [(0, 0), (0, 1), (0, 2), (1, 2), (2, 2), (2, 1), (2, 0), (1, 0), (1, 1)]

  /** The drawing order visits every cell of the grid exactly once. */
  lemma SliceOrderCoversGrid()
    ensures |SliceOrder| == 9
    ensures forall i, j :: 0 <= i < j < 9 ==> SliceOrder[i] != SliceOrder[j]
    ensures forall col: nat, row: nat :: col < 3 && row < 3 ==> (col, row) in SliceOrder
  {
    forall col: nat, row: nat | col < 3 && row < 3
      ensures (col, row) in SliceOrder
    {
      if col == 0 {
        assert SliceOrder[row] == (col, row);
      } else if col == 1 {
        assert SliceOrder[if row == 0 then 7 else if row == 1 then 8 else 3] == (col, row);
      } else {
        assert SliceOrder[6 - row] == (col, row);
      }
    }
  }

  /** With `horizontal = left + right` and `vertical = top + bottom`, each
      region drawn is the grid cell the drawing order names. */
  lemma SliceRegionsAreGridCells(r: Rect, b: Border, k: nat)
    requires b.Consistent() && k < 9
    ensures SliceOrder[k].0 < 3 && SliceOrder[k].1 < 3
    ensures SliceRegion(r, b, k) == SliceCell(r, b, SliceOrder[k].0, SliceOrder[k].1)
  {
  }

  /** The grid's cells tile the rectangle: the outer cells start and end at
      its edges, and neighbouring cells share an edge. */
  lemma SliceCellsTile(r: Rect, b: Border)
    ensures forall row: nat :: row < 3 ==> SliceCell(r, b, 0, row).XMin() == r.XMin() && SliceCell(r, b, 2, row).XMax() == r.XMax()
    ensures forall col: nat :: col < 3 ==> SliceCell(r, b, col, 0).YMin() == r.YMin() && SliceCell(r, b, col, 2).YMax() == r.YMax()
    ensures forall col: nat, row: nat :: col < 2 && row < 3 ==> SliceCell(r, b, col, row).XMax() == SliceCell(r, b, col + 1, row).XMin()
    ensures forall col: nat, row: nat :: col < 3 && row < 2 ==> SliceCell(r, b, col, row).YMax() == SliceCell(r, b, col, row + 1).YMin()
  {
  }

  /** A sliced sprite draws at most nine quads. */
  lemma SlicedDrawCount(rect: Rect, style: Option<SpriteStyle>, depth: real, tint: Color,
                        clip: Option<Rect>, target: Target)
    requires target.Textured()
    ensures DrawCount(DrawSlicedSprite(rect, style, depth, tint, clip, target)) <= 9
  {
    if style.Some? {
      if style.value.border.IsZero() {
      } else {
        FlattenDrawCount(SliceSprites(rect, style.value, depth, tint, clip, target), rect, style.value, depth, tint, clip, target);
      }
    }
  }

  lemma {:induction false} FlattenDrawCount(parts: seq<seq<Command>>, rect: Rect, style: SpriteStyle, depth: real,
                                            tint: Color, clip: Option<Rect>, target: Target)
    requires target.Textured()
    requires |parts| <= 9 && forall i :: 0 <= i < |parts| ==> parts[i] == SliceSprite(rect, style, depth, tint, clip, target, i)
    ensures DrawCount(Flatten(parts)) <= |parts|
    decreases |parts|
  {
    if parts != [] {
      var n := |parts| - 1;
      FlattenDrawCount(parts[..n], rect, style, depth, tint, clip, target);
      DrawCountAppend(Flatten(parts[..n]), parts[n]);
    }
  }

  /** How many tiles region `k` of a tiled sliced sprite is drawn with: the
      side panels repeat vertically, the top and bottom panels horizontally,
      the center both ways. Corners are drawn untiled. */
  function SliceTiles(k: nat, tileX: real, tileY: real): (real, real)
  {
    if k == 1 || k == 5 then (1.0, tileY)
    else if k == 3 || k == 7 then (tileX, 1.0)
    else (tileX, tileY)
  }

  predicate IsCorner(k: nat) { k == 0 || k == 2 || k == 4 || k == 6 }

  /** The commands drawn for region `k` of a tiled sliced sprite. */
  function TiledSliceSprite(rect: Rect, style: SpriteStyle, depth: real, tint: Color, tileX: real, tileY: real,
                            clip: Option<Rect>, target: Target, k: nat): seq<Command>
    requires target.Textured() && k < 9
  {
    var region := SliceRegion(rect, style.border, k);
    var uv := SliceRegion(style.coordinates, style.border, k);
    if IsCorner(k) then DrawSprite(region, uv, depth, style.color, tint, clip, target)
    else TiledCommands(region, uv, depth, style.color, tint, SliceTiles(k, tileX, tileY).0, SliceTiles(k, tileX, tileY).1, clip, target)
  }

  /** The nine tiled region streams of a sliced sprite, in drawing order. */
  function TiledSliceSprites(rect: Rect, style: SpriteStyle, depth: real, tint: Color, tileX: real, tileY: real,
                             clip: Option<Rect>, target: Target): seq<seq<Command>>
    requires target.Textured()
  {
    [TiledSliceSprite(rect, style, depth, tint, tileX, tileY, clip, target, 0),
     TiledSliceSprite(rect, style, depth, tint, tileX, tileY, clip, target, 1),
     TiledSliceSprite(rect, style, depth, tint, tileX, tileY, clip, target, 2),
     TiledSliceSprite(rect, style, depth, tint, tileX, tileY, clip, target, 3),
     TiledSliceSprite(rect, style, depth, tint, tileX, tileY, clip, target, 4),
     TiledSliceSprite(rect, style, depth, tint, tileX, tileY, clip, target, 5),
     TiledSliceSprite(rect, style, depth, tint, tileX, tileY, clip, target, 6),
     TiledSliceSprite(rect, style, depth, tint, tileX, tileY, clip, target, 7),
     TiledSliceSprite(rect, style, depth, tint, tileX, tileY, clip, target, 8)]
  }

  /** What the seven-argument `DrawTiledSlicedSprite` draws. */
  function TiledSlicedCommands(rect: Rect, style: SpriteStyle, depth: real, tint: Color, tileX: real, tileY: real,
                               clip: Option<Rect>, target: Target): seq<Command>
    requires target.Textured()
  {
    if style.border.IsZero() then DrawSprite(rect, style.coordinates, depth, style.color, tint, clip, target)
    else Flatten(TiledSliceSprites(rect, style, depth, tint, tileX, tileY, clip, target))
  }

  /** The seven-argument `DrawTiledSlicedSprite`: the plain sprite when no
      border is set, and otherwise the four corners as sprites and the five
      panels as tiled sprites, in the sliced sprite's order. */
  method DrawTiledSlicedSprite(rect: Rect, style: SpriteStyle, depth: real, tint: Color, tileX: real, tileY: real,
                               clip: Option<Rect>, target: Target) returns (cmds: seq<Command>)
    requires target.Textured()
    ensures cmds == TiledSlicedCommands(rect, style, depth, tint, tileX, tileY, clip, target)
  {
    var uvRect := style.coordinates;
    var b := style.border;
    var color := style.color;
    if b.left == 0.0 && b.right == 0.0 && b.top == 0.0 && b.bottom == 0.0 {
      cmds := DrawSprite(rect, uvRect, depth, color, tint, clip, target);
    } else {
      // Bottom left corner
      var p0 := DrawSprite(SliceRegion(rect, b, 0), SliceRegion(uvRect, b, 0), depth, color, tint, clip, target);
      // Left panel
      var p1 := DrawTiledSprite(SliceRegion(rect, b, 1), SliceRegion(uvRect, b, 1), depth, color, tint, 1.0, tileY, clip, target);
      // Top left corner
      var p2 := DrawSprite(SliceRegion(rect, b, 2), SliceRegion(uvRect, b, 2), depth, color, tint, clip, target);
      // Top panel
      var p3 := DrawTiledSprite(SliceRegion(rect, b, 3), SliceRegion(uvRect, b, 3), depth, color, tint, tileX, 1.0, clip, target);
      // Top right corner
      var p4 := DrawSprite(SliceRegion(rect, b, 4), SliceRegion(uvRect, b, 4), depth, color, tint, clip, target);
      // Right panel
      var p5 := DrawTiledSprite(SliceRegion(rect, b, 5), SliceRegion(uvRect, b, 5), depth, color, tint, 1.0, tileY, clip, target);
      // Bottom right corner
      var p6 := DrawSprite(SliceRegion(rect, b, 6), SliceRegion(uvRect, b, 6), depth, color, tint, clip, target);
      // Bottom panel
      var p7 := DrawTiledSprite(SliceRegion(rect, b, 7), SliceRegion(uvRect, b, 7), depth, color, tint, tileX, 1.0, clip, target);
      // Center
      var p8 := DrawTiledSprite(SliceRegion(rect, b, 8), SliceRegion(uvRect, b, 8), depth, color, tint, tileX, tileY, clip, target);
      Flatten9(p0, p1, p2, p3, p4, p5, p6, p7, p8);
      cmds := p0 + p1 + p2 + p3 + p4 + p5 + p6 + p7 + p8;
    }
  }

  /** For every clip rectangle, the plain sliced sprite is the tiled sliced
      sprite with one tile per panel. */
  lemma SlicedIsOneTileTiledSliced(rect: Rect, style: SpriteStyle, depth: real, tint: Color, clip: Option<Rect>,
                                   target: Target)
    requires target.Textured()
    ensures DrawSlicedSprite(rect, Some(style), depth, tint, clip, target)
            == TiledSlicedCommands(rect, style, depth, tint, 1.0, 1.0, clip, target)
  {
    if !style.border.IsZero() {
      forall k | 0 <= k < 9
        ensures TiledSliceSprite(rect, style, depth, tint, 1.0, 1.0, clip, target, k)
                == SliceSprite(rect, style, depth, tint, clip, target, k)
      {
        SingleTileIsSprite(SliceRegion(rect, style.border, k), SliceRegion(style.coordinates, style.border, k),
                           depth, style.color, tint, clip, target);
      }
      SliceSpritesInOrder(rect, style, depth, tint, clip, target);
      assert TiledSliceSprites(rect, style, depth, tint, 1.0, 1.0, clip, target)
             == SliceSprites(rect, style, depth, tint, clip, target);
    }
  }

  /** The six-argument `DrawTiledSlicedSprite`. It passes no clip rectangle
      and forwards to `DrawSlicedSprite`, so whatever tile counts it is
      given it draws the tiled sliced sprite with one tile per panel, and
      nothing for a missing style. */
  function DrawTiledSlicedSpriteUnclipped(rect: Rect, style: Option<SpriteStyle>, depth: real, tint: Color,
                                          tileX: real, tileY: real, target: Target): (cmds: seq<Command>)
    requires target.Textured()
    ensures style.None? ==> cmds == []
    ensures style.Some? ==> cmds == TiledSlicedCommands(rect, style.value, depth, tint, 1.0, 1.0, None, target)
  {
    if style.Some? then
      SlicedIsOneTileTiledSliced(rect, style.value, depth, tint, None, target);
      DrawSlicedSprite(rect, style, depth, tint, None, target)
    else
      DrawSlicedSprite(rect, style, depth, tint, None, target)
  }
}
