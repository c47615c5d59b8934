/** Plane geometry, colours and the stream of rendering commands that the
    label and sprite drawing code appends to. All coordinates are exact
    reals; the original works in single-precision floats. */
module Geometry {

  datatype Option<T> = None | Some(value: T)

  datatype Vec2 = Vec2(x: real, y: real)

  /** A Unity `Rect`: the corner with the smallest coordinates plus a size.
      A negative size is allowed; then XMax() < XMin(). */
  datatype Rect = Rect(x: real, y: real, width: real, height: real) {
    function XMin(): real { x }
    function XMax(): real { x + width }
    function YMin(): real { y }
    function YMax(): real { y + height }
  }

  datatype Color = Color(r: real, g: real, b: real, a: real)

  const White := Color(1.0, 1.0, 1.0, 1.0)

  /** A colour multiplied channel by channel with a tint. */
  function Tinted(c: Color, tint: Color): Color
  {
    Color(c.r * tint.r, c.g * tint.g, c.b * tint.b, c.a * tint.a)
  }

  /** One textured quad as the code emits it: four `GL.TexCoord2`/`GL.Vertex3`
      pairs in the order (left, bottom, uv0), (left, top, uv1),
      (right, top, uv2), (right, bottom, uv3), all at the same depth. */
  datatype Quad = Quad(left: real, right: real, bottom: real, top: real, depth: real,
                       uv0: Vec2, uv1: Vec2, uv2: Vec2, uv3: Vec2)

  /** The immediate-mode stream: `GL.Color` calls and emitted quads. */
  datatype Command = SetColor(color: Color) | Draw(quad: Quad)

  /** The cheap viewport reject shared by labels and sprites. */
  predicate OffScreen(rect: Rect, screen: Vec2)
  {
    rect.XMin() > screen.x || rect.XMax() < 0.0 || rect.YMax() < 0.0 || rect.YMin() > screen.y
  }

  /** The reject against a clipping widget's draw rectangle. */
  predicate OutsideClip(rect: Rect, clip: Rect)
  {
    rect.XMin() > clip.XMax() || rect.XMax() < clip.XMin() || rect.YMax() < clip.YMin() || rect.YMin() > clip.YMax()
  }

  /** A quad that lies inside `clip` and has positive extent on both axes. */
  predicate InsideStrict(q: Quad, clip: Rect)
  {
    clip.XMin() <= q.left < q.right <= clip.XMax() && clip.YMin() <= q.bottom < q.top <= clip.YMax()
  }

  function Min(a: real, b: real): real { if a <= b then a else b }

  function Max(a: real, b: real): real { if a <= b then b else a }

  /** The number of quads in a command stream. */
  function DrawCount(cmds: seq<Command>): nat
  {
    if cmds == [] then 0 else DrawCount(cmds[..|cmds| - 1]) + (if cmds[|cmds| - 1].Draw? then 1 else 0)
  }

  /** Concatenation of command streams, in order. */
  function Flatten(parts: seq<seq<Command>>): seq<Command>
  {
    if parts == [] then [] else Flatten(parts[..|parts| - 1]) + parts[|parts| - 1]
  }

  lemma DrawCountSingle(c: Command)
    ensures DrawCount([c]) == if c.Draw? then 1 else 0
  {
    assert [c][..0] == [];
  }

  lemma {:induction false} DrawCountAppend(a: seq<Command>, b: seq<Command>)
    ensures DrawCount(a + b) == DrawCount(a) + DrawCount(b)
    decreases |b|
  {
    if b == [] {
      assert a + b == a;
    } else {
      assert (a + b)[..|a + b| - 1] == a + b[..|b| - 1];
      DrawCountAppend(a, b[..|b| - 1]);
    }
  }

  /** The quad count of a three-command stream, command by command. */
  lemma DrawCountTriple(a: Command, b: Command, c: Command)
    ensures DrawCount([a, b, c]) == DrawCount([a]) + DrawCount([b]) + DrawCount([c])
    ensures DrawCount([a]) == (if a.Draw? then 1 else 0)
    ensures DrawCount([b]) == (if b.Draw? then 1 else 0)
    ensures DrawCount([c]) == (if c.Draw? then 1 else 0)
  {
    DrawCountSingle(a);
    DrawCountSingle(b);
    DrawCountSingle(c);
    DrawCountAppend([a], [b]);
    DrawCountAppend([a, b], [c]);
    assert [a] + [b] == [a, b];
    assert [a, b] + [c] == [a, b, c];
  }

  /** Bounds on the quad counts of two streams bound their concatenation. */
  lemma DrawCountConcatBound(a: seq<Command>, b: seq<Command>, m: int, n: int)
    requires DrawCount(a) <= m && DrawCount(b) <= n
    ensures DrawCount(a + b) <= m + n
  {
    DrawCountAppend(a, b);
  }

  lemma FlattenSnoc(parts: seq<seq<Command>>, p: seq<Command>)
    ensures Flatten(parts + [p]) == Flatten(parts) + p
  {
    assert (parts + [p])[..|parts|] == parts;
  }

  /** Nine command streams flattened are their concatenation in order. */
  lemma Flatten9(p0: seq<Command>, p1: seq<Command>, p2: seq<Command>, p3: seq<Command>, p4: seq<Command>,
                 p5: seq<Command>, p6: seq<Command>, p7: seq<Command>, p8: seq<Command>)
    ensures Flatten([p0, p1, p2, p3, p4, p5, p6, p7, p8]) == p0 + p1 + p2 + p3 + p4 + p5 + p6 + p7 + p8
  {
    FlattenSnoc([], p0);
    assert [] + p0 == p0;
    assert [] + [p0] == [p0];
    FlattenSnoc([p0], p1);
    assert [p0] + [p1] == [p0, p1];
    FlattenSnoc([p0, p1], p2);
    assert [p0, p1] + [p2] == [p0, p1, p2];
    FlattenSnoc([p0, p1, p2], p3);
    assert [p0, p1, p2] + [p3] == [p0, p1, p2, p3];
    FlattenSnoc([p0, p1, p2, p3], p4);
    assert [p0, p1, p2, p3] + [p4] == [p0, p1, p2, p3, p4];
    FlattenSnoc([p0, p1, p2, p3, p4], p5);
    assert [p0, p1, p2, p3, p4] + [p5] == [p0, p1, p2, p3, p4, p5];
    FlattenSnoc([p0, p1, p2, p3, p4, p5], p6);
    assert [p0, p1, p2, p3, p4, p5] + [p6] == [p0, p1, p2, p3, p4, p5, p6];
    FlattenSnoc([p0, p1, p2, p3, p4, p5, p6], p7);
    assert [p0, p1, p2, p3, p4, p5, p6] + [p7] == [p0, p1, p2, p3, p4, p5, p6, p7];
    FlattenSnoc([p0, p1, p2, p3, p4, p5, p6, p7], p8);
    assert [p0, p1, p2, p3, p4, p5, p6, p7] + [p8] == [p0, p1, p2, p3, p4, p5, p6, p7, p8];
  }
}
