/** Vertex data of the renderer: colours, the interleaved attribute layout that
    `Graphics::new` binds, and the 36 floats that `draw_rect` records for one
    rectangle. Floats are modelled as reals. */
module Vertex {

  /** An RGBA colour. */
  datatype Color = Color(r: real, g: real, b: real, a: real)

  /** `Color::WHITE`, the paint colour of a fresh scope. */
  const WHITE := Color(1.0, 1.0, 1.0, 1.0)

  /** Size in bytes of one f32. */
  const FLOAT_BYTES := 4

  /** Floats in one vertex record: x, y, r, g, b, a. */
  const RECORD_FLOATS := 6

  /** Vertex records in one rectangle: two triangles. */
  const RECT_RECORDS := 6

  /** Floats in one rectangle command. */
  const RECT_FLOATS := RECT_RECORDS * RECORD_FLOATS

  /** The arguments of one `glVertexAttribPointer` call: attribute slot,
      number of floats, stride and offset in bytes. */
  datatype AttribPointer = AttribPointer(index: nat, size: nat, strideBytes: nat, offsetBytes: nat)

  /** Slot 0: the position, two floats at the start of each record. */
  const POSITION_ATTRIB := AttribPointer(0, 2, 6 * FLOAT_BYTES, 0)

  /** Slot 1: the colour, four floats after the position. */
  const COLOR_ATTRIB := AttribPointer(1, 4, 6 * FLOAT_BYTES, 2 * FLOAT_BYTES)

  /** Index of the first float the GPU reads for attribute `a` of vertex `k`. */
  function AttribStart(a: AttribPointer, k: nat): nat
  {
    k * (a.strideBytes / FLOAT_BYTES) + a.offsetBytes / FLOAT_BYTES
  }

  /** The floats the GPU reads for attribute `a` of vertex `k` of a buffer. */
  function Attribute(verts: seq<real>, a: AttribPointer, k: nat): (r: seq<real>)
    requires AttribStart(a, k) + a.size <= |verts|
    ensures |r| == a.size
  {
    verts[AttribStart(a, k)..AttribStart(a, k) + a.size]
  }

  /** One interleaved vertex record. */
  function Record(p: (real, real), c: Color): seq<real>
  {
    [p.0, p.1, c.r, c.g, c.b, c.a]
  }

  /** Twice the signed area of triangle (p, q, s); its sign is the winding. */
  function Cross(p: (real, real), q: (real, real), s: (real, real)): real
  {
    (q.0 - p.0) * (s.1 - p.1) - (q.1 - p.1) * (s.0 - p.0)
  }

  /** The six corners `draw_rect` emits for the box [x, x+width] x [y, y+height]:
      two triangles that share the diagonal from (x, y+height) to (x+width, y). */
  function Corners(x: real, y: real, width: real, height: real): (r: seq<(real, real)>)
    ensures |r| == RECT_RECORDS
    // every corner is a corner of the box, and every box corner is used
    ensures forall k :: 0 <= k < |r| ==>
              (r[k].0 == x || r[k].0 == x + width) && (r[k].1 == y || r[k].1 == y + height)
    ensures (x, y) in r && (x + width, y) in r && (x, y + height) in r && (x + width, y + height) in r
    // the two triangles share an edge and lie on opposite sides of it
    ensures r[1] == r[4] && r[2] == r[3]
    ensures r[0] == (x, y) && r[5] == (x + width, y + height)
    // both triangles have the same winding and each covers half of the box
    ensures Cross(r[0], r[1], r[2]) == Cross(r[3], r[4], r[5]) == -(width * height)
  {
    [(x, y), (x, y + height), (x + width, y), (x + width, y), (x, y + height), (x + width, y + height)]
  }

  /** The records of a run of vertices that share one colour, end to end. */
  function Records(ps: seq<(real, real)>, c: Color): (r: seq<real>)
    ensures |r| == RECORD_FLOATS * |ps|
  {
    if ps == [] then [] else Records(ps[..|ps| - 1], c) + Record(ps[|ps| - 1], c)
  }

  /** Vertex `k` of a run occupies floats 6k .. 6k+6. */
  lemma {:induction false} RecordsAt(ps: seq<(real, real)>, c: Color, k: nat)
    requires k < |ps|
    ensures Records(ps, c)[RECORD_FLOATS * k..RECORD_FLOATS * (k + 1)] == Record(ps[k], c)
  {
    var pre := ps[..|ps| - 1];
    if k < |ps| - 1 {
      RecordsAt(pre, c, k);
      assert pre[k] == ps[k];
      assert Records(ps, c)[..RECORD_FLOATS * |pre|] == Records(pre, c);
    }
  }

  /** The 36 floats of one rectangle in colour `c`. */
  function RectVerts(x: real, y: real, width: real, height: real, c: Color): (r: seq<real>)
    ensures |r| == RECT_FLOATS
  {
    Records(Corners(x, y, width, height), c)
  }

  /** The layout bound at setup reads back what `draw_rect` wrote: vertex `k` of a
      rectangle has corner `k` as its position and the paint colour as its
      colour, and the two attributes together cover the whole record. */
  lemma RectLayout(x: real, y: real, width: real, height: real, c: Color, k: nat)
    requires k < RECT_RECORDS
    ensures Attribute(RectVerts(x, y, width, height, c), POSITION_ATTRIB, k)
            == [Corners(x, y, width, height)[k].0, Corners(x, y, width, height)[k].1]
    ensures Attribute(RectVerts(x, y, width, height, c), COLOR_ATTRIB, k) == [c.r, c.g, c.b, c.a]
    ensures RectVerts(x, y, width, height, c)[RECORD_FLOATS * k..RECORD_FLOATS * (k + 1)]
            == Attribute(RectVerts(x, y, width, height, c), POSITION_ATTRIB, k)
               + Attribute(RectVerts(x, y, width, height, c), COLOR_ATTRIB, k)
  {
    var v := RectVerts(x, y, width, height, c);
    var p := Corners(x, y, width, height)[k];
    var rec := Record(p, c);
    var lo := RECORD_FLOATS * k;
    RecordsAt(Corners(x, y, width, height), c, k);
    assert v[lo..lo + RECORD_FLOATS] == rec;
    assert AttribStart(POSITION_ATTRIB, k) == lo;
    assert AttribStart(COLOR_ATTRIB, k) == lo + 2;
    assert Attribute(v, POSITION_ATTRIB, k) == v[lo..lo + 2];
    assert v[lo..lo + 2] == rec[..2];
    assert Attribute(v, COLOR_ATTRIB, k) == v[lo + 2..lo + RECORD_FLOATS];
    assert v[lo + 2..lo + RECORD_FLOATS] == rec[2..];
  }
}
