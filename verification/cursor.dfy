/** The append-only writer over a flat float array (src/util/cursor.ts).

    The source's `Float32Cursor` is a class holding a `Float32Array` and a
    write offset.  Every cursor in the program wraps an array of its own, so
    the model threads the cursor through as a value (its `array` field is
    named `buffer` here, `array` being a Dafny keyword): each write returns the
    cursor it leaves behind.  The source performs no bounds check; writing
    past the end of a typed array is silently dropped in JavaScript, and the
    callers size their arrays so that it never happens.  Each write here
    therefore requires the room it needs, and the callers discharge it.
 */
module Cursor {
  import opened Vec2Math

  datatype Float32Cursor = Float32Cursor(buffer: seq<real>, offset: nat)

  /** `new Float32Array(n)`: n slots, all zero. */
  function Zeros(n: nat): (r: seq<real>)
    ensures |r| == n
    ensures forall i :: 0 <= i < |r| ==> r[i] == 0.0
  {
    seq(n, _ => 0.0)
  }

  /** Room for `k` more values. */
  predicate HasRoom(c: Float32Cursor, k: nat) {
    c.offset + k <= |c.buffer|
  }

  /** `after` is `before` with `vals` written at the old offset: the offset
      moved past them, those slots hold them in order, and no other slot
      changed. */
  predicate Appended(before: Float32Cursor, after: Float32Cursor, vals: seq<real>) {
    && |after.buffer| == |before.buffer|
    && after.offset == before.offset + |vals|
    && after.offset <= |after.buffer|
    && (forall j :: 0 <= j < |vals| ==> after.buffer[before.offset + j] == vals[j])
    && (forall i :: 0 <= i < before.offset ==> after.buffer[i] == before.buffer[i])
    && (forall i :: after.offset <= i < |after.buffer| ==> after.buffer[i] == before.buffer[i])
  }

  /** `new Float32Cursor(arr)`. */
  function New(arr: seq<real>): (c: Float32Cursor)
    ensures c.offset == 0 && c.buffer == arr
    ensures HasRoom(c, |arr|)
  {
    Float32Cursor(arr, 0)
  }

  /** `push`. */
  function Push(c: Float32Cursor, v: real): (r: Float32Cursor)
    requires HasRoom(c, 1)
    ensures Appended(c, r, [v])
  {
    Float32Cursor(c.buffer[c.offset := v], c.offset + 1)
  }

  /** `push2`: two pushes, `a` first. */
  function Push2(c: Float32Cursor, a: real, b: real): (r: Float32Cursor)
    requires HasRoom(c, 2)
    ensures Appended(c, r, [a, b])
  {
    Push(Push(c, a), b)
  }

  /** `vec2`: the x component is written before the y component. */
  function PushVec2(c: Float32Cursor, v: Vec2): (r: Float32Cursor)
    requires HasRoom(c, 2)
    ensures Appended(c, r, [v.x, v.y])
  {
    Push2(c, v.x, v.y)
  }

  /** `push3`: `push2(a, b)` followed by `push(c)`. */
  function Push3(c: Float32Cursor, a: real, b: real, v: real): (r: Float32Cursor)
    requires HasRoom(c, 3)
    ensures Appended(c, r, [a, b, v])
  {
    Push(Push2(c, a, b), v)
  }

  /** `restart`: rewinds to the start and keeps the contents. */
  function Restart(c: Float32Cursor): (r: Float32Cursor)
    ensures r.offset == 0 && r.buffer == c.buffer
    ensures HasRoom(r, |c.buffer|)
  {
    Float32Cursor(c.buffer, 0)
  }

  // ------------------------------------------------------------ properties

  /** Two writes in a row are one write of the concatenation. */
  lemma AppendedTrans(c0: Float32Cursor, c1: Float32Cursor, c2: Float32Cursor, u: seq<real>, w: seq<real>)
    requires Appended(c0, c1, u) && Appended(c1, c2, w)
    ensures Appended(c0, c2, u + w)
  {
    forall j | 0 <= j < |u + w|
      ensures c2.buffer[c0.offset + j] == (u + w)[j]
    {
      if j < |u| {
        assert c2.buffer[c0.offset + j] == c1.buffer[c0.offset + j];
      } else {
        assert c2.buffer[c1.offset + (j - |u|)] == w[j - |u|];
      }
    }
  }

  /** The six writes an occluder's generator makes through one cursor, one per
      vertex, are one write of their concatenation. */
  lemma SixWrites(
    c0: Float32Cursor, c1: Float32Cursor, c2: Float32Cursor, c3: Float32Cursor,
    c4: Float32Cursor, c5: Float32Cursor, c6: Float32Cursor,
    p0: seq<real>, p1: seq<real>, p2: seq<real>, p3: seq<real>, p4: seq<real>, p5: seq<real>)
    requires Appended(c0, c1, p0) && Appended(c1, c2, p1) && Appended(c2, c3, p2)
    requires Appended(c3, c4, p3) && Appended(c4, c5, p4) && Appended(c5, c6, p5)
    ensures Appended(c0, c6, p0 + p1 + p2 + p3 + p4 + p5)
  {
    AppendedTrans(c0, c1, c2, p0, p1);
    AppendedTrans(c0, c2, c3, p0 + p1, p2);
    AppendedTrans(c0, c3, c4, p0 + p1 + p2, p3);
    AppendedTrans(c0, c4, c5, p0 + p1 + p2 + p3, p4);
    AppendedTrans(c0, c5, c6, p0 + p1 + p2 + p3 + p4, p5);
  }

  /** A write is determined by where it starts and what it writes: the
      writer has no hidden state. */
  lemma AppendedDeterministic(c: Float32Cursor, r1: Float32Cursor, r2: Float32Cursor, vals: seq<real>)
    requires Appended(c, r1, vals) && Appended(c, r2, vals)
    ensures r1 == r2
  {
    assert |r1.buffer| == |r2.buffer|;
    forall i | 0 <= i < |r1.buffer|
      ensures r1.buffer[i] == r2.buffer[i]
    {
      if c.offset <= i < r1.offset {
        assert r1.buffer[c.offset + (i - c.offset)] == vals[i - c.offset];
        assert r2.buffer[c.offset + (i - c.offset)] == vals[i - c.offset];
      }
    }
  }

  /** Writing `vals` through a cursor leaves exactly the prefix that was
      already written followed by `vals` in front of the new offset. */
  lemma AppendedPrefix(before: Float32Cursor, after: Float32Cursor, vals: seq<real>)
    requires Appended(before, after, vals)
    requires before.offset <= |before.buffer|
    ensures after.buffer[..after.offset] == before.buffer[..before.offset] + vals
  {
    forall i | 0 <= i < after.offset
      ensures after.buffer[i] == (before.buffer[..before.offset] + vals)[i]
    {
      if i >= before.offset {
        assert after.buffer[before.offset + (i - before.offset)] == vals[i - before.offset];
      }
    }
  }

  /** Restarting and rewriting the same values gives back the same array. */
  lemma RestartRewrite(c: Float32Cursor, vals: seq<real>, r: Float32Cursor)
    requires c.offset == |vals| && c.offset <= |c.buffer|
    requires c.buffer[..c.offset] == vals
    requires Appended(Restart(c), r, vals)
    ensures r == c
  {
    assert forall j :: 0 <= j < |vals| ==> c.buffer[j] == vals[j];
    assert r.buffer == c.buffer;
  }
}
