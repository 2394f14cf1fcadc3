/** The buffers of the older Eigen pipeline (src/Renderer.h, src/FrameBuf.cpp):
    a generic per-pixel buffer, an RGBA byte frame, and the standalone frame
    of bytes and depths. All of them address pixel (x, y) with the rows
    flipped, so row 0 is stored last. */
module LegacyBuffers {
  import opened LinAlg
  import Grid

  /** `(height - y - 1) * width + x`. For an in-range pixel it lands inside
      the buffer, its column is x and its row is height - 1 - y, so row 0 is
      the last stored row. */
  function FlippedIndex(width: int, height: int, x: int, y: int): (r: int)
    ensures 0 <= x < width && 0 <= y < height ==>
      0 <= r < width * height && r % width == x && r / width == height - 1 - y
  {
    if 0 <= x < width && 0 <= y < height then
      Grid.IndexInRange(x, height - 1 - y, width, height);
      Grid.IndexDecompose(x, height - 1 - y, width);
      assert (height - y - 1) * width + x == x + (height - 1 - y) * width;
      (height - y - 1) * width + x
    else
      (height - y - 1) * width + x
  }

  /** Distinct in-range pixels have distinct flipped indices. */
  lemma FlippedIndexInjective(width: int, height: int, x1: int, y1: int, x2: int, y2: int)
    requires 0 <= x1 < width && 0 <= y1 < height && 0 <= x2 < width && 0 <= y2 < height
    requires FlippedIndex(width, height, x1, y1) == FlippedIndex(width, height, x2, y2)
    ensures x1 == x2 && y1 == y2
  {
    var r := FlippedIndex(width, height, x1, y1);
    assert height - 1 - y1 == r / width == height - 1 - y2;
  }

  /** Every index of a buffer is the flipped index of exactly one pixel. */
  lemma FlippedIndexOnto(width: int, height: int, i: int)
    requires 0 < width && 0 <= i < width * height
    ensures 0 <= i % width < width && 0 <= height - 1 - i / width < height
    ensures FlippedIndex(width, height, i % width, height - 1 - i / width) == i
  {
    Grid.IndexSplit(i, width, height);
  }

  /** `Buffer<T>`: one element per pixel. */
  class Buffer<T> {
    var buf: seq<T>
    var width: int
    var height: int

    /** `Buffer(w, h)`: w * h elements, each the value the element type
        starts with (`init`). */
    constructor (w: nat, h: nat, init: T)
      ensures width == w && height == h
      ensures |buf| == w * h && forall k :: 0 <= k < |buf| ==> buf[k] == init
    {
      width, height := w, h;
      buf := seq(w * h, _ => init);
    }

    /** `reset(value)`: every element becomes `value`, the length stays. */
    method Reset(value: T)
      modifies this`buf
      ensures |buf| == |old(buf)| && forall k :: 0 <= k < |buf| ==> buf[k] == value
    {
      var i := 0;
      while i < |buf|
        invariant 0 <= i <= |buf| == |old(buf)|
        invariant forall k :: 0 <= k < i ==> buf[k] == value
      {
        buf := buf[i := value];
        i := i + 1;
      }
    }

    function GetIndex(i: int, j: int): int
      reads this`width, this`height
    {
      FlippedIndex(width, height, i, j)
    }
  }

  /** `FrameBuffer`: four bytes per pixel. */
  class FrameBuffer {
    var buf: seq<bv8>
    var width: int
    var height: int

    predicate Zeroed()
      reads this`buf
    {
      forall k :: 0 <= k < |buf| ==> buf[k] == 0
    }

    /** `FrameBuffer(w, h)`: 4 * w * h zero bytes. */
    constructor (w: nat, h: nat)
      ensures width == w && height == h && |buf| == w * h * 4 && Zeroed()
    {
      width, height := w, h;
      buf := seq(w * h * 4, _ => 0);
    }

    /** `reset`: every byte becomes zero, the length stays. */
    method Reset()
      modifies this`buf
      ensures |buf| == |old(buf)| && Zeroed()
    {
      var i := 0;
      while i < |buf|
        invariant 0 <= i <= |buf| == |old(buf)|
        invariant forall k :: 0 <= k < i ==> buf[k] == 0
      {
        buf := buf[i := 0];
        i := i + 1;
      }
    }
  }

  /** `FrameBuf`: an RGBA byte frame and a depth buffer in which larger is
      nearer, so it starts at the lowest float. */
  class FrameBuf {
    var width: int
    var height: int
    var frameBuf: seq<bv8>
    var depthBuf: seq<real>

    /** The state the constructor makes and `reset` restores: 4 * w * h zero
        bytes and w * h lowest depths. */
    predicate Cleared()
      reads this
    {
      && |frameBuf| == width * height * 4 && |depthBuf| == width * height
      && (forall k :: 0 <= k < |frameBuf| ==> frameBuf[k] == 0)
      && (forall k :: 0 <= k < |depthBuf| ==> depthBuf[k] == FloatLowest)
    }

    constructor (width: nat, height: nat)
      ensures this.width == width && this.height == height && Cleared()
    {
      this.width, this.height := width, height;
      frameBuf := seq(width * height * 4, _ => 0);
      depthBuf := seq(width * height, _ => FloatLowest);
    }

    /** `reset`: both fills again; lengths and size are unchanged. */
    method Reset()
      requires |frameBuf| == width * height * 4 && |depthBuf| == width * height
      modifies this`frameBuf, this`depthBuf
      ensures |frameBuf| == |old(frameBuf)| && |depthBuf| == |old(depthBuf)|
      ensures Cleared()
    {
      var i := 0;
      while i < |frameBuf|
        invariant 0 <= i <= |frameBuf| == |old(frameBuf)|
        invariant forall k :: 0 <= k < i ==> frameBuf[k] == 0
        invariant depthBuf == old(depthBuf)
      {
        frameBuf := frameBuf[i := 0];
        i := i + 1;
      }
      i := 0;
      while i < |depthBuf|
        invariant 0 <= i <= |depthBuf| == |old(depthBuf)|
        invariant forall k :: 0 <= k < i ==> depthBuf[k] == FloatLowest
        invariant |frameBuf| == |old(frameBuf)| && forall k :: 0 <= k < |frameBuf| ==> frameBuf[k] == 0
      {
        depthBuf := depthBuf[i := FloatLowest];
        i := i + 1;
      }
    }

    /** `get_index`: the flipped row-major index of pixel (x, y). */
    function GetIndex(x: int, y: int): (r: int)
      reads this`width, this`height
      ensures 0 <= x < width && 0 <= y < height ==>
        0 <= r < width * height && r % width == x && r / width == height - 1 - y
    {
      FlippedIndex(width, height, x, y)
    }
  }
}
