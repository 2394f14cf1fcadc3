/** The displayed image as the pipelines see it (Appframe/image.h): a size and
    the last pixel words handed to it. The GPU upload behind it is not
    modelled. */
module Images {

  class Image {
    var width: nat
    var height: nat
    /** The pixels last published with `setData`; empty until then and after
        a reallocation. */
    var pixels: seq<bv32>

    constructor (width: nat, height: nat)
      ensures this.width == width && this.height == height && pixels == []
    {
      this.width := width;
      this.height := height;
      pixels := [];
    }

    /** `resize`: a new size drops the published pixels; the same size keeps
        everything. */
    method Resize(newWidth: nat, newHeight: nat)
      modifies this
      ensures width == newWidth && height == newHeight
      ensures old(width) == newWidth && old(height) == newHeight ==> pixels == old(pixels)
      ensures old(width) != newWidth || old(height) != newHeight ==> pixels == []
    {
      if width == newWidth && height == newHeight {
        return;
      }
      width, height := newWidth, newHeight;
      pixels := [];
    }

    /** `setData`: publishes one word per pixel. */
    method SetData(data: seq<bv32>)
      requires |data| == width * height
      modifies this`pixels
      ensures pixels == data
    {
      pixels := data;
    }
  }
}
