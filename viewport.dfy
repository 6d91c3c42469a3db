/** The camera and the two drawing surfaces a renderer's `_resize` adjusts:
    the WebGL renderer and the post-processing composer. */
module Viewport {
  import opened Js
  import opened RealArith

  /** A width and a height in CSS pixels. */
  datatype Size = Size(w: real, h: real)

  /** The scene camera: a perspective camera keeps an aspect ratio, an
      orthographic one its four clipping planes. */
  datatype Camera =
    | Perspective(aspect: Number)
    | Orthographic(left: real, right: real, top: real, bottom: real)

  /** The orthographic clipping planes for a `w` by `h` surface. */
  function OrthoBounds(w: real, h: real): (c: Camera)
    ensures c.Orthographic?
    ensures c.right - c.left == w && c.top - c.bottom == h
    ensures c.left + c.right == 0.0 && c.top + c.bottom == 0.0
  {
    Orthographic(w / -2.0, w / 2.0, h / 2.0, h / -2.0)
  }

  /** One side of the skin renderer's composer: the side divided by the pixel
      ratio and rounded down, or 1 when that rounds to 0 (`|| 1`). */
  function ComposerSide(d: real, pixelRatio: real): (r: int)
    requires pixelRatio > 0.0
    ensures r != 0
    ensures d >= 0.0 ==> r >= 1
  {
    var f := (d / pixelRatio).Floor;
    if f == 0 then 1 else f
  }

  /** A side of at least one pixel ratio yields the largest whole number of
      device pixels that fit in it. */
  lemma ComposerSideFits(d: real, pixelRatio: real)
    requires pixelRatio > 0.0 && d >= pixelRatio
    ensures ComposerSide(d, pixelRatio) >= 1
    ensures Times(ComposerSide(d, pixelRatio), pixelRatio) <= d
    ensures d < Times(ComposerSide(d, pixelRatio), pixelRatio) + pixelRatio
  {
    QuotientSign(d, pixelRatio);
    var k := Quotient(d, pixelRatio);
    assert k == (d / pixelRatio).Floor;
    TimesGrows(k, pixelRatio);
  }

  /** A side smaller than the pixel ratio (but not negative) still gets a
      one-pixel composer. */
  lemma TinySideGetsOnePixel(d: real, pixelRatio: real)
    requires pixelRatio > 0.0 && 0.0 <= d < pixelRatio
    ensures ComposerSide(d, pixelRatio) == 1
  {
    QuotientBelowOne(d, pixelRatio);
  }

  /** The camera and the surfaces of one renderer. */
  class Viewport {
    var camera: Camera
    var rendererSize: Size
    var composerSize: Size

    constructor(camera: Camera, size: Size)
      ensures this.camera == camera && rendererSize == size && composerSize == size
    {
      this.camera := camera;
      rendererSize := size;
      composerSize := size;
    }

    /** The base renderer's `_resize`: an orthographic camera is re-centred
        on the new size, a perspective camera takes its aspect ratio; the
        renderer and the composer both take the new size. */
    method Resize(w: real, h: real)
      modifies this
      ensures old(camera).Orthographic? ==> camera == OrthoBounds(w, h)
      ensures old(camera).Perspective? ==> camera == Perspective(Div(w, h))
      ensures rendererSize == Size(w, h) && composerSize == Size(w, h)
    {
      if camera.Orthographic? {
        camera := OrthoBounds(w, h);
      } else {
        camera := Perspective(Div(w, h));
      }
      rendererSize := Size(w, h);
      composerSize := Size(w, h);
    }

    /** The skin renderer's `_resize`: the camera takes the aspect ratio and
        the renderer the new size; the composer, which only exists with
        post-processing, takes the size divided by the pixel ratio. */
    method ResizeSkin(w: real, h: real, postprocessing: bool, pixelRatio: real)
      requires pixelRatio > 0.0
      modifies this
      ensures camera == Perspective(Div(w, h)) && rendererSize == Size(w, h)
      ensures postprocessing ==>
        composerSize == Size(ComposerSide(w, pixelRatio) as real, ComposerSide(h, pixelRatio) as real)
      ensures !postprocessing ==> composerSize == old(composerSize)
    {
      camera := Perspective(Div(w, h));
      rendererSize := Size(w, h);
      if postprocessing {
        var newWidth := ComposerSide(w, pixelRatio);
        var newHeight := ComposerSide(h, pixelRatio);
        composerSize := Size(newWidth as real, newHeight as real);
      }
    }
  }
}
