/** Slide thumbnails (presentation_slides.py): press dispatch, capture with
    the edit flag saved and restored, the download cache and its alpha strip.
    Fbo drawing, `glReadPixels` and texture uploads are Kivy and OpenGL code:
    the read-back RGBA bytes are a parameter, textures are described by
    where they came from. */
module Slides {
  import opened Wrappers
  import opened Touches
  import opened Controller

  newtype byte = x: int | 0 <= x < 256

  /** The slide's own fbo is created at 160 x 120. */
  const FboWidth: int := 160
  const FboHeight: int := 120

  /** `(width, height, raw RGB bytes)`. */
  datatype Thumb = Thumb(width: int, height: int, pixels: seq<byte>)

  datatype Texture =
    | NoTexture
      /** Uploaded from a stored RGB thumb. */
    | FromThumb(width: int, height: int, pixels: seq<byte>)
      /** The slide fbo's texture, drawn from the main capture. */
    | FromFbo

  /** `del tmp[3::4]`: drop every element whose index is 3 modulo 4. */
  function StripAlpha<T>(s: seq<T>): (r: seq<T>)
    ensures |r| == |s| - |s| / 4
  {
    if |s| < 4 then s else s[..3] + StripAlpha(s[4..])
  }

  /** Element `m` of the stripped buffer is element `m + m / 3` of the
      input: the alpha-free bytes, in order. */
  lemma {:induction false} StripAlphaAt<T>(s: seq<T>, m: nat)
    requires m < |StripAlpha(s)|
    ensures m + m / 3 < |s| && StripAlpha(s)[m] == s[m + m / 3]
  {
    if |s| >= 4 && m >= 3 {
      StripAlphaAt(s[4..], m - 3);
      assert (m - 3) / 3 == m / 3 - 1;
    }
  }

  /** For an RGBA buffer of `n` pixels: `3 n` bytes come out, and byte `j < 3`
      of pixel `k` is kept at `3 k + j`. */
  lemma StripAlphaPixels<T>(s: seq<T>, k: nat, j: nat)
    requires |s| % 4 == 0 && k < |s| / 4 && j < 3
    ensures |StripAlpha(s)| == 3 * (|s| / 4)
    ensures StripAlpha(s)[3 * k + j] == s[4 * k + j]
  {
    assert (3 * k + j) / 3 == k;
    StripAlphaAt(s, 3 * k + j);
  }

  /** Every byte that is not an alpha byte survives, at index `i - i / 4`. */
  lemma StripAlphaKeeps<T>(s: seq<T>, i: nat)
    requires i < |s| && i % 4 != 3
    ensures i - i / 4 < |StripAlpha(s)| && StripAlpha(s)[i - i / 4] == s[i]
  {
    var m := i - i / 4;
    assert m / 3 == i / 4;
    assert m < |s| - |s| / 4;
    StripAlphaAt(s, m);
  }

  /** The `thumb` keyword of the constructor: absent, or given (possibly None). */
  datatype ThumbArg = Absent | Given(thumb: Option<Thumb>)

  class Slide {
    var thumb: Option<Thumb>
    var texture: Texture
    var textureSize: (int, int)
    const ctrl: Controller

    /** `__init__` with a `thumb` keyword: a stored thumb is uploaded,
        otherwise the slide captures the current plane. */
    constructor (thumb: Option<Thumb>, ctrl: Controller)
      modifies ctrl`isEdit, ctrl`calls
      ensures this.ctrl == ctrl && ctrl.isEdit == old(ctrl.isEdit)
      ensures thumb.Some? ==>
        this.thumb == thumb && ctrl.calls == old(ctrl.calls) &&
        texture == FromThumb(thumb.value.width, thumb.value.height, thumb.value.pixels) &&
        textureSize == (thumb.value.width, thumb.value.height)
      ensures thumb.None? ==>
        this.thumb == None && texture == FromFbo && textureSize == (FboWidth, FboHeight) &&
        ctrl.calls == old(ctrl.calls) + [CaptureDrawn(false), SetDirty]
    {
      this.thumb := thumb;
      this.ctrl := ctrl;
      texture := NoTexture;
      textureSize := (0, 0);
      new;
      if this.thumb.Some? {
        UploadThumb();
      } else {
        UpdateCapture();
      }
    }

    /** `on_press`: a double tap removes the slide, any other press selects
        it; exactly one of the two calls is made. */
    method OnPress(touch: Touch)
      modifies ctrl`calls
      ensures ctrl.calls == old(ctrl.calls) + [if touch.isDoubleTap then RemoveSlide(this) else SelectSlide(this)]
    {
      if touch.isDoubleTap {
        ctrl.Record(RemoveSlide(this));
      } else {
        ctrl.Record(SelectSlide(this));
      }
    }

    /** `update_capture`: redraw the main capture with edit mode switched off,
        take its picture, restore edit mode, mark the document dirty and drop
        the stored thumb. */
    method UpdateCapture()
      modifies this`thumb, this`texture, this`textureSize, ctrl`isEdit, ctrl`calls
      ensures ctrl.isEdit == old(ctrl.isEdit)
      ensures ctrl.calls == old(ctrl.calls) + [CaptureDrawn(false), SetDirty]
      ensures thumb == None && texture == FromFbo && textureSize == (FboWidth, FboHeight)
    {
      var editMode := ctrl.isEdit;
      ctrl.isEdit := false;
      ctrl.Record(CaptureDrawn(ctrl.isEdit));
      texture := FromFbo;
      textureSize := (FboWidth, FboHeight);
      ctrl.isEdit := editMode;
      ctrl.Record(SetDirty);
      thumb := None;
    }

    /** `download_thumb`: only when no thumb is stored, read the slide fbo
        back (`rgba`) and keep it without alpha; a stored thumb is kept, so
        repeated calls change nothing. */
    method DownloadThumb(rgba: seq<byte>)
      modifies this`thumb
      ensures old(thumb).Some? ==> thumb == old(thumb)
      ensures old(thumb).None? ==> thumb == Some(Thumb(FboWidth, FboHeight, StripAlpha(rgba)))
    {
      if thumb.None? {
        thumb := Some(Thumb(FboWidth, FboHeight, StripAlpha(rgba)));
      }
    }

    /** `upload_thumb`: make the texture from the stored RGB thumb. */
    method UploadThumb()
      requires thumb.Some?
      modifies this`texture, this`textureSize
      ensures texture == FromThumb(thumb.value.width, thumb.value.height, thumb.value.pixels)
      ensures textureSize == (thumb.value.width, thumb.value.height)
    {
      var Thumb(w, h, pixels) := thumb.value;
      texture := FromThumb(w, h, pixels);
      textureSize := (w, h);
    }
  }

  /** Construction from keyword arguments: without a `thumb` keyword the
      constructor fails on `del kwargs['thumb']`. */
  method NewSlide(arg: ThumbArg, ctrl: Controller) returns (r: Option<Slide>)
    modifies ctrl`isEdit, ctrl`calls
    ensures arg.Absent? ==> r.None? && ctrl.calls == old(ctrl.calls)
    ensures arg.Given? ==> r.Some? && fresh(r.value) && r.value.ctrl == ctrl && r.value.thumb == arg.thumb
    ensures ctrl.isEdit == old(ctrl.isEdit)
  {
    if arg.Absent? {
      return None;
    }
    var s := new Slide(arg.thumb, ctrl);
    return Some(s);
  }
}
