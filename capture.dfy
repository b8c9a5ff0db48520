/** The off-screen capture widget (fbocapture.py): the thumbnail extent
    derived from the widget size, the fbo and rectangle sizes kept in step
    with it, and the widget's own child list. Fbo drawing and textures are
    Kivy code and are left out. */
module Capture {
  import opened Wrappers
  import opened Lists

  datatype CaptureError = ZeroDivision

  /** The thumbnail's long edge. */
  const ThumbEdge: int := 160

  function Max(a: real, b: real): real { if a >= b then a else b }

  /** The `thumb_size` rule of `on_size`: the long edge is 160, the short
      edge keeps the aspect ratio, both are at least 1 and truncated to
      integers. A zero height fails on `float(w) / h`, a zero ratio on
      `w / ratio`. */
  function ThumbExtent(w: real, h: real): Result<(int, int), CaptureError>
  {
    if h == 0.0 then Failure(ZeroDivision)
    else
      var ratio := w / h;
      if w > h then
        if ratio == 0.0 then Failure(ZeroDivision)
        else Success((ThumbEdge, Max(1.0, ThumbEdge as real / ratio).Floor))
      else Success((Max(1.0, ThumbEdge as real * ratio).Floor, ThumbEdge))
  }

  lemma ThumbExtentZeroHeight(w: real)
    ensures ThumbExtent(w, 0.0).Failure?
  {
  }

  /** For a real widget size the rule succeeds, the long edge is exactly
      160 and both edges lie between 1 and 160. */
  lemma ThumbExtentBounds(w: real, h: real)
    requires w >= 0.0 && h > 0.0
    ensures ThumbExtent(w, h).Success?
    ensures var (tw, th) := ThumbExtent(w, h).value;
      && 1 <= tw <= ThumbEdge && 1 <= th <= ThumbEdge
      && (w > h ==> tw == ThumbEdge)
      && (w <= h ==> th == ThumbEdge)
  {
    var ratio := w / h;
    assert ratio * h == w;
    if w > h {
      assert ratio > 1.0;
      var short := 160.0 / ratio;
      assert short * ratio == 160.0;
      assert short <= 160.0;
      assert Max(1.0, short) <= 160.0;
    } else {
      assert ratio <= 1.0;
      assert 160.0 * ratio <= 160.0;
    }
  }

  /** The short edge is the proportional length `160 * short / long`
      rounded down (but at least 1). */
  lemma ThumbExtentProportional(w: real, h: real)
    requires w > 0.0 && h > 0.0
    ensures var (tw, th) := ThumbExtent(w, h).value;
      && (w > h ==> th == Max(1.0, 160.0 * h / w).Floor)
      && (w <= h ==> tw == Max(1.0, 160.0 * w / h).Floor)
  {
    ThumbExtentBounds(w, h);
    var ratio := w / h;
    assert ratio * h == w;
    assert ratio > 0.0;
    if w > h {
      var short := 160.0 / ratio;
      assert short * ratio == 160.0;
      assert (160.0 * h / w) * w == 160.0 * h;
      assert short * w == 160.0 * h by {
        calc {
          short * w;
          == short * (ratio * h);
          == (short * ratio) * h;
          == 160.0 * h;
        }
      }
      assert short == 160.0 * h / w;
    } else {
      assert 160.0 * ratio == 160.0 * w / h;
    }
  }

  class FboCapture {
    var size: (real, real)
    var thumbSize: (int, int)
    var fboSize: (real, real)
    var fboRectSize: (real, real)
    var fboThumbSize: (int, int)
    var fboThumbRectSize: (int, int)
    var children: seq<object>

    /** The thumbnail fbo and its rectangle follow `thumb_size`. */
    ghost predicate Valid()
      reads this
    {
      fboThumbSize == thumbSize && fboThumbRectSize == thumbSize
    }

    /** `__init__`: fbos sized from the default widget size (100, 100) and
        the default `thumb_size` (50, 50). */
    constructor ()
      ensures Valid()
      ensures size == (100.0, 100.0) && fboSize == size && fboRectSize == size
      ensures thumbSize == (50, 50) && children == []
    {
      size := (100.0, 100.0);
      thumbSize := (50, 50);
      fboSize, fboRectSize := size, size;
      fboThumbSize, fboThumbRectSize := thumbSize, thumbSize;
      children := [];
    }

    /** A size change and its `on_size` handler, which Kivy fires only when
        the size really changes: recompute `thumb_size` (its property event
        runs `on_thumb_size` when the value changes) and resize the capture
        fbo and its rectangle. A failed division leaves everything but the
        size itself untouched. */
    method OnSize(w: real, h: real) returns (err: Option<CaptureError>)
      requires Valid()
      modifies this`size, this`thumbSize, this`fboSize, this`fboRectSize, this`fboThumbSize, this`fboThumbRectSize
      ensures Valid() && size == (w, h)
      ensures (w, h) == old(size) ==>
        err == None && thumbSize == old(thumbSize) && fboSize == old(fboSize) && fboRectSize == old(fboRectSize)
      ensures (w, h) != old(size) && ThumbExtent(w, h).Failure? ==>
        err == Some(ThumbExtent(w, h).error) && thumbSize == old(thumbSize) &&
        fboSize == old(fboSize) && fboRectSize == old(fboRectSize)
      ensures (w, h) != old(size) && ThumbExtent(w, h).Success? ==>
        err == None && thumbSize == ThumbExtent(w, h).value && fboSize == (w, h) && fboRectSize == (w, h)
    {
      if (w, h) == size {
        return None;
      }
      size := (w, h);
      var ext := ThumbExtent(w, h);
      if ext.Failure? {
        return Some(ext.error);
      }
      var previous := thumbSize;
      thumbSize := ext.value;
      if thumbSize != previous {
        OnThumbSize(thumbSize);
      }
      fboSize := (w, h);
      fboRectSize := (w, h);
      return None;
    }

    /** `on_thumb_size`: the thumbnail fbo and its rectangle take the size. */
    method OnThumbSize(value: (int, int))
      modifies this`fboThumbSize, this`fboThumbRectSize
      ensures fboThumbSize == value && fboThumbRectSize == value
    {
      fboThumbSize := value;
      fboThumbRectSize := value;
    }

    /** `add_widget`: the child goes in front. */
    method AddWidget(child: object)
      modifies this`children
      ensures children == [child] + old(children)
    {
      children := [child] + children;
    }

    /** `remove_widget`; `ok` is false where `list.remove` raises. */
    method RemoveWidget(child: object) returns (ok: bool)
      modifies this`children
      ensures ok == (child in old(children))
      ensures children == RemoveFirst(old(children), child)
    {
      ok := child in children;
      children := RemoveFirst(children, child);
    }
  }
}
