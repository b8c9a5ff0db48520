/** Objects placed on the plane (presentation_objects.py): hit-testing in
    local coordinates, the touch handlers, drag-follow on a touch, dirty
    notification and the media auto-fit rule. Scatter's own handlers and
    transform math are Kivy code: their results are parameters. */
module Objects {
  import opened Wrappers
  import opened Touches
  import opened Controller

  datatype Kind = Text | Image | Video

  /** The closed box `[-w/2, w/2] x [-h/2, h/2]` around the local origin. */
  predicate InBox(p: Point, w: real, h: real)
  {
    -w / 2.0 <= p.x <= w / 2.0 && -h / 2.0 <= p.y <= h / 2.0
  }

  function Abs(x: real): real { if x < 0.0 then -x else x }

  /** The box test is the same as comparing each coordinate's distance from
      the centre with half the extent. */
  lemma InBoxByDistance(p: Point, w: real, h: real)
    ensures InBox(p, w, h) <==> 2.0 * Abs(p.x) <= w && 2.0 * Abs(p.y) <= h
  {
  }

  /** Hits are symmetric about the object's centre. */
  lemma InBoxSymmetric(p: Point, w: real, h: real)
    ensures InBox(p, w, h) <==> InBox(Point(-p.x, -p.y), w, h)
  {
  }

  /** The four corners of the box are hits (the box is closed). */
  lemma InBoxCorners(w: real, h: real)
    requires w >= 0.0 && h >= 0.0
    ensures InBox(Point(w / 2.0, h / 2.0), w, h) && InBox(Point(-w / 2.0, -h / 2.0), w, h)
    ensures InBox(Point(w / 2.0, -h / 2.0), w, h) && InBox(Point(-w / 2.0, h / 2.0), w, h)
  {
  }

  function Max3(a: real, b: real, c: real): (m: real)
    ensures m >= a && m >= b && m >= c && (m == a || m == b || m == c)
  {
    if a >= b && a >= c then a else if b >= c then b else c
  }

  /** `scale = min(1, 1 / (max(1, w, h) / (640 / plane.scale)))`. For a
      positive plane scale the result is positive, at most 1, and fits the
      largest extent into 640 exactly unless it is capped at 1; a negative
      plane scale gives a negative fit, which `min` keeps. */
  function AutoFitScale(w: real, h: real, planeScale: real): (s: real)
    requires planeScale != 0.0
    ensures s <= 1.0
    ensures planeScale > 0.0 ==> s > 0.0
    ensures planeScale < 0.0 ==> s < 0.0
    ensures s * planeScale * Max3(1.0, w, h) <= 640.0
    ensures s == 1.0 || s * planeScale * Max3(1.0, w, h) == 640.0
  {
    var m := Max3(1.0, w, h);
    var fit := 1.0 / (m / (640.0 / planeScale));
    FitTimesExtent(m, planeScale);
    if 1.0 <= fit then 1.0 else fit
  }

  /** The fit `1 / (m / (640 / ps))` times `ps * m` is 640, and it has the
      sign of `ps`. */
  lemma FitTimesExtent(m: real, ps: real)
    requires m >= 1.0 && ps != 0.0
    ensures ps > 0.0 ==> 1.0 / (m / (640.0 / ps)) > 0.0
    ensures ps < 0.0 ==> 1.0 / (m / (640.0 / ps)) < 0.0
    ensures (1.0 / (m / (640.0 / ps))) * ps * m == 640.0
  {
    var q := 640.0 / ps;
    assert q * ps == 640.0;
    assert ps > 0.0 ==> q > 0.0;
    assert ps < 0.0 ==> q < 0.0;
    var d := m / q;
    assert d * q == m;
    assert ps > 0.0 ==> d > 0.0;
    assert ps < 0.0 ==> d < 0.0;
    var f := 1.0 / d;
    assert f * d == 1.0;
    calc {
      f * ps * m;
      == f * ps * (d * q);
      == (f * d) * (q * ps);
      == 640.0;
    }
  }

  /** The exceptions the handlers can raise: `self.ctrl` is None, or
      `640. / self.ctrl.plane.scale` divides by zero. */
  datatype ObjectError = NoController | ZeroPlaneScale

  class PlaneObject {
    const kind: Kind
    var pos: Point
    var width: real
    var height: real
    var scale: real
    var selected: bool
    var ctrl: Controller?
    /** `MediaPlaneObject.do_adjust`; unused for text objects. */
    var doAdjust: bool

    /** `__init__`: with a `touch_follow` touch, the new object is recorded in
        `touch.ud.scatter_follow` and grabs the touch. Kivy's default widget
        size and pose are used for the rest. */
    constructor (kind: Kind, ctrl: Controller?, touchFollow: Touch?)
      modifies touchFollow
      ensures this.kind == kind && this.ctrl == ctrl
      ensures pos == Point(0.0, 0.0) && width == 100.0 && height == 100.0 && scale == 1.0
      ensures !selected && !doAdjust
      ensures touchFollow != null ==> touchFollow.scatterFollow == this
      ensures touchFollow != null ==> touchFollow.grabbed == old(touchFollow.grabbed) + {this}
      ensures touchFollow != null ==>
        touchFollow.pos == old(touchFollow.pos) && touchFollow.isDoubleTap == old(touchFollow.isDoubleTap) &&
        touchFollow.grabCurrent == old(touchFollow.grabCurrent) && touchFollow.grabState == old(touchFollow.grabState)
    {
      this.kind := kind;
      this.ctrl := ctrl;
      pos := Point(0.0, 0.0);
      width, height, scale := 100.0, 100.0, 1.0;
      selected := false;
      doAdjust := false;
      new;
      if touchFollow != null {
        touchFollow.scatterFollow := this;
        touchFollow.Grab(this);
      }
    }

    /** `_on_transform`: a changed transform marks the document dirty, when
        there is a controller. */
    method OnTransform()
      modifies ctrl
      ensures ctrl != null ==> ctrl.calls == old(ctrl.calls) + [SetDirty]
      ensures ctrl != null ==> ctrl.isEdit == old(ctrl.isEdit) && ctrl.planeScale == old(ctrl.planeScale)
      ensures ctrl != null ==> ctrl.selectionPoints == old(ctrl.selectionPoints)
    {
      if ctrl != null {
        ctrl.Record(SetDirty);
      }
    }

    /** `collide_point`, for a point already mapped to local coordinates. */
    predicate CollidePoint(local: Point)
      reads this
    {
      InBox(local, width, height)
    }

    /** `on_touch_down`; `local` is the touch in local coordinates and
        `scatterResult` what Scatter's own handler returns when delegated to.
        `ctrl` is read only on a hit, and a hit without one raises. */
    method OnTouchDown(touch: Touch, local: Point, scatterResult: bool) returns (r: Result<bool, ObjectError>)
      modifies ctrl
      ensures ctrl != null ==>
        ctrl.isEdit == old(ctrl.isEdit) && ctrl.planeScale == old(ctrl.planeScale) &&
        ctrl.selectionPoints == old(ctrl.selectionPoints)
      ensures CollidePoint(local) && ctrl == null ==> r == Failure(NoController)
      ensures CollidePoint(local) && ctrl != null && touch.isDoubleTap ==>
        r == Success(true) && ctrl.calls == old(ctrl.calls) + [RemoveObject(this)]
      ensures CollidePoint(local) && ctrl != null && !touch.isDoubleTap ==>
        r == Success(scatterResult) && ctrl.calls == old(ctrl.calls) + [ConfigureObject(this)]
      ensures !CollidePoint(local) ==>
        r == Success(scatterResult) && (ctrl != null ==> ctrl.calls == old(ctrl.calls))
    {
      if CollidePoint(local) {
        if ctrl == null {
          return Failure(NoController);
        }
        if touch.isDoubleTap {
          ctrl.Record(RemoveObject(this));
          return Success(true);
        } else {
          ctrl.Record(ConfigureObject(this));
        }
      }
      return Success(scatterResult);
    }

    /** `on_touch_move`: follow the touch when this object grabbed it and the
        touch carries `scatter_follow`. */
    method OnTouchMove(touch: Touch, scatterResult: bool) returns (handled: bool)
      modifies this`pos
      ensures pos == if touch.grabCurrent == this && touch.scatterFollow != null then touch.pos else old(pos)
      ensures handled == scatterResult
    {
      if touch.grabCurrent == this && touch.scatterFollow != null {
        pos := touch.pos;
      }
      return scatterResult;
    }

    /** A size change. Kivy fires `on_size` only when the size really
        changes; image and video objects then refit `scale` when
        `do_adjust` is set, which needs a controller with a non-zero plane
        scale. A failure leaves the new size and the old scale. */
    method OnSize(w: real, h: real) returns (err: Option<ObjectError>)
      modifies this`width, this`height, this`scale
      ensures (w, h) == (old(width), old(height)) ==> scale == old(scale) && err == None
      ensures width == w && height == h
      ensures (w, h) != (old(width), old(height)) ==>
        && (kind == Text || !doAdjust ==> scale == old(scale) && err == None)
        && (kind != Text && doAdjust && ctrl == null ==> scale == old(scale) && err == Some(NoController))
        && (kind != Text && doAdjust && ctrl != null && ctrl.planeScale == 0.0 ==>
              scale == old(scale) && err == Some(ZeroPlaneScale))
        && (kind != Text && doAdjust && ctrl != null && ctrl.planeScale != 0.0 ==>
              scale == AutoFitScale(w, h, ctrl.planeScale) && err == None)
    {
      if (w, h) == (width, height) {
        return None;
      }
      width, height := w, h;
      if kind == Text || !doAdjust {
        return None;
      }
      if ctrl == null {
        return Some(NoController);
      }
      if ctrl.planeScale == 0.0 {
        return Some(ZeroPlaneScale);
      }
      scale := AutoFitScale(width, height, ctrl.planeScale);
      return None;
    }
  }
}
