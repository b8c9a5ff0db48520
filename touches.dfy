/** The part of Kivy's touch event (`MotionEvent`) the handlers read and
    change: position, double-tap flag, grab bookkeeping and the `ud` entry
    `scatter_follow`. Kivy's grab list is modelled as a set of grabbers. */
module Touches {

  datatype Point = Point(x: real, y: real)

  class Touch {
    var pos: Point
    var isDoubleTap: bool
    /** The widgets that grabbed this touch. */
    var grabbed: set<object>
    /** The widget the current dispatch is delivered to as a grabber, if any. */
    var grabCurrent: object?
    /** True while the touch is being re-dispatched to its grabbers. */
    var grabState: bool
    /** `touch.ud.scatter_follow`; null when the key is absent. */
    var scatterFollow: object?

    constructor (pos: Point, isDoubleTap: bool)
      ensures this.pos == pos && this.isDoubleTap == isDoubleTap
      ensures grabbed == {} && grabCurrent == null && !grabState && scatterFollow == null
    {
      this.pos := pos;
      this.isDoubleTap := isDoubleTap;
      grabbed := {};
      grabCurrent := null;
      grabState := false;
      scatterFollow := null;
    }

    method Grab(o: object)
      modifies this`grabbed
      ensures grabbed == old(grabbed) + {o}
    {
      grabbed := grabbed + {o};
    }

    method Ungrab(o: object)
      modifies this`grabbed
      ensures grabbed == old(grabbed) - {o}
    {
      grabbed := grabbed - {o};
    }
  }
}
