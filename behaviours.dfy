/** Single-touch button and hover state machines (behaviours.py). The host
    widget's `collide_point` is Kivy code: its answer is a parameter. A
    handler that returns early without a value is `None`. */
module Behaviours {
  import opened Wrappers
  import opened Touches

  datatype ButtonEvent = Press(touch: Touch) | Release(touch: Touch)

  class ButtonBehavior {
    var isHover: bool
    var buttonGrab: bool
    var buttonTouch: Touch?
    /** Dispatched `on_press` / `on_release` events, in order. */
    var dispatched: seq<ButtonEvent>

    constructor ()
      ensures !isHover && !buttonGrab && buttonTouch == null && dispatched == []
    {
      isHover, buttonGrab, buttonTouch, dispatched := false, false, null, [];
    }

    /** `_button_on_touch_down`: a touch outside the widget changes nothing;
        one inside is grabbed (once), becomes the button touch, turns hover on
        and dispatches `on_press`. */
    method OnTouchDown(touch: Touch, collides: bool) returns (r: Option<bool>)
      modifies this`isHover, this`buttonTouch, this`dispatched, touch`grabbed
      ensures !collides ==>
        r == None && isHover == old(isHover) && buttonTouch == old(buttonTouch) &&
        dispatched == old(dispatched) && touch.grabbed == old(touch.grabbed)
      ensures collides ==>
        r == Some(buttonGrab) && isHover && buttonTouch == touch &&
        dispatched == old(dispatched) + [Press(touch)] && touch.grabbed == old(touch.grabbed) + {this}
    {
      if !collides {
        return None;
      }
      touch.Ungrab(this);
      touch.Grab(this);
      isHover := true;
      buttonTouch := touch;
      dispatched := dispatched + [Press(touch)];
      return Some(buttonGrab);
    }

    /** `_button_on_touch_up`: only the grabbed dispatch counts; it releases
        the grab, turns hover off, dispatches `on_release` and forgets the
        button touch. */
    method OnTouchUp(touch: Touch) returns (r: Option<bool>)
      modifies this`isHover, this`buttonTouch, this`dispatched, touch`grabbed
      ensures touch.grabCurrent != this ==>
        r == None && isHover == old(isHover) && buttonTouch == old(buttonTouch) &&
        dispatched == old(dispatched) && touch.grabbed == old(touch.grabbed)
      ensures touch.grabCurrent == this ==>
        r == Some(buttonGrab) && !isHover && buttonTouch == null &&
        dispatched == old(dispatched) + [Release(touch)] && touch.grabbed == old(touch.grabbed) - {this}
    {
      if touch.grabCurrent != this {
        return None;
      }
      touch.Ungrab(this);
      isHover := false;
      dispatched := dispatched + [Release(touch)];
      buttonTouch := null;
      return Some(buttonGrab);
    }
  }

  class HoverBehavior {
    var isHover: bool
    var hoverGrab: bool
    var hoverTouch: Touch?

    constructor ()
      ensures !isHover && !hoverGrab && hoverTouch == null
    {
      isHover, hoverGrab, hoverTouch := false, false, null;
    }

    /** `_hover_on_touch_down`: ignored while a touch is tracked or when it
        misses the widget; otherwise the touch is grabbed and tracked. */
    method OnTouchDown(touch: Touch, collides: bool) returns (r: Option<bool>)
      modifies this`isHover, this`hoverTouch, touch`grabbed
      ensures old(hoverTouch) != null || !collides ==>
        r == None && isHover == old(isHover) && hoverTouch == old(hoverTouch) &&
        touch.grabbed == old(touch.grabbed)
      ensures old(hoverTouch) == null && collides ==>
        r == Some(hoverGrab) && isHover && hoverTouch == touch &&
        touch.grabbed == old(touch.grabbed) + {this}
    {
      if hoverTouch != null {
        return None;
      }
      if !collides {
        return None;
      }
      touch.Ungrab(this);
      touch.Grab(this);
      hoverTouch := touch;
      isHover := true;
      return Some(hoverGrab);
    }

    /** `_hover_on_touch_move`: on the grabbed dispatch, hover follows the
        collide result; other dispatches are ignored. */
    method OnTouchMove(touch: Touch, collides: bool) returns (r: Option<bool>)
      modifies this`isHover
      ensures touch.grabCurrent != this ==> r == None && isHover == old(isHover)
      ensures touch.grabCurrent == this ==> r == Some(hoverGrab) && isHover == collides
    {
      if touch.grabCurrent != this {
        return None;
      }
      isHover := collides;
      return Some(hoverGrab);
    }

    /** `_hover_on_touch_up`: on the grabbed dispatch, release the grab and
        stop tracking. */
    method OnTouchUp(touch: Touch) returns (r: Option<bool>)
      modifies this`isHover, this`hoverTouch, touch`grabbed
      ensures touch.grabCurrent != this ==>
        r == None && isHover == old(isHover) && hoverTouch == old(hoverTouch) &&
        touch.grabbed == old(touch.grabbed)
      ensures touch.grabCurrent == this ==>
        r == Some(hoverGrab) && !isHover && hoverTouch == null &&
        touch.grabbed == old(touch.grabbed) - {this}
    {
      if touch.grabCurrent != this {
        return None;
      }
      touch.Ungrab(this);
      isHover := false;
      hoverTouch := null;
      return Some(hoverGrab);
    }
  }

  /** A second touch pressed while one is tracked leaves the hover state
      alone: the tracked touch stays the tracked one. */
  method HoverTracksOneTouch(h: HoverBehavior, first: Touch, second: Touch)
    requires h.hoverTouch == null
    modifies h`isHover, h`hoverTouch, first`grabbed, second`grabbed
    ensures h.hoverTouch == first && h.isHover
  {
    var _ := h.OnTouchDown(first, true);
    var _ := h.OnTouchDown(second, true);
  }
}
