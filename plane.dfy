/** The plane (presentation_plane.py): the authoritative z-ordered list
    `all_children`, the rendered list `children` rebuilt by culling, and the
    touch bookkeeping of the plane's own gestures. Scatter's transform math,
    the canvas and the Clock are Kivy code: the cull trigger is a pending
    flag, the children's answers to a routed touch are a parameter. */
module Plane {
  import opened Lists
  import opened Touches
  import opened Controller
  import opened Objects
  import opened Scene

  /** What the plane asks of Kivy: routing a touch to the children, and the
      Scatter transform update of `transform_with_touch`. */
  datatype PlaneCall =
    | OfferDown(touch: Touch)
    | OfferMove(touch: Touch)
    | OfferUp(touch: Touch)
    | TransformWithTouch(touch: Touch)

  /** Outcome of `remove_widget`: both `list.remove` calls can raise. */
  datatype Removal = Removed | NotInAllChildren | NotInChildren

  class MainPlane {
    var allChildren: seq<PlaneObject>
    var children: seq<PlaneObject>
    var childrenLocked: bool
    var touches: seq<Touch>
    var lastTouchPos: map<Touch, Point>
    /** Dispatched `on_scene_enter` / `on_scene_leave` events, in order. */
    var events: seq<SceneEvent<PlaneObject>>
    /** `_trigger_cull` was called and the Clock has not run the cull yet. */
    var cullPending: bool
    var calls: seq<PlaneCall>
    var ctrl: Controller

    // The plane's invariant has two halves, kept apart so that each method
    // reasons only about the fields it changes: the list operations keep
    // `RenderedInOrder`, the touch handlers `TouchesInLockstep`.

    /** `children` is `all_children` with some children left out. */
    ghost predicate RenderedInOrder()
      reads this`children, this`allChildren
    {
      IsSubsequence(children, allChildren)
    }

    /** Every tracked touch has its last position, and nothing else has one. */
    ghost predicate TouchesInLockstep()
      reads this`touches, this`lastTouchPos
    {
      NoDuplicates(touches) && lastTouchPos.Keys == set t | t in touches
    }

    constructor (ctrl: Controller)
      ensures RenderedInOrder() && TouchesInLockstep()
      ensures allChildren == [] && children == [] && !childrenLocked
      ensures touches == [] && lastTouchPos == map[] && events == [] && calls == []
      ensures cullPending && this.ctrl == ctrl
    {
      allChildren, children := [], [];
      childrenLocked := false;
      touches, lastTouchPos := [], map[];
      events, calls := [], [];
      cullPending := true;
      this.ctrl := ctrl;
    }

    /** `_really_add_widget`: render `child` in front. */
    method ReallyAddWidget(child: PlaneObject)
      modifies this`children
      ensures children == [child] + old(children)
    {
      children := [child] + children;
    }

    /** `_really_remove_widget`; `ok` is false where `list.remove` raises. */
    method ReallyRemoveWidget(child: PlaneObject) returns (ok: bool)
      modifies this`children
      ensures ok == (child in old(children))
      ensures children == RemoveFirst(old(children), child)
    {
      ok := child in children;
      children := RemoveFirst(children, child);
    }

    /** `_really_clear_widgets`: remove every rendered child, one by one. */
    method ReallyClearWidgets()
      modifies this`children
      ensures children == []
    {
      var snapshot := children;
      var i := 0;
      while i < |snapshot|
        invariant 0 <= i <= |snapshot|
        invariant children == snapshot[i..]
      {
        assert snapshot[i..][1..] == snapshot[i + 1..];
        var _ := ReallyRemoveWidget(snapshot[i]);
        i := i + 1;
      }
    }

    /** `cull_children`: rebuild `children` as the visible children in the
        order of `all_children`, then dispatch enter events for newly visible
        children and leave events for children no longer rendered; with
        `noEvent` the list is rebuilt silently. `visible` is `is_visible` in
        the current pose. */
    method CullChildren(noEvent: bool, visible: PlaneObject -> bool)
      modifies this`children, this`events
      ensures RenderedInOrder()
      ensures children == Filter(allChildren, visible)
      ensures events == old(events) +
        (if noEvent then [] else Entered(allChildren, old(children), visible) + Left(old(children), children))
    {
      var before := children;
      ReallyClearWidgets();
      AddVisible(noEvent, visible, before);
      FilterIsSubsequence(allChildren, visible);
      if noEvent {
        return;
      }
      DispatchLeave(before);
    }

    /** The first loop of `cull_children`: walk `all_children` backwards,
        rendering each visible child in front and announcing the ones not in
        `before`. */
    method AddVisible(noEvent: bool, visible: PlaneObject -> bool, before: seq<PlaneObject>)
      requires children == []
      modifies this`children, this`events
      ensures children == Filter(allChildren, visible)
      ensures events == old(events) + (if noEvent then [] else Entered(allChildren, before, visible))
    {
      var i := |allChildren|;
      while i > 0
        invariant 0 <= i <= |allChildren|
        invariant children == Filter(allChildren[i..], visible)
        invariant events == old(events) + (if noEvent then [] else Entered(allChildren[i..], before, visible))
      {
        i := i - 1;
        var child := allChildren[i];
        assert allChildren[i..][1..] == allChildren[i + 1..];
        if visible(child) {
          ReallyAddWidget(child);
          if !noEvent && child !in before {
            events := events + [Enter(child)];
          }
        }
      }
      assert allChildren[0..] == allChildren;
    }

    /** The second loop of `cull_children`: announce every child of `before`
        that is no longer rendered. */
    method DispatchLeave(before: seq<PlaneObject>)
      modifies this`events
      ensures events == old(events) + Left(before, children)
    {
      var j := 0;
      while j < |before|
        invariant 0 <= j <= |before|
        invariant events == old(events) + Left(before[..j], children)
      {
        assert before[..j + 1][..j] == before[..j];
        if before[j] !in children {
          events := events + [Leave(before[j])];
        }
        j := j + 1;
      }
      assert before[..|before|] == before;
    }

    /** The Clock runs a pending cull (with events). */
    method RunPendingCull(visible: PlaneObject -> bool)
      requires RenderedInOrder()
      modifies this`children, this`events, this`cullPending
      ensures RenderedInOrder() && !cullPending
      ensures old(cullPending) ==> children == Filter(allChildren, visible)
      ensures old(cullPending) ==>
        events == old(events) + Entered(allChildren, old(children), visible) + Left(old(children), children)
      ensures !old(cullPending) ==> children == old(children) && events == old(events)
    {
      if cullPending {
        cullPending := false;
        CullChildren(false, visible);
      }
    }

    /** `add_widget`: the new child goes in front of both lists and a cull is
        scheduled. */
    method AddWidget(child: PlaneObject)
      requires RenderedInOrder()
      modifies this`allChildren, this`children, this`cullPending
      ensures RenderedInOrder()
      ensures allChildren == [child] + old(allChildren)
      ensures children == [child] + old(children)
      ensures cullPending
    {
      allChildren := [child] + allChildren;
      ReallyAddWidget(child);
      SubsequenceCons(old(children), old(allChildren), child);
      cullPending := true;
    }

    /** `remove_widget`: removes `child` from `all_children`, then from the
        rendered list; the second step raises for a child culled out of view,
        after the first has already happened. */
    method RemoveWidget(child: PlaneObject) returns (r: Removal)
      requires RenderedInOrder()
      modifies this`allChildren, this`children, this`cullPending
      ensures RenderedInOrder()
      ensures r == (if child !in old(allChildren) then NotInAllChildren
                    else if child !in old(children) then NotInChildren else Removed)
      ensures allChildren == RemoveFirst(old(allChildren), child)
      ensures children == RemoveFirst(old(children), child)
      ensures cullPending == (old(cullPending) || r == Removed)
    {
      ghost var c, a := children, allChildren;
      if child !in allChildren {
        SubsequenceMember(children, allChildren, child);
        return NotInAllChildren;
      }
      allChildren := RemoveFirst(allChildren, child);
      var ok := ReallyRemoveWidget(child);
      if !ok {
        SubsequenceRemoveRight(c, a, child);
        assert IsSubsequence(children, allChildren);
        return NotInChildren;
      }
      SubsequenceRemoveBoth(c, a, child);
      assert IsSubsequence(children, allChildren);
      cullPending := true;
      return Removed;
    }

    /** `clear_widgets`: empties both lists (no cull is scheduled). */
    method ClearWidgets()
      requires RenderedInOrder()
      modifies this`allChildren, this`children
      ensures RenderedInOrder()
      ensures allChildren == [] && children == []
    {
      allChildren := [];
      ReallyClearWidgets();
    }

    /** `transform_with_touch`: schedule a cull, then Scatter's update. */
    method TransformWith(touch: Touch)
      modifies this`cullPending, this`calls
      ensures cullPending && calls == old(calls) + [TransformWithTouch(touch)]
    {
      cullPending := true;
      calls := calls + [TransformWithTouch(touch)];
    }

    /** `on_touch_down`. Unless children are locked the touch is first offered
        to the children (whose answer is `childrenHandled`); otherwise the
        plane grabs it, starting a selection lasso at `local` (the touch in
        plane coordinates) for a double tap, else tracking it as a gesture
        touch. Kivy delivers one touch-down per touch. */
    method OnTouchDown(touch: Touch, local: Point, childrenHandled: bool) returns (handled: bool)
      requires TouchesInLockstep() && touch !in touches
      modifies this`touches, this`lastTouchPos, this`calls, touch`grabbed, ctrl`selectionPoints
      ensures TouchesInLockstep() && handled
      ensures calls == old(calls) + (if childrenLocked then [] else [OfferDown(touch)])
      ensures !childrenLocked && childrenHandled ==>
        touches == old(touches) && lastTouchPos == old(lastTouchPos) &&
        touch.grabbed == old(touch.grabbed) && ctrl.selectionPoints == old(ctrl.selectionPoints)
      ensures (childrenLocked || !childrenHandled) ==> touch.grabbed == old(touch.grabbed) + {this}
      ensures (childrenLocked || !childrenHandled) && touch.isDoubleTap ==>
        ctrl.selectionPoints == [local.x, local.y] &&
        touches == old(touches) && lastTouchPos == old(lastTouchPos)
      ensures (childrenLocked || !childrenHandled) && !touch.isDoubleTap ==>
        ctrl.selectionPoints == old(ctrl.selectionPoints) &&
        touches == old(touches) + [touch] && lastTouchPos == old(lastTouchPos)[touch := touch.pos]
    {
      if !childrenLocked {
        calls := calls + [OfferDown(touch)];
        if childrenHandled {
          return true;
        }
      }
      touch.Grab(this);
      if touch.isDoubleTap {
        ctrl.selectionPoints := [local.x, local.y];
      } else {
        touches := touches + [touch];
        lastTouchPos := lastTouchPos[touch := touch.pos];
      }
      return true;
    }

    /** `on_touch_move`. A touch not grabbed by the plane is first offered to
        the children, unless they are locked. The plane's own touch extends
        the lasso (double tap) or drives the transform. */
    method OnTouchMove(touch: Touch, local: Point, childrenHandled: bool) returns (handled: bool)
      requires TouchesInLockstep()
      modifies this`lastTouchPos, this`calls, this`cullPending, ctrl`selectionPoints, ctrl`calls
      ensures TouchesInLockstep() && handled
      ensures touches == old(touches)
      ensures var offered := !childrenLocked && touch.grabCurrent != this;
              var own := !(offered && childrenHandled) && touch.grabCurrent == this;
              && (own && touch.isDoubleTap ==>
                    ctrl.selectionPoints == old(ctrl.selectionPoints) + [local.x, local.y] &&
                    ctrl.calls == old(ctrl.calls) + [UpdateSelect] &&
                    calls == old(calls) && lastTouchPos == old(lastTouchPos) &&
                    cullPending == old(cullPending))
              && (own && !touch.isDoubleTap && touch in touches ==>
                    calls == old(calls) + [TransformWithTouch(touch)] && cullPending &&
                    lastTouchPos == old(lastTouchPos)[touch := touch.pos] &&
                    ctrl.selectionPoints == old(ctrl.selectionPoints) && ctrl.calls == old(ctrl.calls))
              && (!own || (!touch.isDoubleTap && touch !in touches) ==>
                    calls == old(calls) + (if offered then [OfferMove(touch)] else []) &&
                    lastTouchPos == old(lastTouchPos) && cullPending == old(cullPending) &&
                    ctrl.selectionPoints == old(ctrl.selectionPoints) && ctrl.calls == old(ctrl.calls))
    {
      if !childrenLocked && touch.grabCurrent != this {
        calls := calls + [OfferMove(touch)];
        if childrenHandled {
          return true;
        }
      }
      if touch.grabCurrent == this {
        if touch.isDoubleTap {
          ctrl.selectionPoints := ctrl.selectionPoints + [local.x, local.y];
          ctrl.Record(UpdateSelect);
        } else if touch in touches {
          TransformWith(touch);
          lastTouchPos := lastTouchPos[touch := touch.pos];
        }
      }
      return true;
    }

    /** `on_touch_up`. After the same offer to the children, a tracked touch
        in its grabbed dispatch is released and dropped from both the touch
        list and the position map. */
    method OnTouchUp(touch: Touch, childrenHandled: bool) returns (handled: bool)
      requires TouchesInLockstep()
      modifies this`touches, this`lastTouchPos, this`calls, touch`grabbed
      ensures TouchesInLockstep() && handled
      ensures var offered := !childrenLocked && touch.grabCurrent != this;
              var release := !(offered && childrenHandled) && touch in old(touches) && touch.grabState;
              && calls == old(calls) + (if offered then [OfferUp(touch)] else [])
              && (release ==>
                    touches == RemoveFirst(old(touches), touch) && touch !in touches &&
                    lastTouchPos == old(lastTouchPos) - {touch} &&
                    touch.grabbed == old(touch.grabbed) - {this})
              && (!release ==>
                    touches == old(touches) && lastTouchPos == old(lastTouchPos) &&
                    touch.grabbed == old(touch.grabbed))
    {
      if !childrenLocked && touch.grabCurrent != this {
        calls := calls + [OfferUp(touch)];
        if childrenHandled {
          return true;
        }
      }
      if touch in touches && touch.grabState {
        touch.Ungrab(this);
        lastTouchPos := lastTouchPos - {touch};
        RemoveFirstNoDuplicates(touches, touch);
        touches := RemoveFirst(touches, touch);
      }
      return true;
    }
  }

  /** Culling twice with nothing changed in between: the second cull renders
      the same list and dispatches nothing, so the pair has the effect of one. */
  method CullTwice(plane: MainPlane, visible: PlaneObject -> bool)
    modifies plane`children, plane`events
    ensures plane.children == Filter(plane.allChildren, visible)
    ensures plane.events == old(plane.events) +
      Entered(plane.allChildren, old(plane.children), visible) + Left(old(plane.children), plane.children)
  {
    plane.CullChildren(false, visible);
    ghost var once, first := plane.events, plane.children;
    plane.CullChildren(false, visible);
    CullSettles(plane.allChildren, visible);
    assert first == plane.children == Filter(plane.allChildren, visible);
    assert Entered(plane.allChildren, first, visible) + Left(first, plane.children) == [];
    assert plane.events == once;
  }
}
