/** What one cull of the plane computes, as functions: the new render list,
    the `on_scene_enter` and `on_scene_leave` events, and the bounding-circle
    visibility test (presentation_plane.py). */
module Scene {
  import opened Lists

  datatype SceneEvent<T> = Enter(child: T) | Leave(child: T)

  /** The enter events of a cull that walks `s` from its last element to its
      first, for the children that are visible and were not rendered before. */
  function Entered<T(==)>(s: seq<T>, before: seq<T>, visible: T -> bool): (r: seq<SceneEvent<T>>)
    ensures |r| <= |s|
  {
    if s == [] then []
    else Entered(s[1..], before, visible) + (if visible(s[0]) && s[0] !in before then [Enter(s[0])] else [])
  }

  /** The leave events of a cull: the previously rendered children, in their
      old order, that are no longer rendered. */
  function Left<T(==)>(before: seq<T>, after: seq<T>): (r: seq<SceneEvent<T>>)
    ensures |r| <= |before|
  {
    if before == [] then []
    else
      var last := before[|before| - 1];
      Left(before[..|before| - 1], after) + (if last !in after then [Leave(last)] else [])
  }

  /** An enter event fires exactly for the visible children that were not
      rendered before; a cull's first phase never emits a leave event. */
  lemma {:induction false} EnteredExactly<T>(s: seq<T>, before: seq<T>, visible: T -> bool, c: T)
    ensures Enter(c) in Entered(s, before, visible) <==> c in s && visible(c) && c !in before
    ensures Leave(c) !in Entered(s, before, visible)
  {
    if s != [] {
      EnteredExactly(s[1..], before, visible, c);
      assert c in s <==> c == s[0] || c in s[1..] by { assert s == [s[0]] + s[1..]; }
    }
  }

  /** A leave event fires exactly for the children rendered before and not
      rendered now; the second phase never emits an enter event. */
  lemma {:induction false} LeftExactly<T>(before: seq<T>, after: seq<T>, c: T)
    ensures Leave(c) in Left(before, after) <==> c in before && c !in after
    ensures Enter(c) !in Left(before, after)
  {
    if before != [] {
      var n := |before| - 1;
      LeftExactly(before[..n], after, c);
      assert before == before[..n] + [before[n]];
      assert c in before <==> c in before[..n] || c == before[n];
    }
  }

  /** No enter event when every visible child was already rendered. */
  lemma {:induction false} EnteredNone<T>(s: seq<T>, before: seq<T>, visible: T -> bool)
    requires forall i :: 0 <= i < |s| && visible(s[i]) ==> s[i] in before
    ensures Entered(s, before, visible) == []
  {
    if s != [] {
      assert forall i :: 0 <= i < |s[1..]| ==> s[1..][i] == s[i + 1];
      EnteredNone(s[1..], before, visible);
    }
  }

  /** No leave event when every previously rendered child is still rendered. */
  lemma {:induction false} LeftNone<T>(before: seq<T>, after: seq<T>)
    requires forall i :: 0 <= i < |before| ==> before[i] in after
    ensures Left(before, after) == []
  {
    if before != [] {
      var n := |before| - 1;
      assert forall i :: 0 <= i < n ==> before[..n][i] == before[i];
      LeftNone(before[..n], after);
    }
  }

  /** Culling a second time with nothing changed: the render list is the same
      filter of `all_children` and neither phase emits an event. */
  lemma CullSettles<T>(all: seq<T>, visible: T -> bool)
    ensures Filter(Filter(all, visible), visible) == Filter(all, visible)
    ensures Entered(all, Filter(all, visible), visible) == []
    ensures Left(Filter(all, visible), Filter(all, visible)) == []
  {
    var f := Filter(all, visible);
    EnteredNone(all, f, visible);
    LeftNone(f, f);
    FilterKeepsAll(f, visible);
  }

  /** Filtering a list whose elements all pass keeps it unchanged. */
  lemma {:induction false} FilterKeepsAll<T>(s: seq<T>, p: T -> bool)
    requires forall i :: 0 <= i < |s| ==> p(s[i])
    ensures Filter(s, p) == s
  {
    if s != [] {
      assert forall i :: 0 <= i < |s[1..]| ==> s[1..][i] == s[i + 1];
      FilterKeepsAll(s[1..], p);
    }
  }

  /** `all_children = [A, B, C]`, `[A, B]` rendered, `B` and `C` now visible:
      the cull renders `[B, C]` and emits exactly `enter(C)` and `leave(A)`. */
  lemma DiffExample()
    ensures Filter([1, 2, 3], (x: int) => x != 1) == [2, 3]
    ensures Entered([1, 2, 3], [1, 2], (x: int) => x != 1) == [Enter(3)]
    ensures Left([1, 2], [2, 3]) == [Leave(1)]
  {
    var vis := (x: int) => x != 1;
    assert [1, 2, 3][1..] == [2, 3] && [2, 3][1..] == [3] && [3][1..] == [];
    assert Entered([3], [1, 2], vis) == [Enter(3)];
    assert [1, 2][..1] == [1] && [1][..0] == [];
  }

  /** A child panned out of view leaves; panned back, it enters exactly once. */
  lemma PanAwayAndBack(o: int)
    ensures Filter([o], (x: int) => false) == []
    ensures Left([o], Filter([o], (x: int) => false)) == [Leave(o)]
    ensures Filter([o], (x: int) => true) == [o]
    ensures Entered([o], [], (x: int) => true) == [Enter(o)]
    ensures Left([], [o]) == []
  {
    assert [o][1..] == [] && [o][..0] == [];
  }

  /** `is_visible`: no parent window means invisible; otherwise the child's
      bounding circle (radius `r`, centre at distance `dist` from the
      viewport's centre) must reach the viewport's bounding circle (radius
      `wr`). The distances come from Kivy's transforms. */
  function IsVisible(hasWindow: bool, dist: real, r: real, wr: real): bool
  {
    hasWindow && dist - r <= wr
  }

  lemma NoWindowInvisible(dist: real, r: real, wr: real)
    ensures !IsVisible(false, dist, r, wr)
  {
  }

  /** A child concentric with the viewport is visible. */
  lemma ConcentricVisible(r: real, wr: real)
    requires r >= 0.0 && wr >= 0.0
    ensures IsVisible(true, 0.0, r, wr)
  {
  }

  /** A child whose circle lies wholly outside the viewport's is invisible. */
  lemma DisjointInvisible(dist: real, r: real, wr: real)
    requires dist > r + wr
    ensures !IsVisible(true, dist, r, wr)
  {
  }

  /** Moving a visible child closer, or enlarging it, keeps it visible. */
  lemma VisibleMonotone(dist: real, r: real, wr: real, dist': real, r': real)
    requires IsVisible(true, dist, r, wr) && dist' <= dist && r' >= r
    ensures IsVisible(true, dist', r', wr)
  {
  }
}
