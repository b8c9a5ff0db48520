# presemt: a Dafny model of the presentation core

presemt is a Kivy application for zoomable presentations. Objects (texts,
images, videos) sit on an infinite scatter plane. Slides are saved camera
poses shown as thumbnails, and a document model serialises the lot. This
project models the core of that program as imperative Dafny classes
around a few pure specification functions:

- the plane's scene graph (`Plane`, over `Lists` and `Scene`). `all_children` is the z-ordered list of every object, and `children` is the rendered subsequence. Culling rebuilds `children` from the visible objects and logs `on_scene_enter`/`on_scene_leave` events. The touch handlers keep the `_touches` list and the `_last_touch_pos` map in lockstep.
- plane objects (`Objects`): the box hit test, the touch routing to remove, configure or delegate, following a touch, and the media auto-fit scale.
- slides (`Slides`): press dispatch, the capture that saves and restores `ctrl.is_edit`, the cached thumbnail download with its RGBA to RGB strip, and thumbnail upload.
- the button and hover behaviours (`Behaviours`): single-touch grab state machines.
- the document (`Documents`): the attribute whitelist, `dtype`-tagged object creation, the slide list, the name to class registry, and the in-memory effect of `load`.
- the off-screen capture widget (`Capture`): the thumbnail extent rule and the sizes that follow it.
- the side panels (`Panel`): the glob `prefix` helper, `strip`, and the text panel's stack of entries.

The controller (`ctrl`) is a log of the calls the widgets make on it
(`Controller`). A touch (`Touches`) carries its position, its double-tap
flag, the set of widgets that grabbed it, `grab_current`, `grab_state`
and `ud.scatter_follow`. Whatever Kivy computes is a parameter of the
method that receives it:

- `to_local` results are passed in as `local` points.
- the result of propagating a touch to the children is a `childrenHandled` flag.
- `Scatter`'s own touch handling result is a `scatterResult` flag.
- `collide_point` of a behaviour's host widget is a `collides` flag.
- `is_visible` in the current pose is a predicate argument.
- `glReadPixels` output is a byte sequence argument.

## Model

| member | source | states |
|---|---|---|
| Lists.RemoveFirst | presemt/screens/presentation_plane.py:210-211 | `list.remove`: a list without `x` is returned unchanged, otherwise the result is one element shorter |
| Lists.RemoveFirstMultiset | presemt/screens/presentation_plane.py:197 | removing takes exactly one copy of `x` out of the multiset of elements |
| Lists.RemoveFirstAt | presemt/screens/presentation_plane.py:197 | removing deletes exactly the element at the index of the first occurrence, keeping both sides in order |
| Lists.IndexOf | presemt/screens/presentation_plane.py:197 | the index found holds `x`, and no earlier element does |
| Lists.RemoveFirstNoDuplicates | presemt/screens/presentation_plane.py:122 | on a duplicate-free list, removing keeps it duplicate-free, and the elements left are exactly the old ones other than `x` |
| Lists.Filter | presemt/screens/presentation_plane.py:178-180 | the filtered list is no longer than the input, every element satisfies the predicate, and every satisfying element is kept |
| Lists.FilterIsSubsequence | presemt/screens/presentation_plane.py:175-180 | the visible children form a subsequence of `all_children` |
| Lists.SubsequenceMember | presemt/screens/presentation_plane.py:196-198 | every element of a subsequence is an element of the list |
| Lists.SubsequenceCons | presemt/screens/presentation_plane.py:192-193 | putting the same child in front of both lists keeps the subsequence relation |
| Lists.SubsequenceRemoveLeft | presemt/screens/presentation_plane.py:210-211 | removing a child from the rendered list keeps it a subsequence |
| Lists.SubsequenceRemoveBoth | presemt/screens/presentation_plane.py:196-198 | removing a rendered child from both lists keeps the subsequence relation |
| Lists.SubsequenceRemoveRight | presemt/screens/presentation_plane.py:196-197 | removing an unrendered child from `all_children` keeps the subsequence relation |
| Scene.EnteredExactly | presemt/screens/presentation_plane.py:178-182 | `on_scene_enter` is logged for a child iff it is in `all_children`, visible, and was not rendered before; the enter pass never logs a leave |
| Scene.LeftExactly | presemt/screens/presentation_plane.py:185-187 | `on_scene_leave` is logged for a child iff it was rendered before and is not rendered now; the leave pass never logs an enter |
| Scene.EnteredNone | presemt/screens/presentation_plane.py:181-182 | no enter events when every visible child was already rendered |
| Scene.LeftNone | presemt/screens/presentation_plane.py:185-187 | no leave events when every old child is still rendered |
| Scene.CullSettles | presemt/screens/presentation_plane.py:171-187 | filtering is idempotent, and a cull right after a cull logs no events |
| Scene.FilterKeepsAll | presemt/screens/presentation_plane.py:178-180 | when every child is visible, every child is rendered |
| Scene.DiffExample | presemt/screens/presentation_plane.py:175-187 | a worked diff: children `[1,2]` with 1 panned away and 3 panned in give one enter (3) and one leave (1) |
| Scene.PanAwayAndBack | presemt/screens/presentation_plane.py:178-187 | an object that leaves the view logs a leave, and one that comes back into view logs an enter |
| Scene.Entered | presemt/screens/presentation_plane.py:178-182 | at most one enter event per entry of the list walked (a child listed twice gets two); `EnteredExactly` states for which children |
| Scene.Left | presemt/screens/presentation_plane.py:185-187 | at most one leave event per entry of the old rendered list; `LeftExactly` states for which children |
| Scene.IsVisible | presemt/screens/presentation_plane.py:130-157 | `is_visible` over the distances Kivy's transforms give; stated by the four lemmas below |
| Scene.NoWindowInvisible | presemt/screens/presentation_plane.py:145-147 | `is_visible` is false without a window |
| Scene.ConcentricVisible | presemt/screens/presentation_plane.py:154-156 | an object centred on the viewport centre is visible |
| Scene.DisjointInvisible | presemt/screens/presentation_plane.py:154-157 | circles farther apart than the sum of their radii are not visible |
| Scene.VisibleMonotone | presemt/screens/presentation_plane.py:154-156 | moving a visible object closer or growing it keeps it visible |
| Plane.MainPlane.constructor | presemt/screens/presentation_plane.py:23-31 | empty lists, touches and map, unlocked children, and a cull pending |
| Plane.MainPlane.ReallyAddWidget | presemt/screens/presentation_plane.py:205-207 | the child is rendered in front |
| Plane.MainPlane.ReallyRemoveWidget | presemt/screens/presentation_plane.py:210-211 | the child is removed from the rendered list; failure exactly when it is not rendered |
| Plane.MainPlane.ReallyClearWidgets | presemt/screens/presentation_plane.py:214-216 | the loop over a copy removes every rendered child |
| Plane.MainPlane.CullChildren | presemt/screens/presentation_plane.py:171-187 | `children` becomes `all_children` filtered by visibility in the same order, and the log gains the enter events then the leave events of the diff, nothing when `no_event` is set |
| Plane.MainPlane.AddVisible | presemt/screens/presentation_plane.py:178-182 | the backward walk with insertion at the front renders the visible children in `all_children` order and logs their enters |
| Plane.MainPlane.DispatchLeave | presemt/screens/presentation_plane.py:185-187 | one leave per old child that is no longer rendered, in old order |
| Plane.MainPlane.RunPendingCull | presemt/screens/presentation_plane.py:171-187 | a pending trigger runs one cull and clears the flag; with none pending nothing changes |
| Plane.MainPlane.AddWidget | presemt/screens/presentation_plane.py:189-194 | the child goes in front of both lists, other elements unchanged, and a cull is scheduled |
| Plane.MainPlane.RemoveWidget | presemt/screens/presentation_plane.py:196-199 | the error says which list lacked the child; each list loses the child only where the source got that far; a cull is scheduled only on success |
| Plane.MainPlane.ClearWidgets | presemt/screens/presentation_plane.py:201-203 | both lists become empty |
| Plane.MainPlane.TransformWith | presemt/screens/presentation_plane.py:159-161 | schedules a cull and forwards the touch to the scatter transform |
| Plane.MainPlane.OnTouchDown | presemt/screens/presentation_plane.py:59-80 | children are offered the touch only when unlocked; after the plane grabs it, a double tap sets the selection points, otherwise the touch joins list and map together; always handled, lockstep kept |
| Plane.MainPlane.OnTouchMove | presemt/screens/presentation_plane.py:82-104 | the plane's own grabbed touch extends the selection and asks for `update_select` on a double tap, scheduling no cull, or transforms and updates its last position when tracked; otherwise nothing but the offer; always handled, lockstep kept |
| Plane.MainPlane.OnTouchUp | presemt/screens/presentation_plane.py:106-124 | a tracked touch in grab state is ungrabbed and leaves list and map together; otherwise neither changes; always handled, lockstep kept |
| Plane.CullTwice | presemt/screens/presentation_plane.py:171-187 | two culls with nothing in between render and log exactly what one cull does |
| Objects.InBoxByDistance | presemt/screens/presentation_objects.py:27-31 | `collide_point` holds iff the local point is within half the width and half the height of the centre |
| Objects.InBoxSymmetric | presemt/screens/presentation_objects.py:29-31 | the box is symmetric about the object's centre |
| Objects.InBoxCorners | presemt/screens/presentation_objects.py:29-31 | the box is closed: its four corners collide |
| Objects.Max3 | presemt/screens/presentation_objects.py:76 | `max(1, w, h)` bounds all three and is one of them |
| Objects.AutoFitScale | presemt/screens/presentation_objects.py:76 | the auto-fit scale is at most 1, keeps the largest on-plane extent within 640, and reaches 640 exactly whenever it is below 1; it is positive for a positive plane scale and negative for a negative one |
| Objects.FitTimesExtent | presemt/screens/presentation_objects.py:76 | `1/(m/(640/s))` times `s*m` is 640, and the fit has the sign of `s` |
| Objects.InBox | presemt/screens/presentation_objects.py:29-31 | the closed box test; its meaning is stated by `InBoxByDistance`, `InBoxSymmetric` and `InBoxCorners` |
| Objects.PlaneObject.CollidePoint | presemt/screens/presentation_objects.py:27-31 | `collide_point` on the point already mapped by `to_local`: the box of the object's current width and height |
| Objects.PlaneObject.constructor | presemt/screens/presentation_objects.py:15-21 | with `touch_follow`, the touch records the object as `scatter_follow` and is grabbed by it; its position, double-tap flag, `grab_current` and `grab_state` are unchanged |
| Objects.PlaneObject.OnTransform | presemt/screens/presentation_objects.py:23-25 | a transform change calls `set_dirty` exactly when `ctrl` is set and changes nothing else |
| Objects.PlaneObject.OnTouchDown | presemt/screens/presentation_objects.py:33-40 | a double-tap hit calls only `remove_object` and is handled; a plain hit calls `configure_object` then delegates; a miss only delegates, with or without a controller; a hit without a controller is the AttributeError |
| Objects.PlaneObject.OnTouchMove | presemt/screens/presentation_objects.py:42-46 | `pos` follows the touch only when this object is `grab_current` and the touch carries `scatter_follow`; the result is the scatter's |
| Objects.PlaneObject.OnSize | presemt/screens/presentation_objects.py:73-76 | an unchanged size does nothing; on a real change a media object with `do_adjust` takes the auto-fit scale, fails without a controller or on a zero plane scale (scale kept), and every other object keeps its scale |
| Slides.StripAlpha | presemt/screens/presentation_slides.py:76-78 | `del tmp[3::4]`: one byte in four is dropped |
| Slides.StripAlphaAt | presemt/screens/presentation_slides.py:77 | output byte `m` is input byte `m + m/3` |
| Slides.StripAlphaPixels | presemt/screens/presentation_slides.py:76-78 | a 4n-byte buffer gives 3n bytes with `out[3k+j] == in[4k+j]` for `j < 3` |
| Slides.StripAlphaKeeps | presemt/screens/presentation_slides.py:77 | every byte at an index not congruent to 3 mod 4 survives, at its index minus the number of alpha bytes before it |
| Slides.Slide.constructor | presemt/screens/presentation_slides.py:22-38 | a given thumb is uploaded as the texture, otherwise a capture is taken; `ctrl.is_edit` is restored |
| Slides.NewSlide | presemt/screens/presentation_slides.py:24-25 | without a `thumb` keyword construction fails and nothing is called |
| Slides.Slide.OnPress | presemt/screens/presentation_slides.py:40-44 | exactly one call: `remove_slide` on a double tap, `select_slide` otherwise |
| Slides.Slide.UpdateCapture | presemt/screens/presentation_slides.py:46-66 | the main capture is drawn with edit mode off, `is_edit` is restored, `set_dirty` is called, the texture is the fbo's 160x120 one, and `thumb` is cleared |
| Slides.Slide.DownloadThumb | presemt/screens/presentation_slides.py:68-79 | a set thumb is kept (the call is idempotent); otherwise the thumb becomes (160, 120, read-back bytes without alpha) |
| Slides.Slide.UploadThumb | presemt/screens/presentation_slides.py:81-87 | the texture is built from the thumb's size and pixels, and takes its size |
| Behaviours.ButtonBehavior.constructor | presemt/behaviours.py:15-27 | not hovering, no grab, no touch |
| Behaviours.ButtonBehavior.OnTouchDown | presemt/behaviours.py:35-43 | a miss changes nothing and returns None; a hit grabs the touch, sets `is_hover` and `button_touch`, dispatches `on_press` and returns `button_grab` |
| Behaviours.ButtonBehavior.OnTouchUp | presemt/behaviours.py:45-52 | ignored unless this is `grab_current`; then ungrab, clear `is_hover` and `button_touch`, dispatch `on_release`, return `button_grab` |
| Behaviours.HoverBehavior.constructor | presemt/behaviours.py:61-71 | not hovering, no tracked touch |
| Behaviours.HoverBehavior.OnTouchDown | presemt/behaviours.py:73-82 | ignored while a touch is tracked or on a miss; otherwise grab, track the touch, set `is_hover`, return `hover_grab` |
| Behaviours.HoverBehavior.OnTouchMove | presemt/behaviours.py:84-88 | on the grabbed touch `is_hover` becomes the collision result; other touches are ignored |
| Behaviours.HoverBehavior.OnTouchUp | presemt/behaviours.py:90-96 | on the grabbed touch: ungrab, stop hovering, forget the touch |
| Behaviours.HoverTracksOneTouch | presemt/behaviours.py:74-80 | a second touch-down while one is tracked leaves the first tracked |
| Documents.NewObject | presemt/document.py:52-59 | construction succeeds iff every key is a common or class attribute; a failure is the non-allowed-attributes error |
| Documents.Created | presemt/document.py:112-128 | a created object has the caller's attributes plus `dtype` set to the kind's name |
| Documents.Build | presemt/document.py:99-100 | an object loads iff its `dtype` is a registered string and its keys are whitelisted for that class, and then it is that class with those attributes; a missing `dtype`, an unregistered one and an attribute outside the whitelist (the exception of `__init__`) are three distinct errors |
| Documents.CreatedLoadsBack | presemt/document.py:99-147 | an object made by `create_*` loads back as itself through the default registry |
| Documents.LoadObjectsPrefix | presemt/document.py:99-101 | `load` keeps the objects before the first failure, all of them when none fails, and reports that failure |
| Documents.RemoveSlideFrom | presemt/document.py:138-139 | the first equal slide is removed, the others keep their order, and the multiset loses one copy; none equal is an error, and so is a store that is not a list |
| Documents.AppendSlide | presemt/document.py:135 | `_slides.append`: the list grows by the slide; the dict left by the source's `clear_slides` fails (see `ClearAsWrittenBreaksSlides`) |
| Documents.ClearedSlidesAsWritten | presemt/document.py:141-142 | the source's `{}`; `ClearAsWrittenBreaksSlides` states what it breaks |
| Documents.ClearedSlides | presemt/document.py:141-142 | the corrected empty list; `ClearThenAddSlide` states that slides work after it |
| Documents.LoadObjects | presemt/document.py:99-101 | the object loop of `load`; `LoadObjectsPrefix` states which objects it keeps and which error it reports |
| Documents.ClearAsWrittenBreaksSlides | presemt/document.py:141-142 | after the source's `clear_slides`, both adding and removing a slide fail |
| Documents.ClearThenAddSlide | presemt/document.py:130-142 | after the corrected `clear_slides`, adding a slide gives a one-slide list and removing one reports it missing |
| Documents.Registry.constructor | presemt/document.py:144-147 | the default table maps `text`, `image` and `video` to their classes |
| Documents.Registry.Register | presemt/document.py:89-91 | `register` overwrites the entry for the name and nothing else |
| Documents.Document.constructor | presemt/document.py:80-87 | version 1, both timestamps, size (100, 100), empty object and slide lists |
| Documents.Document.CreateObject | presemt/document.py:112-128 | on success exactly one object is appended, the rest unchanged; on a whitelist error nothing is appended |
| Documents.Document.CreateText | presemt/document.py:112-116 | `create_text` as above with `dtype` `text` |
| Documents.Document.CreateImage | presemt/document.py:118-122 | `create_image` as above with `dtype` `image` |
| Documents.Document.CreateVideo | presemt/document.py:124-128 | `create_video` as above with `dtype` `video` |
| Documents.Document.AddSlide | presemt/document.py:130-136 | one slide carrying exactly `pos`, `rotation` and `scale` is appended and returned |
| Documents.Document.RemoveSlide | presemt/document.py:138-139 | succeeds iff an equal slide exists, and then removes the first one |
| Documents.Document.ClearSlides | presemt/document.py:141-142 | the slides become an empty list (the corrected behaviour) |
| Documents.Document.Load | presemt/document.py:93-101 | the infos are updated, every slide is appended, then the objects are appended up to the first one that fails: no `dtype`, an unregistered `dtype`, or an attribute outside its class's whitelist |
| Documents.Document.AppendSlides | presemt/document.py:97-98 | every parsed slide is appended in order |
| Documents.Document.AppendObjects | presemt/document.py:99-101 | the object loop appends exactly what `LoadObjects` keeps and reports its error |
| Capture.ThumbExtentZeroHeight | presemt/fbocapture.py:31 | a zero height fails on the division |
| Capture.ThumbExtentBounds | presemt/fbocapture.py:30-40 | for a real size the rule succeeds, both edges lie in [1, 160], and the long edge is exactly 160 |
| Capture.ThumbExtentProportional | presemt/fbocapture.py:31-40 | the short edge is `floor(max(1, 160 * short / long))` |
| Capture.FboCapture.constructor | presemt/fbocapture.py:13-27 | the fbos take the default widget size and the default thumb size (50, 50) |
| Capture.FboCapture.OnSize | presemt/fbocapture.py:29-44 | `thumb_size` becomes the extent rule's result, the thumb fbo follows it, and the fbo and its rectangle take the new size; a failed division changes nothing else; an unchanged size does nothing, as Kivy fires `on_size` only on a change |
| Capture.ThumbExtent | presemt/fbocapture.py:29-40 | the `thumb_size` rule with its two division errors; stated by `ThumbExtentZeroHeight`, `ThumbExtentBounds` and `ThumbExtentProportional` |
| Capture.FboCapture.OnThumbSize | presemt/fbocapture.py:46-48 | the thumb fbo and its rectangle take the value |
| Capture.FboCapture.AddWidget | presemt/fbocapture.py:51-54 | the child is inserted at index 0 |
| Capture.FboCapture.RemoveWidget | presemt/fbocapture.py:56-58 | the first equal child is removed; failure exactly when it is absent |
| Panel.PrefixUnprefix | presemt/screens/presentation_panel.py:18-19 | `prefix` keeps length and order; each pattern is `*.` followed by the extension |
| Panel.PrefixConcat | presemt/screens/presentation_panel.py:18-88 | `prefix` distributes over concatenation |
| Panel.LocalFileTypes | presemt/screens/presentation_panel.py:84-88 | `imgtypes` is `prefix` of the image extensions, `suptypes` is `imgtypes` followed by `vidtypes`, and the video patterns are `*.avi`, `*.mpg`, `*.mpeg` |
| Panel.Prefix | presemt/screens/presentation_panel.py:18-19 | the `prefix` comprehension; `PrefixUnprefix` and `PrefixConcat` state its meaning |
| Panel.IsSpace | presemt/screens/presentation_panel.py:69 | the whitespace `strip` removes: Python 2's `unicode.isspace` |
| Panel.Strip | presemt/screens/presentation_panel.py:69 | `strip()` as `rstrip` after `lstrip`; stated by `StripIsTrimmedSlice`, `StripEnds`, `StripEmptyIffBlank` and `StripIdempotent` |
| Panel.TrimStart | presemt/screens/presentation_panel.py:69 | `lstrip` returns a suffix not starting with whitespace, and only whitespace is cut |
| Panel.TrimEnd | presemt/screens/presentation_panel.py:69 | `rstrip` returns a prefix not ending with whitespace, and only whitespace is cut |
| Panel.StripIsTrimmedSlice | presemt/screens/presentation_panel.py:69 | the stripped text is a slice of the input with only whitespace removed on either side |
| Panel.StripEnds | presemt/screens/presentation_panel.py:69 | non-empty stripped text neither starts nor ends with whitespace |
| Panel.StripEmptyIffBlank | presemt/screens/presentation_panel.py:69-72 | the text strips to nothing iff it is all whitespace |
| Panel.StripIdempotent | presemt/screens/presentation_panel.py:69 | stripping twice is stripping once |
| Panel.TextStackEntry.constructor | presemt/screens/presentation_panel.py:73 | the entry carries the text, the controller and the panel it was made with |
| Panel.TextPanel.constructor | presemt/screens/presentation_panel.py:60-66 | an empty input and an empty stack |
| Panel.TextStackEntry.OnTouchDown | presemt/screens/presentation_panel.py:46-51 | children come first; otherwise a collision calls `create_text` with the entry's text and the touch; handled iff either happened |
| Panel.TextPanel.AddText | presemt/screens/presentation_panel.py:68-75 | the input is always cleared; blank input changes nothing else; otherwise one fresh entry with the stripped text goes on the stack and one `create_text` call is made |

## Left out

- Kivy graphics are not modelled: fbo drawing and binding, `glReadPixels`, texture creation and `blit_buffer`, canvas add and remove, `child.parent`, and the grid (`fill_grid`, which returns at once). A capture draw is one logged call, and the read-back bytes are a parameter.
- Scatter geometry (`to_local`, `to_parent`, `to_window`, `Vector.distance`, the body of `transform_with_touch`) is library float code. Its results are parameters, and `is_visible` is modelled over the distances it compares, as a real-valued test.
- Clock triggers are a `cullPending` flag that the `RunPendingCull` method consumes. When the cull actually runs is not modelled.
- Controller methods (`set_dirty`, `remove_object`, `configure_object`, `remove_slide`, `select_slide`, `create_text`, `update_select`) are logged calls. Their bodies are not part of this model.
- `touch.push`, `apply_transform_2d` and `pop` are not modelled. The offer of a touch to the children is a logged call that carries only the touch, not its local coordinates.
- Kivy's per-touch grab list is a set of grabbers. `ungrab` then `grab` leaves one entry, as in Kivy, but Kivy's list also moves that entry to the end, which changes the order of grabbed dispatches; the set does not record that order.
- Plane.MainPlane.OnTouchDown: requires that the touch is not yet tracked. Kivy delivers one touch-down per touch, and the lockstep between list and map depends on it.
- Objects.PlaneObject.OnTouchMove, Objects.PlaneObject.OnSize: setting `pos`, or `scale` in a refit, does not chain into the transform observer; the `set_dirty` call that Kivy's `transform` binding makes then is a separate event the framework fires (`OnTransform`), so the refit itself logs nothing.
- Objects.PlaneObject.constructor: Scatter's keyword arguments are not modelled; the object starts at pos (0, 0), size 100x100, scale 1 and `do_adjust` false, where the source lets the caller override any of them.
- Capture.ThumbExtent, Capture.ThumbExtentProportional, Capture.FboCapture.OnSize, Objects.AutoFitScale, Objects.FitTimesExtent, Objects.PlaneObject.OnSize: compute over exact reals, not IEEE doubles. When 160 times the short edge over the long edge is an integer, the source's rounded division can land just below it and `int()` truncates one lower: a (40, 29) size gives thumb_size (160, 115) in the source and (160, 116) here. Likewise the auto-fit bound "at most 640, and exactly 640 when shrunk" holds over the reals only; the doubles give 640.0000000000001 at plane scale 3 with extent 700.
- Document `save`, JSON parsing and file I/O are not modelled; `Load` takes the parsed document. `time()` readings are constructor parameters.
- Constructing a bare `DocumentObject` is not modelled, because `super(self.__class__, self).__attrs__` only resolves for its subclasses.
- Panel.TextStackEntry.OnTouchDown: the source's implicit `None` on a miss is `false`.
- Panel.IsSpace: the characters Python 2's `unicode.isspace` accepts in the Basic Multilingual Plane, as a fixed list rather than a Unicode database lookup.
- Documents.RemoveSlideFrom and Documents.Document.RemoveSlide compare slides by structural equality of `Value`s, not Python's `==`: Python treats `1`, `1.0` and `True` as equal, and a tuple never equals a list (which JSON `load` yields), while the model has one `Tuple` constructor for both. A slide that differs from a stored one only in those ways is found by Python but reported missing here.
- `SUPPORTED_IMG` is built at run time from Kivy's image loaders, so it is a parameter of `LocalFileTypes`.
- The `Panel` base class's `on_open` and `on_close` events, `ImageButton`, and the `user_path` choice are UI glue with no state to model.
- presemt/screens/project.py, presemt/screens/presentation.py and presemt/main.py (screens, app bootstrap, file listing) are not part of this model.

## Findings

| source | as written | input that shows it | evidently intended | confidence | as-written member | corrected member |
|---|---|---|---|---|---|---|
| presemt/document.py:141-142 | `clear_slides` sets `self._slides = {}`, an empty dict | `clear_slides()` then `add_slide(pos, rotation, scale)`: a dict has no `append`, so the call raises; `remove_slide` fails the same way | an empty list, `[]`, as `__init__` sets at line 87 | high, not executed | Documents.ClearAsWrittenBreaksSlides | Documents.ClearThenAddSlide |
