/** The controller (`ctrl`) the widgets call into. Its own behaviour is not
    part of this model: every call is appended to a log, and only the fields
    the widgets read or write are kept. */
module Controller {
  import opened Touches

  datatype Call =
    | SetDirty
    | RemoveObject(obj: object)
    | ConfigureObject(obj: object)
    | RemoveSlide(slide: object)
    | SelectSlide(slide: object)
    | CreateText(text: string, touch: Touch?)
    | UpdateSelect
      /** The main capture fbo was redrawn; `isEdit` is the edit flag seen by that draw. */
    | CaptureDrawn(isEdit: bool)

  class Controller {
    var calls: seq<Call>
    var isEdit: bool
    var selectionPoints: seq<real>
    /** `ctrl.plane.scale`. */
    var planeScale: real

    constructor (isEdit: bool, planeScale: real)
      ensures calls == [] && selectionPoints == []
      ensures this.isEdit == isEdit && this.planeScale == planeScale
    {
      calls := [];
      this.isEdit := isEdit;
      selectionPoints := [];
      this.planeScale := planeScale;
    }

    method Record(c: Call)
      modifies this`calls
      ensures calls == old(calls) + [c]
    {
      calls := calls + [c];
    }
  }
}
