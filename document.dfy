/** The in-memory document (document.py): objects checked against an
    attribute whitelist, tagged with their `dtype` and appended; slides on a
    list; the name-to-class registry used when loading. JSON parsing, files
    and `time()` are outside: `load` receives the parsed structure and the
    clock readings are parameters. */
module Documents {
  import opened Wrappers
  import opened Lists

  /** A JSON-like attribute value. */
  datatype Value = Int(i: int) | Num(x: real) | Str(s: string) | Flag(b: bool) | Tuple(items: seq<Value>)

  type Attrs = map<string, Value>

  /** The three `DocumentObject` subclasses. */
  datatype Kind = TextKind | ImageKind | VideoKind

  datatype DocError =
    | NotAllowedAttributes
    | MissingDtype
    | UnregisteredDtype(dtype: Value)
    | SlideNotFound
    | SlidesNotAList

  /** `DocumentObject.__attrs__`, allowed for every object. */
  const CommonAttrs: set<string> := {"pos", "size", "rotation", "scale", "dtype"}

  /** The subclass's own `__attrs__`. */
  function KindAttrs(k: Kind): set<string>
  {
    match k
    case TextKind => {"text", "bold", "color", "font_name", "font_size", "italic"}
    case ImageKind => {"source"}
    case VideoKind => {"source"}
  }

  function AllowedAttrs(k: Kind): set<string>
  {
    KindAttrs(k) + CommonAttrs
  }

  /** The keys the constructor's comprehension collects. */
  function Disallowed(k: Kind, attrs: Attrs): set<string>
  {
    set x | x in attrs.Keys && x !in AllowedAttrs(k)
  }

  datatype DocObject = DocObject(kind: Kind, attrs: Attrs)

  /** `DocumentObject.__init__`: raises when any key is outside the
      subclass's attributes and the common ones. */
  function NewObject(k: Kind, attrs: Attrs): (r: Result<DocObject, DocError>)
    ensures r.Success? <==> attrs.Keys <= AllowedAttrs(k)
    ensures r.Success? ==> r.value.kind == k && r.value.attrs == attrs
    ensures r.Failure? ==> r.error == NotAllowedAttributes
  {
    if Disallowed(k, attrs) == {} then Success(DocObject(k, attrs))
    else Failure(NotAllowedAttributes)
  }

  /** The `dtype` tag `create_*` writes. */
  function DtypeName(k: Kind): string
  {
    match k
    case TextKind => "text"
    case ImageKind => "image"
    case VideoKind => "video"
  }

  /** `create_text` / `create_image` / `create_video` without the append:
      validate, then set `dtype`. */
  function Created(k: Kind, attrs: Attrs): (r: Result<DocObject, DocError>)
    ensures r.Success? <==> attrs.Keys <= AllowedAttrs(k)
    ensures r.Success? ==> r.value.kind == k && r.value.attrs.Keys == attrs.Keys + {"dtype"}
    ensures r.Success? ==> r.value.attrs["dtype"] == Str(DtypeName(k))
    ensures r.Success? ==> forall a :: a in attrs && a != "dtype" ==> r.value.attrs[a] == attrs[a]
  {
    match NewObject(k, attrs)
    case Success(o) => Success(DocObject(k, o.attrs["dtype" := Str(DtypeName(k))]))
    case Failure(e) => Failure(e)
  }

  /** The module-level registrations: `text`, `image`, `video`. */
  function DefaultRegistry(): map<string, Kind>
  {
    map["text" := TextKind, "image" := ImageKind, "video" := VideoKind]
  }

  /** One object of `load`: look the class up by `dtype`, then construct it. */
  function Build(available: map<string, Kind>, obj: Attrs): (r: Result<DocObject, DocError>)
    ensures r.Success? ==> "dtype" in obj && obj["dtype"].Str? && obj["dtype"].s in available
    ensures r.Success? ==> r.value == DocObject(available[obj["dtype"].s], obj)
    ensures r.Success? <==>
      && "dtype" in obj && obj["dtype"].Str? && obj["dtype"].s in available
      && obj.Keys <= AllowedAttrs(available[obj["dtype"].s])
    ensures "dtype" !in obj ==> r == Failure(MissingDtype)
    ensures "dtype" in obj && !(obj["dtype"].Str? && obj["dtype"].s in available) ==>
      r == Failure(UnregisteredDtype(obj["dtype"]))
    ensures
      && "dtype" in obj && obj["dtype"].Str? && obj["dtype"].s in available
      && !(obj.Keys <= AllowedAttrs(available[obj["dtype"].s]))
      ==> r == Failure(NotAllowedAttributes)
  {
    if "dtype" !in obj then Failure(MissingDtype)
    else if !obj["dtype"].Str? || obj["dtype"].s !in available then Failure(UnregisteredDtype(obj["dtype"]))
    else NewObject(available[obj["dtype"].s], obj)
  }

  /** Rebuilding a created object's attributes through the default
      registry gives the same object. */
  lemma CreatedLoadsBack(k: Kind, attrs: Attrs)
    requires Created(k, attrs).Success?
    ensures Build(DefaultRegistry(), Created(k, attrs).value.attrs) == Created(k, attrs)
  {
    var o := Created(k, attrs).value;
    assert o.attrs.Keys <= AllowedAttrs(k);
    assert DefaultRegistry()[DtypeName(k)] == k;
  }

  /** The objects `load` appends before it stops, and the error it stops
      with, if any. */
  function LoadObjects(available: map<string, Kind>, objs: seq<Attrs>): (seq<DocObject>, Option<DocError>)
  {
    if objs == [] then ([], None)
    else
      match Build(available, objs[0])
      case Failure(e) => ([], Some(e))
      case Success(o) =>
        var rest := LoadObjects(available, objs[1..]);
        ([o] + rest.0, rest.1)
  }

  /** `load` keeps a prefix of the objects: all of them when no error
      occurs, else those before the first failing one, whose error is the
      one reported. Every loaded object has the class registered under its
      string `dtype`. */
  lemma {:induction false} LoadObjectsPrefix(available: map<string, Kind>, objs: seq<Attrs>)
    ensures var (loaded, err) := LoadObjects(available, objs);
      && |loaded| <= |objs|
      && (err.None? <==> |loaded| == |objs|)
      && (err.Some? ==> Build(available, objs[|loaded|]) == Failure(err.value))
      && (forall i :: 0 <= i < |loaded| ==>
            Build(available, objs[i]) == Success(loaded[i]) &&
            "dtype" in loaded[i].attrs && loaded[i].attrs["dtype"].Str? &&
            available[loaded[i].attrs["dtype"].s] == loaded[i].kind)
  {
    if objs != [] {
      LoadObjectsPrefix(available, objs[1..]);
      match Build(available, objs[0])
      case Failure(e) =>
      case Success(o) =>
        var rest := LoadObjects(available, objs[1..]);
        var loaded := [o] + rest.0;
        assert LoadObjects(available, objs) == (loaded, rest.1);
        forall i | 1 <= i < |loaded|
          ensures Build(available, objs[i]) == Success(loaded[i])
        {
          assert objs[i] == objs[1..][i - 1] && loaded[i] == rest.0[i - 1];
        }
        if rest.1.Some? {
          assert objs[|loaded|] == objs[1..][|rest.0|];
        }
    }
  }

  /** `_slides`: a list, or the empty dict `clear_slides` leaves behind. */
  datatype SlideStore = SlideList(items: seq<Attrs>) | SlideDict

  /** `_slides.append(slide)`: a dict has no `append`. */
  function AppendSlide(store: SlideStore, slide: Attrs): Result<SlideStore, DocError>
  {
    match store
    case SlideList(items) => Success(SlideList(items + [slide]))
    case SlideDict => Failure(SlidesNotAList)
  }

  /** `_slides.remove(slide)`: the first equal slide goes; none is an error. */
  function RemoveSlideFrom(store: SlideStore, slide: Attrs): (r: Result<SlideStore, DocError>)
    ensures store.SlideList? && slide in store.items ==>
      r.Success? && r.value.SlideList? && |r.value.items| == |store.items| - 1 &&
      multiset(r.value.items) == multiset(store.items) - multiset{slide} &&
      r.value.items == store.items[..IndexOf(store.items, slide)] + store.items[IndexOf(store.items, slide) + 1..]
    ensures store.SlideList? && slide !in store.items ==> r == Failure(SlideNotFound)
    ensures store.SlideDict? ==> r.Failure?
  {
    match store
    case SlideList(items) =>
      if slide in items then
        RemoveFirstMultiset(items, slide);
        RemoveFirstAt(items, slide);
        Success(SlideList(RemoveFirst(items, slide)))
      else Failure(SlideNotFound)
    case SlideDict => Failure(SlidesNotAList)
  }

  /** `clear_slides` as written: `self._slides = {}`. */
  function ClearedSlidesAsWritten(): SlideStore
  {
    SlideDict
  }

  /** `clear_slides` as intended: an empty list. */
  function ClearedSlides(): SlideStore
  {
    SlideList([])
  }

  /** As written, every later `add_slide` or `remove_slide` fails. */
  lemma ClearAsWrittenBreaksSlides(slide: Attrs)
    ensures AppendSlide(ClearedSlidesAsWritten(), slide).Failure?
    ensures RemoveSlideFrom(ClearedSlidesAsWritten(), slide).Failure?
  {
  }

  /** As intended, slides can be added after a clear, and removing one not
      present is the ordinary not-found error. */
  lemma ClearThenAddSlide(slide: Attrs)
    ensures AppendSlide(ClearedSlides(), slide) == Success(SlideList([slide]))
    ensures RemoveSlideFrom(ClearedSlides(), slide) == Failure(SlideNotFound)
  {
    assert [] + [slide] == [slide];
  }

  /** `Document.available_objects`, shared by all documents. */
  class Registry {
    var available: map<string, Kind>

    constructor ()
      ensures available == DefaultRegistry()
    {
      available := DefaultRegistry();
    }

    /** `register`: (re)bind `name`. */
    method Register(name: string, k: Kind)
      modifies this`available
      ensures available == old(available)[name := k]
    {
      available := available[name := k];
    }
  }

  /** A parsed document file: its `document`, `slides` and `objects` parts. */
  datatype Parsed = Parsed(document: Attrs, slides: seq<Attrs>, objects: seq<Attrs>)

  class Document {
    var infos: Attrs
    var objects: seq<DocObject>
    var slides: SlideStore

    ghost predicate Valid()
      reads this
    {
      slides.SlideList?
    }

    /** `__init__`: version 1, size (100, 100), the two creation-time clock
        readings, no objects and no slides. */
    constructor (timeCreation: real, timeModification: real)
      ensures Valid()
      ensures infos == map["version" := Int(1), "time_creation" := Num(timeCreation),
                           "time_modification" := Num(timeModification),
                           "size" := Tuple([Int(100), Int(100)])]
      ensures objects == [] && slides == SlideList([])
    {
      infos := map["version" := Int(1), "time_creation" := Num(timeCreation),
                   "time_modification" := Num(timeModification),
                   "size" := Tuple([Int(100), Int(100)])];
      objects := [];
      slides := SlideList([]);
    }

    /** The shared body of the three `create_*` methods: on success exactly
        one object is appended and returned; on failure nothing changes. */
    method CreateObject(k: Kind, attrs: Attrs) returns (r: Result<DocObject, DocError>)
      modifies this`objects
      ensures r == Created(k, attrs)
      ensures objects == if r.Success? then old(objects) + [r.value] else old(objects)
    {
      r := Created(k, attrs);
      if r.Success? {
        objects := objects + [r.value];
      }
    }

    method CreateText(attrs: Attrs) returns (r: Result<DocObject, DocError>)
      modifies this`objects
      ensures r == Created(TextKind, attrs)
      ensures objects == if r.Success? then old(objects) + [r.value] else old(objects)
    {
      r := CreateObject(TextKind, attrs);
    }

    method CreateImage(attrs: Attrs) returns (r: Result<DocObject, DocError>)
      modifies this`objects
      ensures r == Created(ImageKind, attrs)
      ensures objects == if r.Success? then old(objects) + [r.value] else old(objects)
    {
      r := CreateObject(ImageKind, attrs);
    }

    method CreateVideo(attrs: Attrs) returns (r: Result<DocObject, DocError>)
      modifies this`objects
      ensures r == Created(VideoKind, attrs)
      ensures objects == if r.Success? then old(objects) + [r.value] else old(objects)
    {
      r := CreateObject(VideoKind, attrs);
    }

    /** `add_slide`: append a slide holding exactly the given pose. */
    method AddSlide(pos: Value, rotation: Value, scale: Value) returns (slide: Attrs)
      requires Valid()
      modifies this`slides
      ensures Valid()
      ensures slide == map["pos" := pos, "rotation" := rotation, "scale" := scale]
      ensures slides.items == old(slides.items) + [slide]
    {
      slide := map["pos" := pos, "rotation" := rotation, "scale" := scale];
      slides := AppendSlide(slides, slide).value;
    }

    /** `remove_slide`: the first equal slide is removed; none is an error. */
    method RemoveSlide(slide: Attrs) returns (r: Option<DocError>)
      requires Valid()
      modifies this`slides
      ensures Valid()
      ensures r.None? <==> slide in old(slides.items)
      ensures r.Some? ==> r.value == SlideNotFound
      ensures slides.items == RemoveFirst(old(slides.items), slide)
    {
      var res := RemoveSlideFrom(slides, slide);
      if res.Success? {
        slides := res.value;
        return None;
      }
      return Some(res.error);
    }

    /** `clear_slides`, as intended (see `ClearedSlidesAsWritten`). */
    method ClearSlides()
      modifies this`slides
      ensures Valid() && slides == ClearedSlides()
    {
      slides := ClearedSlides();
    }

    /** `load` on an already parsed file: merge the document infos, append
        the slides, then build and append objects until one fails. */
    method Load(j: Parsed, registry: Registry) returns (err: Option<DocError>)
      requires Valid()
      modifies this`infos, this`slides, this`objects
      ensures Valid()
      ensures infos == old(infos) + j.document
      ensures slides.items == old(slides.items) + j.slides
      ensures objects == old(objects) + LoadObjects(registry.available, j.objects).0
      ensures err == LoadObjects(registry.available, j.objects).1
    {
      infos := infos + j.document;
      AppendSlides(j.slides);
      err := AppendObjects(registry.available, j.objects);
    }

    /** The slide loop of `load`. */
    method AppendSlides(loaded: seq<Attrs>)
      requires Valid()
      modifies this`slides
      ensures Valid() && slides.items == old(slides.items) + loaded
    {
      var i := 0;
      while i < |loaded|
        invariant 0 <= i <= |loaded|
        invariant slides == SlideList(old(slides.items) + loaded[..i])
      {
        assert loaded[..i + 1] == loaded[..i] + [loaded[i]];
        slides := AppendSlide(slides, loaded[i]).value;
        i := i + 1;
      }
      assert loaded[..i] == loaded;
    }

    /** The object loop of `load`: stops at the first object that cannot
        be built, keeping those appended before it. */
    method AppendObjects(available: map<string, Kind>, objs: seq<Attrs>) returns (err: Option<DocError>)
      modifies this`objects
      ensures objects == old(objects) + LoadObjects(available, objs).0
      ensures err == LoadObjects(available, objs).1
    {
      var k := 0;
      ghost var done: seq<DocObject> := [];
      assert objs[0..] == objs;
      assert done + LoadObjects(available, objs).0 == LoadObjects(available, objs).0;
      while k < |objs|
        invariant 0 <= k <= |objs|
        invariant objects == old(objects) + done
        invariant LoadObjects(available, objs) ==
          (done + LoadObjects(available, objs[k..]).0, LoadObjects(available, objs[k..]).1)
      {
        assert objs[k..][1..] == objs[k + 1..];
        var b := Build(available, objs[k]);
        if b.Failure? {
          return Some(b.error);
        }
        ghost var rest := LoadObjects(available, objs[k + 1..]);
        assert LoadObjects(available, objs[k..]) == ([b.value] + rest.0, rest.1);
        assert done + ([b.value] + rest.0) == (done + [b.value]) + rest.0;
        objects := objects + [b.value];
        done := done + [b.value];
        k := k + 1;
      }
      return None;
    }
  }
}
