/** The side panels (presentation_panel.py): the file-pattern helper used by
    the local file panel, and the text panel whose input becomes stack
    entries and `create_text` calls. */
module Panel {
  import opened Touches
  import opened Controller

  /** `prefix`: each extension becomes a glob pattern. */
  function Prefix(exts: seq<string>): seq<string>
  {
    seq(|exts|, i requires 0 <= i < |exts| => "*." + exts[i])
  }

  /** Prefix keeps length and order, every pattern starts with "*." and
      dropping those two characters gives the extension back. */
  lemma PrefixUnprefix(exts: seq<string>)
    ensures |Prefix(exts)| == |exts|
    ensures forall i :: 0 <= i < |exts| ==>
      Prefix(exts)[i][..2] == "*." && Prefix(exts)[i][2..] == exts[i]
  {
    forall i | 0 <= i < |exts|
      ensures Prefix(exts)[i][..2] == "*." && Prefix(exts)[i][2..] == exts[i]
    {
      var p := Prefix(exts)[i];
      assert p == "*." + exts[i];
      assert p[..2] == "*.";
      assert p[2..] == exts[i];
    }
  }

  /** Prefix distributes over concatenation. */
  lemma PrefixConcat(a: seq<string>, b: seq<string>)
    ensures Prefix(a + b) == Prefix(a) + Prefix(b)
  {
    var l, r := Prefix(a + b), Prefix(a) + Prefix(b);
    assert |l| == |r|;
    forall i | 0 <= i < |l|
      ensures l[i] == r[i]
    {
      if i < |a| {
        assert (a + b)[i] == a[i];
      } else {
        assert (a + b)[i] == b[i - |a|];
      }
    }
  }

  /** `SUPPORTED_VID` of config.py; `SUPPORTED_IMG` comes from the image
      loaders Kivy has at run time and is a parameter here. */
  const SupportedVid: seq<string> := ["avi", "mpg", "mpeg"]

  /** The local file panel's filters. */
  datatype FileTypes = FileTypes(imgtypes: seq<string>, vidtypes: seq<string>, suptypes: seq<string>)

  function LocalFileTypes(supportedImg: seq<string>): (r: FileTypes)
    ensures r.imgtypes == Prefix(supportedImg)
    ensures r.suptypes == r.imgtypes + r.vidtypes
    ensures r.vidtypes == ["*.avi", "*.mpg", "*.mpeg"]
  {
    PrefixConcat(supportedImg, SupportedVid);
    assert Prefix(SupportedVid)[0] == "*." + "avi" == "*.avi";
    assert Prefix(SupportedVid)[1] == "*." + "mpg" == "*.mpg";
    assert Prefix(SupportedVid)[2] == "*." + "mpeg" == "*.mpeg";
    FileTypes(Prefix(supportedImg), Prefix(SupportedVid), Prefix(supportedImg + SupportedVid))
  }

  /** Python 2's `unicode.isspace` on a character (the text input holds
      unicode text). */
  predicate IsSpace(c: char)
  {
    var n := c as int;
    (9 <= n <= 13) || (28 <= n <= 32) || n == 0x85 || n == 0xA0 || n == 0x1680 || n == 0x180E ||
    (0x2000 <= n <= 0x200A) || n == 0x2028 || n == 0x2029 || n == 0x202F ||
    n == 0x205F || n == 0x3000
  }

  /** `lstrip()`: the suffix left after the leading whitespace. */
  function TrimStart(s: string): (r: string)
    ensures |r| <= |s| && r == s[|s| - |r|..]
    ensures forall i :: 0 <= i < |s| - |r| ==> IsSpace(s[i])
    ensures r != [] ==> !IsSpace(r[0])
    decreases |s|
  {
    if s != [] && IsSpace(s[0]) then TrimStart(s[1..]) else s
  }

  /** `rstrip()`: the prefix left before the trailing whitespace. */
  function TrimEnd(s: string): (r: string)
    ensures |r| <= |s| && r == s[..|r|]
    ensures forall i :: |r| <= i < |s| ==> IsSpace(s[i])
    ensures r != [] ==> !IsSpace(r[|r| - 1])
    decreases |s|
  {
    if s != [] && IsSpace(s[|s| - 1]) then TrimEnd(s[..|s| - 1]) else s
  }

  /** `strip()`. */
  function Strip(s: string): string
  {
    TrimEnd(TrimStart(s))
  }

  /** `s[i..j]` is `s` with only whitespace cut from either end. */
  ghost predicate TrimmedSlice(s: string, i: int, j: int)
  {
    && 0 <= i <= j <= |s|
    && (forall k :: 0 <= k < i ==> IsSpace(s[k]))
    && (forall k :: j <= k < |s| ==> IsSpace(s[k]))
  }

  /** The stripped text is a slice of the input with only whitespace cut on
      either side. */
  lemma StripIsTrimmedSlice(s: string)
    ensures exists i, j :: TrimmedSlice(s, i, j) && Strip(s) == s[i..j]
  {
    var t := TrimStart(s);
    var r := TrimEnd(t);
    var i := |s| - |t|;
    var j := i + |r|;
    assert r == s[i..j] by {
      assert t == s[i..];
      assert r == t[..|r|];
    }
    assert TrimmedSlice(s, i, j) by {
      forall k | j <= k < |s|
        ensures IsSpace(s[k])
      {
        assert s[k] == t[k - i];
      }
    }
  }

  /** The stripped text neither starts nor ends with whitespace. */
  lemma StripEnds(s: string)
    ensures Strip(s) != [] ==> !IsSpace(Strip(s)[0]) && !IsSpace(Strip(s)[|Strip(s)| - 1])
  {
    var t := TrimStart(s);
    if Strip(s) != [] {
      assert Strip(s)[0] == t[0];
    }
  }

  /** Only an input made entirely of whitespace strips to nothing. */
  lemma StripEmptyIffBlank(s: string)
    ensures Strip(s) == [] <==> forall k :: 0 <= k < |s| ==> IsSpace(s[k])
  {
    var t := TrimStart(s);
    if Strip(s) == [] {
      assert t == [];
    } else {
      var i := |s| - |t|;
      assert t == s[i..];
      assert Strip(s)[0] == t[0] == s[i];
      assert !IsSpace(s[i]);
    }
  }

  /** Stripping twice is stripping once. */
  lemma StripIdempotent(s: string)
    ensures Strip(Strip(s)) == Strip(s)
  {
    var r := Strip(s);
    StripEnds(s);
    if r != [] {
      assert TrimStart(r) == r;
      assert TrimEnd(r) == r;
    }
  }

  class TextStackEntry {
    const text: string
    const ctrl: Controller
    const panel: TextPanel

    constructor (text: string, ctrl: Controller, panel: TextPanel)
      ensures this.text == text && this.ctrl == ctrl && this.panel == panel
    {
      this.text := text;
      this.ctrl := ctrl;
      this.panel := panel;
    }

    /** `on_touch_down`: children first; otherwise a touch on the entry
        asks the controller for a text object under that touch. The
        source's implicit `None` is `false` here. */
    method OnTouchDown(touch: Touch, childrenHandled: bool, collides: bool) returns (handled: bool)
      modifies ctrl`calls
      ensures handled == (childrenHandled || collides)
      ensures ctrl.calls == old(ctrl.calls) +
        (if !childrenHandled && collides then [CreateText(text, touch)] else [])
    {
      if childrenHandled {
        return true;
      }
      if collides {
        ctrl.Record(CreateText(text, touch));
        return true;
      }
      return false;
    }
  }

  class TextPanel {
    /** `textinput.text`. */
    var inputText: string
    /** The children of `stack`, newest first as Kivy's `add_widget` inserts them. */
    var stack: seq<TextStackEntry>
    const ctrl: Controller

    constructor (ctrl: Controller)
      ensures this.ctrl == ctrl && inputText == "" && stack == []
    {
      this.ctrl := ctrl;
      inputText := "";
      stack := [];
    }

    /** `add_text`: clear the input; unless the stripped text is empty,
        push one entry carrying it and ask the controller for a text
        object. */
    method AddText()
      modifies this`inputText, this`stack, ctrl`calls
      ensures inputText == ""
      ensures Strip(old(inputText)) == [] ==>
        stack == old(stack) && ctrl.calls == old(ctrl.calls)
      ensures Strip(old(inputText)) != [] ==>
        |stack| == |old(stack)| + 1 && stack[1..] == old(stack) && fresh(stack[0]) &&
        stack[0].text == Strip(old(inputText)) && stack[0].ctrl == ctrl && stack[0].panel == this &&
        ctrl.calls == old(ctrl.calls) + [CreateText(Strip(old(inputText)), null)]
    {
      var text := Strip(inputText);
      inputText := "";
      if text == [] {
        return;
      }
      var entry := new TextStackEntry(text, ctrl, this);
      stack := [entry] + stack;
      ctrl.Record(CreateText(text, null));
    }
  }
}
