/** The attachment classifier (`get_attachment_type`): the kind of a file is
    decided by the lower-cased text after the last `.` of its name. */
module Classifier {
  import opened Json

  datatype Kind = Image | Audio | Video | File {
    /** The string the source returns for this kind. */
    function Name(): string {
      match this
      case Image => "image"
      case Audio => "audio"
      case Video => "video"
      case File => "file"
    }
  }

  /** The class tuple `allowed_attachments`: the names of the four kinds. */
  const AllowedTypes: seq<Value> := [Str("image"), Str("audio"), Str("video"), Str("file")]

  const ImageExtensions: set<string> := {"jpg", "jpeg", "gif", "png", "bmp", "tiff"}
  const AudioExtensions: set<string> := {"wav", "ogg", "mp3", "wma", "aiff", "3gp"}
  const VideoExtensions: set<string> :=
    {"webm", "flv", "ogv", "gifv", "avi", "mov", "qt", "wmv", "mpg", "mpeg", "mp4"}

  /** Lower-casing of one character (ASCII letters only). */
  function LowerChar(c: char): char {
    if 'A' <= c <= 'Z' then (c as int + 32) as char else c
  }

  function Lower(s: string): (r: string)
    ensures |r| == |s|
    ensures forall i :: 0 <= i < |s| ==> r[i] == LowerChar(s[i])
  {
    seq(|s|, i requires 0 <= i < |s| => LowerChar(s[i]))
  }

  /** `s.split(".")[-1]`: the text after the last dot, or all of `s` when it
      has no dot. */
  function Extension(s: string): (e: string)
    ensures '.' !in e
    ensures |e| <= |s| && e == s[|s| - |e|..]
    ensures |e| < |s| ==> s[|s| - |e| - 1] == '.'
    decreases |s|
  {
    if s == [] then []
    else if s[|s| - 1] == '.' then []
    else
      var init := s[..|s| - 1];
      var e' := Extension(init);
      assert s[|s| - |e'| - 1..] == init[|init| - |e'|..] + [s[|s| - 1]];
      e' + [s[|s| - 1]]
  }

  function ClassifyExtension(e: string): Kind {
    if e in ImageExtensions then Image
    else if e in AudioExtensions then Audio
    else if e in VideoExtensions then Video
    else File
  }

  /** The empty name has the empty extension, which names no kind. */
  lemma EmptyName()
    ensures ClassifyExtension(Extension(Lower(""))) == File
  {
    assert Extension(Lower("")) == "";
    assert ClassifyExtension("") == File;
  }

  /** Lower-casing one more character appends its lower-cased form. */
  lemma LowerSnoc(t: string, c: char)
    ensures Lower(t + [c]) == Lower(t) + [LowerChar(c)]
  {
  }

  /** One more character ends the extension at a dot or extends it. */
  lemma ExtensionSnoc(t: string, c: char)
    ensures Extension(t + [c]) == if c == '.' then [] else Extension(t) + [c]
  {
    var s := t + [c];
    assert s[..|s| - 1] == t;
  }

  /** Lower-casing commutes with taking the extension: a character is a dot
      exactly when its lower-cased form is. */
  lemma {:induction false} ExtensionOfLower(s: string)
    ensures Extension(Lower(s)) == Lower(Extension(s))
    decreases |s|
  {
    if s != [] {
      var init, c := s[..|s| - 1], s[|s| - 1];
      assert s == init + [c];
      LowerSnoc(init, c);
      ExtensionSnoc(init, c);
      ExtensionSnoc(Lower(init), LowerChar(c));
      if c != '.' {
        ExtensionOfLower(init);
        LowerSnoc(Extension(init), c);
      }
    }
  }

  /** `get_attachment_type` on a string. */
  function Classify(s: string): Kind {
    if s == "" then File
    else ClassifyExtension(Extension(Lower(s)))
  }

  /** A name's kind is the one named by the text after its last dot,
      lower-cased. */
  lemma ClassifyByExtension(s: string)
    ensures Classify(s) == ClassifyExtension(Lower(Extension(s)))
  {
    ExtensionOfLower(s);
    if s == "" { EmptyName(); }
  }

  /** `get_attachment_type` on whatever the message holds: a falsy value is a
      `file`; a truthy value that is not a string has no `lower()`. */
  function GetAttachmentType(file: Value): (r: Result<Kind>)
    ensures r.Err? <==> Truthy(file) && !file.Str?
    ensures !Truthy(file) ==> r == Ok(File)
    ensures file.Str? ==> r == Ok(Classify(file.s))
  {
    if !Truthy(file) then Ok(File)
    else match file
      case Str(s) => Ok(Classify(s))
      case _ => Err(AttributeError)
  }

  /** The kind's name is always one of the allowed attachment types. */
  lemma NameIsAllowed(k: Kind)
    ensures Str(k.Name()) in AllowedTypes
  {
  }

  /** The extension of `p + "." + e` is `e` whenever `e` has no dot. */
  lemma {:induction false} ExtensionAfterLastDot(p: string, e: string)
    requires '.' !in e
    ensures Extension(p + "." + e) == e
    decreases |e|
  {
    var s := p + "." + e;
    if e == [] {
      assert s[|s| - 1] == '.';
    } else {
      var init := e[..|e| - 1];
      assert s[..|s| - 1] == p + "." + init;
      assert '.' !in init by {
        forall i | 0 <= i < |init| ensures init[i] != '.' { assert init[i] == e[i]; }
      }
      ExtensionAfterLastDot(p, init);
      assert init + [e[|e| - 1]] == e;
    }
  }

  /** A name without a dot is its own extension. */
  lemma NoDotIsExtension(s: string)
    requires '.' !in s
    ensures Extension(s) == s
  {
  }

  /** A dot-less name is classified by the whole of it, lower-cased. */
  lemma ClassifyNoDot(s: string)
    requires s != "" && '.' !in s
    ensures Classify(s) == ClassifyExtension(Lower(s))
  {
    ClassifyByExtension(s);
    NoDotIsExtension(s);
  }

  lemma LowerIdempotent(s: string)
    ensures Lower(Lower(s)) == Lower(s)
  {
  }

  lemma LowerConcat(a: string, b: string)
    ensures Lower(a + b) == Lower(a) + Lower(b)
  {
  }

  /** The classifier ignores case: a name and its lower-cased form get the
      same kind. */
  lemma CaseInsensitive(s: string)
    ensures Classify(Lower(s)) == Classify(s)
  {
    ClassifyByExtension(s);
    ClassifyByExtension(Lower(s));
    ExtensionOfLower(s);
    LowerIdempotent(Extension(s));
  }

  /** The kind of `p + "." + e` is decided by `e` alone, whatever its case. */
  lemma ClassifyBySuffix(p: string, e: string)
    requires '.' !in e
    ensures Classify(p + "." + e) == ClassifyExtension(Lower(e))
  {
    ClassifyByExtension(p + "." + e);
    ExtensionAfterLastDot(p, e);
  }

  /** `a.JPG` and `a.jpg` are both images. */
  lemma ImageExample()
    ensures Classify("a.JPG") == Classify("a.jpg") == Image
  {
    assert "a.JPG" == "a" + "." + "JPG";
    assert "a.jpg" == "a" + "." + "jpg";
    ClassifyBySuffix("a", "JPG");
    ClassifyBySuffix("a", "jpg");
    LowerJpg();
  }

  lemma LowerJpg()
    ensures Lower("JPG") == "jpg" && Lower("jpg") == "jpg"
  {
  }

  /** A dot-less name is a file unless the whole name is itself one of the
      known extensions (so `a` is a file, but `png` is an image). */
  lemma DotlessName(s: string)
    requires '.' !in s
    ensures Classify(s) == ClassifyExtension(Lower(s))
    ensures Lower(s) !in ImageExtensions + AudioExtensions + VideoExtensions ==> Classify(s) == File
  {
    if s != "" { ClassifyNoDot(s); }
  }

  /** The empty string and a missing value are files. */
  lemma EmptyIsFile()
    ensures GetAttachmentType(Str("")) == Ok(File)
    ensures GetAttachmentType(Null) == Ok(File)
  {
  }
}
