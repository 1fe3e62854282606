/**
 * The `pathname` setter of a URL with an http(s) scheme, as the URL Standard
 * (WHATWG) defines it: the basic URL parser run from the path start state
 * with the URL's path emptied first, then the URL path serializer. The path
 * state drops single-dot segments ("." or "%2e") and lets double-dot
 * segments ("..", ".%2e", "%2e.", "%2e%2e", any case) remove the segment
 * before them; a dot segment that ends the input leaves an empty last segment.
 */
module UrlPath {

  /** "." or an ASCII case-insensitive match for "%2e". */
  predicate IsDot(t: string) {
    t == "." || (|t| == 3 && t[0] == '%' && t[1] == '2' && (t[2] == 'e' || t[2] == 'E'))
  }

  /** A single-dot URL path segment. */
  predicate SingleDot(seg: string) {
    IsDot(seg)
  }

  /** A double-dot URL path segment: two dots, each spelt "." or "%2e". */
  predicate DoubleDot(seg: string) {
    || (1 <= |seg| && IsDot(seg[..1]) && IsDot(seg[1..]))
    || (3 <= |seg| && IsDot(seg[..3]) && IsDot(seg[3..]))
  }

  predicate DotSegment(seg: string) {
    SingleDot(seg) || DoubleDot(seg)
  }

  /** The segments between the slashes of `s`, in order: one more than there are slashes. */
  function Split(s: string): (segs: seq<string>)
    ensures |segs| >= 1
    decreases |s|
  {
    if s == [] then [""]
    else if s[0] == '/' then [""] + Split(s[1..])
    else var rest := Split(s[1..]); [[s[0]] + rest[0]] + rest[1..]
  }

  /** The URL path serializer: each segment preceded by "/". */
  function Serialize(path: seq<string>): string {
    if path == [] then "" else "/" + path[0] + Serialize(path[1..])
  }

  /** Shortening the path of an http(s) URL removes its last segment, if any. */
  function Shorten(path: seq<string>): seq<string> {
    if path == [] then [] else path[..|path| - 1]
  }

  /** The path state at the end of one segment; `last` when the end of the input ends it rather than "/". */
  function Step(path: seq<string>, seg: string, last: bool): seq<string> {
    if DoubleDot(seg) then Shorten(path) + (if last then [""] else [])
    else if SingleDot(seg) then path + (if last then [""] else [])
    else path + [seg]
  }

  /** The path state over the segments of the input, the last one ended by the end of the input. */
  function Walk(path: seq<string>, segs: seq<string>): seq<string>
    requires |segs| >= 1
    decreases |segs|
  {
    if |segs| == 1 then Step(path, segs[0], true) else Walk(Step(path, segs[0], false), segs[1..])
  }

  /** `url.pathname = value`, read back through the getter: the path start state consumes one leading "/". */
  function SetPathname(value: string): string {
    var rest := if value != [] && value[0] == '/' then value[1..] else value;
    Serialize(Walk([], Split(rest)))
  }

  /** A pathname that starts with "/" and has no dot segment. */
  predicate Plain(value: string) {
    && value != [] && value[0] == '/'
    && forall i :: 0 <= i < |Split(value[1..])| ==> !DotSegment(Split(value[1..])[i])
  }

  /** A segment holds no "/" and is not a dot segment, as every segment of a parsed path. */
  predicate Clean(path: seq<string>) {
    forall i :: 0 <= i < |path| ==> '/' !in path[i] && !DotSegment(path[i])
  }

  // ---------------------------------------------------------------- serializing and splitting

  lemma {:induction false} SerializeAppend(p: seq<string>, q: seq<string>)
    ensures Serialize(p + q) == Serialize(p) + Serialize(q)
    decreases |p|
  {
    if p != [] {
      assert (p + q)[0] == p[0] && (p + q)[1..] == p[1..] + q;
      SerializeAppend(p[1..], q);
      calc {
        Serialize(p + q);
        "/" + p[0] + Serialize(p[1..] + q);
        "/" + p[0] + (Serialize(p[1..]) + Serialize(q));
        ("/" + p[0] + Serialize(p[1..])) + Serialize(q);
        Serialize(p) + Serialize(q);
      }
    } else {
      assert p + q == q;
    }
  }

  /** Splitting at the slashes and serializing again gives the text back behind one "/". */
  lemma {:induction false} SerializeSplit(s: string)
    ensures Serialize(Split(s)) == "/" + s
    decreases |s|
  {
    if s != [] {
      SerializeSplit(s[1..]);
      if s[0] == '/' {
        assert s == "/" + s[1..];
      } else {
        SerializeSplitChar(s);
      }
    }
  }

  /** The step of SerializeSplit for a text that starts with a character other than "/". */
  lemma SerializeSplitChar(s: string)
    requires s != [] && s[0] != '/' && Serialize(Split(s[1..])) == "/" + s[1..]
    ensures Serialize(Split(s)) == "/" + s
  {
    SerializeGrowFirst(s[0], Split(s[1..]), s[1..]);
    assert s == [s[0]] + s[1..];
  }

  /** One more character at the front of the first segment is one more character after the leading "/". */
  lemma SerializeGrowFirst(c: char, path: seq<string>, t: string)
    requires path != [] && Serialize(path) == "/" + t
    ensures Serialize([[c] + path[0]] + path[1..]) == "/" + ([c] + t)
  {
    var tail := Serialize(path[1..]);
    assert path[0] + tail == t by {
      SerializeCons(path[0], path[1..]);
      assert [path[0]] + path[1..] == path;
      Regroup("/", path[0], tail);
      assert ("/" + (path[0] + tail))[1..] == path[0] + tail && ("/" + t)[1..] == t;
    }
    SerializeCons([c] + path[0], path[1..]);
    Regroup("/", [c] + path[0], tail);
    Regroup([c], path[0], tail);
  }

  lemma Regroup(a: string, b: string, c: string)
    ensures a + b + c == a + (b + c)
  {
  }

  lemma SerializeCons(seg: string, path: seq<string>)
    ensures Serialize([seg] + path) == "/" + seg + Serialize(path)
  {
    assert ([seg] + path)[0] == seg && ([seg] + path)[1..] == path;
  }

  lemma {:induction false} SplitNoSlash(s: string)
    ensures forall i :: 0 <= i < |Split(s)| ==> '/' !in Split(s)[i]
    decreases |s|
  {
    if s != [] {
      SplitNoSlash(s[1..]);
    }
  }

  /** A slash-free text in front only lengthens the first segment. */
  lemma {:induction false} SplitPrefix(a: string, t: string)
    requires '/' !in a
    ensures Split(a + t) == [a + Split(t)[0]] + Split(t)[1..]
    decreases |a|
  {
    if a != [] {
      assert (a + t)[0] == a[0] && (a + t)[1..] == a[1..] + t;
      assert a[0] != '/' by { assert a[0] in a; }
      SplitPrefix(a[1..], t);
      var rest := Split(a[1..] + t);
      assert rest[0] == a[1..] + Split(t)[0] && rest[1..] == Split(t)[1..];
      assert [a[0]] + (a[1..] + Split(t)[0]) == a + Split(t)[0] by { assert a == [a[0]] + a[1..]; }
    } else {
      assert a + t == t && a + Split(t)[0] == Split(t)[0];
      assert [Split(t)[0]] + Split(t)[1..] == Split(t);
    }
  }

  /** Serializing a path of slash-free segments and splitting again gives the path back. */
  lemma {:induction false} SplitSerialize(path: seq<string>)
    requires path != [] && forall i :: 0 <= i < |path| ==> '/' !in path[i]
    ensures Split(Serialize(path)[1..]) == path
    decreases |path|
  {
    var rest := Serialize(path[1..]);
    assert Serialize(path)[1..] == path[0] + rest;
    SplitPrefix(path[0], rest);
    if |path| == 1 {
      assert rest == "";
      assert path[0] + "" == path[0] && [path[0]] + [] == path;
    } else {
      SplitSerialize(path[1..]);
      assert rest == "/" + path[1] + Serialize(path[2..]);
      assert rest[0] == '/' && rest[1..] == Serialize(path[1..])[1..];
      assert Split(rest) == [""] + path[1..];
      assert path[0] + "" == path[0];
      assert [path[0]] + path[1..] == path;
    }
  }

  // ---------------------------------------------------------------- the setter

  lemma ShortenLength(path: seq<string>)
    ensures |Serialize(Shorten(path))| <= |Serialize(path)|
  {
    if path != [] {
      SerializeAppend(path[..|path| - 1], [path[|path| - 1]]);
      assert path[..|path| - 1] + [path[|path| - 1]] == path;
    }
  }

  lemma StepLength(path: seq<string>, seg: string, last: bool)
    ensures |Serialize(Step(path, seg, last))| <= |Serialize(path)| + 1 + |seg|
  {
    ShortenLength(path);
    SerializeAppend(Shorten(path), if last then [""] else []);
    SerializeAppend(path, if last then [""] else []);
    SerializeAppend(path, [seg]);
  }

  lemma {:induction false} WalkLength(path: seq<string>, segs: seq<string>)
    requires |segs| >= 1
    ensures |Serialize(Walk(path, segs))| <= |Serialize(path)| + |Serialize(segs)|
    decreases |segs|
  {
    StepLength(path, segs[0], |segs| == 1);
    if |segs| > 1 {
      WalkLength(Step(path, segs[0], false), segs[1..]);
    }
  }

  /** The setter never lengthens a pathname that starts with "/", and adds at most that "/" to one that does not. */
  lemma SetPathnameLength(value: string)
    ensures |SetPathname(value)| <= |value| + 1
    ensures value != [] && value[0] == '/' ==> |SetPathname(value)| <= |value|
  {
    var rest := if value != [] && value[0] == '/' then value[1..] else value;
    WalkLength([], Split(rest));
    SerializeSplit(rest);
  }

  lemma {:induction false} WalkPlain(path: seq<string>, segs: seq<string>)
    requires |segs| >= 1 && forall i :: 0 <= i < |segs| ==> !DotSegment(segs[i])
    ensures Walk(path, segs) == path + segs
    decreases |segs|
  {
    if |segs| > 1 {
      WalkPlain(path + [segs[0]], segs[1..]);
      assert path + [segs[0]] + segs[1..] == path + segs;
    }
  }

  /** A pathname without dot segments is stored as it is. */
  lemma SetPathnamePlain(value: string)
    requires Plain(value)
    ensures SetPathname(value) == value
  {
    WalkPlain([], Split(value[1..]));
    assert [] + Split(value[1..]) == Split(value[1..]);
    SerializeSplit(value[1..]);
    assert value == "/" + value[1..];
  }

  lemma {:induction false} WalkClean(path: seq<string>, segs: seq<string>)
    requires |segs| >= 1 && Clean(path) && forall i :: 0 <= i < |segs| ==> '/' !in segs[i]
    ensures Walk(path, segs) != [] && Clean(Walk(path, segs))
    decreases |segs|
  {
    var next := Step(path, segs[0], |segs| == 1);
    assert !DotSegment("");
    assert Clean(next);
    if |segs| > 1 {
      WalkClean(next, segs[1..]);
    }
  }

  /** What the setter stores starts with "/" and has no dot segment left. */
  lemma SetPathnameIsPlain(value: string)
    ensures Plain(SetPathname(value))
  {
    var rest := if value != [] && value[0] == '/' then value[1..] else value;
    var path := Walk([], Split(rest));
    SplitNoSlash(rest);
    WalkClean([], Split(rest));
    SplitSerialize(path);
  }

  /** Setting the pathname to what the getter returns changes nothing. */
  lemma SetPathnameIdempotent(value: string)
    ensures SetPathname(SetPathname(value)) == SetPathname(value)
  {
    SetPathnameIsPlain(value);
    SetPathnamePlain(SetPathname(value));
  }

  /** A trailing "." segment is dropped, leaving the "/" before it; ".." also drops the segment before. */
  lemma TrailingDotSegments()
    ensures SetPathname("/a/.") == "/a/"
    ensures SetPathname("/a/..") == "/"
  {
    SplitOfTrailingDots();
    assert "/a/."[1..] == "a/." && "/a/.."[1..] == "a/..";
    assert DoubleDot("..") by { assert ".."[..1] == "." && ".."[1..] == "."; }
    assert !DotSegment("a");
    assert !DoubleDot(".") by { assert "."[1..] == ""; }
    assert Walk([], ["a", "."]) == ["a", ""];
    assert Walk([], ["a", ".."]) == [""];
    assert Serialize(["a", ""]) == "/a/" by { assert ["a", ""][1..] == [""]; }
  }

  lemma SplitOfTrailingDots()
    ensures Split("a/.") == ["a", "."] && Split("a/..") == ["a", ".."]
  {
    assert Split(".") == ["."] by {
      assert "."[0] == '.' && "."[1..] == "" && ['.'] + "" == ".";
    }
    assert Split("..") == [".."] by {
      assert ".."[0] == '.' && ".."[1..] == "." && ['.'] + "." == "..";
    }
    assert "/."[0] == '/' && "/."[1..] == ".";
    assert "/.."[0] == '/' && "/.."[1..] == "..";
    assert "a/."[0] == 'a' && "a/."[1..] == "/.";
    assert "a/.."[0] == 'a' && "a/.."[1..] == "/..";
    assert ['a'] + "" == "a";
  }
}
