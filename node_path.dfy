/** The part of Node's POSIX `path` module the pipeline uses: `extname` (through
    `basename`) and `join` of a directory and a plain file name. */
module NodePath {
  import opened Wrappers

  /** Index of the last occurrence of `c` in `s`, if any. */
  function LastIndexOf(s: string, c: char): (r: Option<nat>)
    ensures r.Some? ==> r.value < |s| && s[r.value] == c
    ensures r.Some? ==> forall j :: r.value < j < |s| ==> s[j] != c
    ensures r.None? <==> forall j :: 0 <= j < |s| ==> s[j] != c
  {
    if s == [] then None
    else if s[|s| - 1] == c then Some(|s| - 1)
    else LastIndexOf(s[..|s| - 1], c)
  }

  /** The last occurrence of `c` is at `k` when `s[k]` is `c` and nothing after it is. */
  lemma LastIndexOfAt(s: string, c: char, k: nat)
    requires k < |s| && s[k] == c
    requires forall j :: k < j < |s| ==> s[j] != c
    ensures LastIndexOf(s, c) == Some(k)
  {
  }

  /** The path with every trailing '/' removed. */
  function TrimTrailingSlashes(p: string): (r: string)
    ensures |r| <= |p| && r == p[..|r|]
    ensures r == [] || r[|r| - 1] != '/'
    ensures forall j :: |r| <= j < |p| ==> p[j] == '/'
  {
    if p != [] && p[|p| - 1] == '/' then TrimTrailingSlashes(p[..|p| - 1]) else p
  }

  /** The last path component, trailing slashes ignored. */
  function Basename(p: string): (b: string)
    ensures forall j :: 0 <= j < |b| ==> b[j] != '/'
  {
    var t := TrimTrailingSlashes(p);
    match LastIndexOf(t, '/')
    case None => t
    case Some(i) => t[i + 1..]
  }

  /** `path.extname(p)`: from the last '.' of the base name to its end; empty when
      the base name has no '.', when its only '.' candidate is its first character,
      and for the base name "..". */
  function ExtName(p: string): (e: string)
    ensures e == "" || ExtensionShape(e)
  {
    var b := Basename(p);
    match LastIndexOf(b, '.')
    case None => ""
    case Some(k) =>
      if k == 0 || b == ".." then ""
      else
        TailFromLastDot(b, k);
        b[k..]
  }

  /** Shape of a non-empty `extname`: a leading dot, no further dot, no slash. */
  predicate ExtensionShape(e: string) {
    |e| >= 1 && e[0] == '.' && forall i :: 1 <= i < |e| ==> e[i] != '.' && e[i] != '/'
  }

  /** A plain name without slashes. */
  predicate PlainName(name: string) {
    name != [] && forall j :: 0 <= j < |name| ==> name[j] != '/'
  }

  /** `path.join(dir, name)` for a directory and a plain file name. */
  function JoinPath(dir: string, name: string): string {
    dir + "/" + name
  }

  /** A plain name comes back as the base name of the joined path. */
  lemma BasenameOfJoin(dir: string, name: string)
    requires PlainName(name)
    ensures Basename(JoinPath(dir, name)) == name
  {
    var s := JoinPath(dir, name);
    assert s[|s| - 1] == name[|name| - 1];
    assert TrimTrailingSlashes(s) == s;
    assert s[|dir|] == '/';
    forall j | |dir| < j < |s| ensures s[j] != '/' {
      assert s[j] == name[j - |dir| - 1];
    }
    LastIndexOfAt(s, '/', |dir|);
    assert s[|dir| + 1..] == name;
  }

  /** The base name is a suffix of the path once trailing slashes are removed. */
  lemma BasenameIsSuffix(p: string)
    ensures var t := TrimTrailingSlashes(p);
      |Basename(p)| <= |t| && Basename(p) == t[|t| - |Basename(p)|..]
  {
    var t := TrimTrailingSlashes(p);
    match LastIndexOf(t, '/')
    case None =>
      assert Basename(p) == t;
      assert t[|t| - |t|..] == t;
    case Some(i) =>
      assert Basename(p) == t[i + 1..];
  }

  /** The base name is the whole last component: it is the slash-trimmed path itself,
      or the part after a '/' of it (and it holds no '/', by Basename's contract). */
  lemma BasenameIsLastComponent(p: string)
    ensures var t := TrimTrailingSlashes(p); var b := Basename(p);
      |b| <= |t| && b == t[|t| - |b|..] && (|b| == |t| || t[|t| - |b| - 1] == '/')
  {
    var t := TrimTrailingSlashes(p);
    match LastIndexOf(t, '/')
    case None =>
      assert Basename(p) == t;
      assert t[|t| - |t|..] == t;
    case Some(i) =>
      assert Basename(p) == t[i + 1..];
      assert |t| - |Basename(p)| - 1 == i;
  }

  /** The text from the last dot of a slash-free name on has the extension shape. */
  lemma TailFromLastDot(b: string, k: nat)
    requires k < |b| && b[k] == '.'
    requires forall j :: k < j < |b| ==> b[j] != '.'
    requires forall j :: 0 <= j < |b| ==> b[j] != '/'
    ensures ExtensionShape(b[k..])
  {
    var e := b[k..];
    forall i | 1 <= i < |e| ensures e[i] != '.' && e[i] != '/' {
      assert e[i] == b[k + i];
    }
  }

  /** A suffix of a suffix is a suffix. */
  lemma SuffixOfSuffix(t: string, b: string, k: nat)
    requires |b| <= |t| && b == t[|t| - |b|..] && k <= |b|
    ensures b[k..] == t[|t| - |b| + k..]
  {
  }

  /** Every `extname` is empty or has the extension shape, and is a suffix of its path
      once trailing slashes are removed. */
  lemma ExtNameShape(p: string)
    ensures var e := ExtName(p);
      (e == "" || ExtensionShape(e))
      && |e| <= |TrimTrailingSlashes(p)|
      && e == TrimTrailingSlashes(p)[|TrimTrailingSlashes(p)| - |e|..]
  {
    var t := TrimTrailingSlashes(p);
    var b := Basename(p);
    var e := ExtName(p);
    BasenameIsSuffix(p);
    ExtNameEndsBasename(p);
    SuffixOfSuffix(t, b, |b| - |e|);
  }

  /** The `extname` is a suffix of the base name. */
  lemma ExtNameEndsBasename(p: string)
    ensures |ExtName(p)| <= |Basename(p)|
    ensures ExtName(p) == Basename(p)[|Basename(p)| - |ExtName(p)|..]
  {
    var b := Basename(p);
    match LastIndexOf(b, '.')
    case None =>
      assert b[|b|..] == "";
    case Some(k) =>
      if k == 0 || b == ".." {
        assert b[|b|..] == "";
      }
  }

  /** Conversely, a base name with a dot after its first character (and other than
      "..") has as `extname` the text from its last dot on. */
  lemma ExtNameFromLastDot(p: string, k: nat)
    requires 0 < k < |Basename(p)| && Basename(p)[k] == '.' && Basename(p) != ".."
    requires forall j :: k < j < |Basename(p)| ==> Basename(p)[j] != '.'
    ensures ExtName(p) == Basename(p)[k..]
  {
    LastIndexOfAt(Basename(p), '.', k);
  }

  /** A base name without any dot, or whose only dot is its first character, has
      no extension. */
  lemma NoExtensionCases(p: string)
    requires forall j :: 0 < j < |Basename(p)| ==> Basename(p)[j] != '.'
    ensures ExtName(p) == ""
  {
  }

  /** A plain name made of a dot-free, slash-free stem followed by an extension-shaped
      (or empty) tail has exactly that tail as its `extname`. */
  lemma {:induction false} ExtNameOfStemAndTail(stem: string, tail: string)
    requires stem != []
    requires forall j :: 0 <= j < |stem| ==> stem[j] != '.' && stem[j] != '/'
    requires tail == "" || ExtensionShape(tail)
    ensures ExtName(stem + tail) == tail
  {
    var s := stem + tail;
    assert s[|s| - 1] != '/';
    assert TrimTrailingSlashes(s) == s;
    assert forall j :: 0 <= j < |s| ==> s[j] != '/';
    assert Basename(s) == s;
    if tail == "" {
      assert LastIndexOf(s, '.') == None;
    } else {
      var k := LastIndexOf(s, '.');
      assert s[|stem|] == '.';
      assert k.Some? && k.value == |stem|;
      assert s[0] != '.';
      assert s[|stem|..] == tail;
    }
  }

  /** Joining a directory in front of a plain name does not change its `extname`. */
  lemma ExtNameOfJoin(dir: string, name: string)
    requires PlainName(name)
    ensures ExtName(JoinPath(dir, name)) == ExtName(name)
  {
    BasenameOfJoin(dir, name);
    BasenameOfPlainName(name);
  }

  /** A name without any slash is its own base name. */
  lemma BasenameOfPlainName(s: string)
    requires forall j :: 0 <= j < |s| ==> s[j] != '/'
    ensures Basename(s) == s
  {
    assert TrimTrailingSlashes(s) == s;
  }

  lemma ExtNameKeepsCase()
    ensures ExtName("photo.JPG") == ".JPG"
  {
    var s := "photo.JPG";
    assert |s| == 9 && s[5] == '.' && s[5..] == ".JPG";
    BasenameOfPlainName(s);
    LastIndexOfAt(s, '.', 5);
  }

  lemma ExtNameOfLeadingDotName()
    ensures ExtName(".png") == ""
  {
    BasenameOfPlainName(".png");
    LastIndexOfAt(".png", '.', 0);
  }

  lemma ExtNameOfDoubleExtension()
    ensures ExtName("archive.tar.gz") == ".gz"
  {
    var s := "archive.tar.gz";
    assert |s| == 14 && s[11] == '.' && s[12] == 'g' && s[13] == 'z';
    BasenameOfPlainName(s);
    LastIndexOfAt(s, '.', 11);
    assert s[11..] == ".gz";
  }

  lemma ExtNameIgnoresTrailingSlash()
    ensures ExtName("dir/clip.mp4/") == ".mp4"
  {
    assert TrimTrailingSlashes("dir/clip.mp4/") == "dir/clip.mp4";
    LastIndexOfAt("dir/clip.mp4", '/', 3);
    assert "dir/clip.mp4"[4..] == "clip.mp4";
    LastIndexOfAt("clip.mp4", '.', 4);
  }
}
