/** The string logic of the standalone HARP editor (src/MainComponent.h):
    the working-copy and backup paths built from a target file, the
    normalisation of a model "space" URL, the author line of the model card
    and the classification of the model's status string.

    Paths follow JUCE `File` semantics with '/' as the separator: the
    extension starts at the last '.' when that dot comes after the last
    separator, the name without extension runs from just past the last
    separator up to that dot, and the parent directory is everything before
    the last separator ("/" when the separator is the first character, the
    path itself when there is none). */
module EditorStrings {

  // ---------------------------------------------------------------- search

  /** `String::lastIndexOfChar`: the index of the last occurrence of `c`, or -1. */
  function LastIndexOf(s: string, c: char): (i: int)
    ensures -1 <= i < |s|
    ensures i >= 0 ==> s[i] == c
  {
    LastIndexBefore(s, c, |s|)
  }

  /** The scan from the end, over the first `n` characters. */
  function LastIndexBefore(s: string, c: char, n: nat): (i: int)
    requires n <= |s|
    ensures -1 <= i < n
    ensures i >= 0 ==> s[i] == c
  {
    if n == 0 then -1
    else if s[n - 1] == c then n - 1
    else LastIndexBefore(s, c, n - 1)
  }

  /** No occurrence of `c` lies after the one found. */
  lemma LastIndexOfIsLast(s: string, c: char)
    ensures forall j :: LastIndexOf(s, c) < j < |s| ==> s[j] != c
  {
    LastIndexBeforeIsLast(s, c, |s|);
  }

  /** No occurrence of `c` lies between the one found and `n`. */
  lemma {:induction false} LastIndexBeforeIsLast(s: string, c: char, n: nat)
    requires n <= |s|
    ensures forall j :: LastIndexBefore(s, c, n) < j < n ==> s[j] != c
  {
    if n > 0 && s[n - 1] != c {
      LastIndexBeforeIsLast(s, c, n - 1);
    }
  }

  /** An index holding `c` with no `c` after it is the one found. */
  lemma LastIndexOfUnique(s: string, c: char, i: int)
    requires -1 <= i < |s|
    requires i >= 0 ==> s[i] == c
    requires forall j :: i < j < |s| ==> s[j] != c
    ensures LastIndexOf(s, c) == i
  {
    LastIndexOfIsLast(s, c);
  }

  /** `c` occurs nowhere in `s`. */
  predicate Free(s: string, c: char)
  {
    forall k :: 0 <= k < |s| ==> s[k] != c
  }

  /** `sub` occurs in `s` starting at index `i`. */
  predicate OccursAt(s: string, sub: string, i: int)
  {
    0 <= i && i + |sub| <= |s| && s[i..i + |sub|] == sub
  }

  /** `String::contains`: `sub` occurs at the front of `s` or further on. */
  predicate Contains(s: string, sub: string)
    decreases |s|
  {
    |sub| <= |s| && (s[..|sub|] == sub || Contains(s[1..], sub))
  }

  /** `Contains` holds exactly when there is a position where `sub` occurs. */
  lemma {:induction false} ContainsIffOccurs(s: string, sub: string)
    ensures Contains(s, sub) <==> exists i :: OccursAt(s, sub, i)
    decreases |s|
  {
    if |sub| <= |s| && s[..|sub|] != sub {
      ContainsIffOccurs(s[1..], sub);
      if Contains(s[1..], sub) {
        var i :| OccursAt(s[1..], sub, i);
        assert s[i + 1..i + 1 + |sub|] == s[1..][i..i + |sub|];
        assert OccursAt(s, sub, i + 1);
      }
      if exists i :: OccursAt(s, sub, i) {
        var i :| OccursAt(s, sub, i);
        if i > 0 {
          assert s[1..][i - 1..i - 1 + |sub|] == s[i..i + |sub|];
          assert OccursAt(s[1..], sub, i - 1);
        }
      }
    } else if |sub| <= |s| {
      assert OccursAt(s, sub, 0);
    }
  }

  /** The last occurrence in a concatenation is in the right part if there is one there. */
  lemma LastIndexOfAppend(a: string, b: string, c: char)
    ensures LastIndexOf(a + b, c) == if LastIndexOf(b, c) >= 0 then |a| + LastIndexOf(b, c) else LastIndexOf(a, c)
  {
    var i := if LastIndexOf(b, c) >= 0 then |a| + LastIndexOf(b, c) else LastIndexOf(a, c);
    LastIndexOfIsLast(a, c);
    LastIndexOfIsLast(b, c);
    forall j | i < j < |a + b| ensures (a + b)[j] != c {
      if j >= |a| { assert (a + b)[j] == b[j - |a|]; }
    }
    LastIndexOfUnique(a + b, c, i);
  }

  /** A string free of `c` has no last occurrence of it. */
  lemma LastIndexOfFree(s: string, c: char)
    requires Free(s, c)
    ensures LastIndexOf(s, c) == -1
  {
    LastIndexOfUnique(s, c, -1);
  }

  // ------------------------------------------------------------- file paths

  /** `File::getFileExtension`: from the last dot, if it lies after the last separator. */
  function FileExtension(path: string): (e: string)
    ensures |e| <= |path|
  {
    var dot := LastIndexOf(path, '.');
    if dot > LastIndexOf(path, '/') then path[dot..] else ""
  }

  /** An extension is a tail of the path that is empty or a dot followed by
      no dot, and holds no separator; it is empty exactly when no dot
      follows the last separator. */
  lemma ExtensionShape(path: string)
    ensures var e := FileExtension(path);
            && e == path[|path| - |e|..]
            && (e == "" || (e[0] == '.' && Free(e[1..], '.')))
            && Free(e, '/')
            && (e == "" <==> LastIndexOf(path, '.') <= LastIndexOf(path, '/'))
  {
    LastIndexOfIsLast(path, '.');
    LastIndexOfIsLast(path, '/');
    var e := FileExtension(path);
    var dot := LastIndexOf(path, '.');
    if e != "" {
      forall k | 0 <= k < |e| ensures e[k] != '/' && (k > 0 ==> e[k] != '.') {
        assert e[k] == path[dot + k];
      }
      assert forall k :: 0 <= k < |e[1..]| ==> e[1..][k] == e[k + 1];
    }
  }

  /** `File::getFileNameWithoutExtension`: from just past the last separator
      up to the last dot when that dot comes later still, else to the end. */
  function FileNameWithoutExtension(path: string): string
  {
    var lastSlash := LastIndexOf(path, '/') + 1;
    var lastDot := LastIndexOf(path, '.');
    if lastDot > lastSlash then path[lastSlash..lastDot] else path[lastSlash..]
  }

  /** A stem holds no separator, and no dot at all when there is no extension. */
  lemma StemShape(path: string)
    ensures Free(FileNameWithoutExtension(path), '/')
    ensures FileExtension(path) == "" ==> Free(FileNameWithoutExtension(path), '.')
  {
    LastIndexOfIsLast(path, '.');
    LastIndexOfIsLast(path, '/');
    var n := FileNameWithoutExtension(path);
    var start := LastIndexOf(path, '/') + 1;
    assert forall k :: 0 <= k < |n| ==> n[k] == path[start + k];
  }

  /** `File::getParentDirectory`, by way of `getPathUpToLastSlash`. */
  function ParentDirectory(path: string): (d: string)
    ensures d == "" <==> path == ""
  {
    var lastSlash := LastIndexOf(path, '/');
    if lastSlash > 0 then path[..lastSlash]
    else if lastSlash == 0 then "/"
    else path
  }

  /** `dir/` followed by a file name built as the stem of `path`, then
      `suffix`, then the extension of `path`: the shape of both the working
      copy and the backup. */
  function Decorated(dir: string, path: string, suffix: string): string
  {
    dir + "/" + FileNameWithoutExtension(path) + suffix + FileExtension(path)
  }

  /** The working copy made for processing (src/MainComponent.h:897-901):
      `<documents>/HARP/<stem>_harp<extension>`. */
  function WorkingCopyPath(documents: string, target: string): string
  {
    Decorated(documents + "/HARP", target, "_harp")
  }

  /** The working copy sits in the HARP folder under the documents folder,
      keeps the target's extension and adds "_harp" to its stem; so it is
      never the target itself. */
  lemma WorkingCopyParts(documents: string, target: string)
    ensures var w := WorkingCopyPath(documents, target);
            && FileNameWithoutExtension(w) == FileNameWithoutExtension(target) + "_harp"
            && FileExtension(w) == FileExtension(target)
            && ParentDirectory(w) == documents + "/HARP"
            && w != target
  {
    DecoratedParts(documents + "/HARP", target, "_harp");
  }

  /** The backup made before committing (src/MainComponent.h:462-466):
      `<parent of target>/<stem>_BACKUP<extension>`. */
  function BackupPath(target: string): string
  {
    Decorated(ParentDirectory(target), target, "_BACKUP")
  }

  /** The backup sits next to the target, keeps its extension and adds
      "_BACKUP" to its stem; so it is never the target itself. */
  lemma BackupParts(target: string)
    ensures var b := BackupPath(target);
            && FileNameWithoutExtension(b) == FileNameWithoutExtension(target) + "_BACKUP"
            && FileExtension(b) == FileExtension(target)
            && ParentDirectory(b) == (if target == "" then "/" else ParentDirectory(target))
            && b != target
  {
    DecoratedParts(ParentDirectory(target), target, "_BACKUP");
  }

  /** For a file below a named directory, the backup is the target's own
      path with "_BACKUP" inserted just before the extension (a name whose
      only dot starts it, like ".wav", has that dot read both as the stem
      and as the extension, and is left out). */
  lemma BackupInsertsSuffix(target: string)
    requires LastIndexOf(target, '/') > 0
    requires LastIndexOf(target, '.') != LastIndexOf(target, '/') + 1
    ensures var k := |target| - |FileExtension(target)|;
            BackupPath(target) == target[..k] + "_BACKUP" + target[k..]
  {
    NestedPathRoundTrip(target);
    InsertBeforeTail(ParentDirectory(target) + "/" + FileNameWithoutExtension(target), FileExtension(target), "_BACKUP");
  }

  /** A path below a named directory whose name does not start with its
      only dot is its parent, a separator, its stem and its extension. */
  lemma NestedPathRoundTrip(target: string)
    requires LastIndexOf(target, '/') > 0
    requires LastIndexOf(target, '.') != LastIndexOf(target, '/') + 1
    ensures target == ParentDirectory(target) + "/" + FileNameWithoutExtension(target) + FileExtension(target)
  {
    var slash, dot := LastIndexOf(target, '/'), LastIndexOf(target, '.');
    var k := if dot > slash + 1 then dot else |target|;
    assert target[..slash] + "/" + target[slash + 1..k] == target[..k];
    assert target[..k] + target[k..] == target;
  }

  /** Cutting `front + tail` where the tail starts gives back the two parts. */
  lemma InsertBeforeTail(front: string, tail: string, suffix: string)
    ensures var t, k := front + tail, |front|;
            front + suffix + tail == t[..k] + suffix + t[k..]
  {
    var t := front + tail;
    assert t[..|front|] == front && t[|front|..] == tail;
  }

  /** A decorated name splits back into the directory, the decorated stem
      and the original extension; so it never equals the path it came from. */
  lemma DecoratedParts(dir: string, path: string, suffix: string)
    requires |suffix| > 0 && Free(suffix, '/') && Free(suffix, '.')
    ensures var d := Decorated(dir, path, suffix);
            && FileNameWithoutExtension(d) == FileNameWithoutExtension(path) + suffix
            && FileExtension(d) == FileExtension(path)
            && ParentDirectory(d) == (if dir == "" then "/" else dir)
            && d != path
  {
    var stem, ext := FileNameWithoutExtension(path), FileExtension(path);
    ExtensionShape(path);
    StemShape(path);
    var front := stem + suffix;
    var d := Decorated(dir, path, suffix);
    assert d == dir + "/" + front + ext;
    FreeAppend(stem, suffix, '/');
    if ext == "" {
      assert d == dir + "/" + front;
      FreeAppend(stem, suffix, '.');
      FileInDirectory(dir, front);
      PlainNameParts(dir, front);
    } else {
      assert d == dir + "/" + (front + ext);
      FreeAppend(front, ext, '/');
      FileInDirectory(dir, front + ext);
      ExtendedNameParts(dir, front, ext);
    }
    assert |FileNameWithoutExtension(d)| != |stem|;
  }

  /** The last separator of `dir/name` is the one before `name`. */
  lemma FileInDirectory(dir: string, name: string)
    requires Free(name, '/')
    ensures LastIndexOf(dir + "/" + name, '/') == |dir|
    ensures ParentDirectory(dir + "/" + name) == if dir == "" then "/" else dir
  {
    var d := dir + "/" + name;
    assert d == dir + ("/" + name);
    LastIndexOfFree(name, '/');
    LastIndexOfAppend("/", name, '/');
    LastIndexOfAppend(dir, "/" + name, '/');
    assert d[..|dir|] == dir;
  }

  /** `dir/name` where `name` has no dot: no extension, and the stem is the name. */
  lemma PlainNameParts(dir: string, name: string)
    requires Free(name, '/') && Free(name, '.')
    ensures FileExtension(dir + "/" + name) == ""
    ensures FileNameWithoutExtension(dir + "/" + name) == name
  {
    var d := dir + "/" + name;
    FileInDirectory(dir, name);
    assert d == dir + ("/" + name);
    LastIndexOfFree(name, '.');
    LastIndexOfAppend("/", name, '.');
    LastIndexOfAppend(dir, "/" + name, '.');
    assert d[|dir| + 1..] == name;
  }

  /** `dir/front.ext`, with a non-empty `front`: the extension and the stem come back. */
  lemma ExtendedNameParts(dir: string, front: string, ext: string)
    requires Free(front, '/') && |front| > 0 && Free(ext, '/')
    requires ext != "" && ext[0] == '.' && Free(ext[1..], '.')
    ensures FileExtension(dir + "/" + front + ext) == ext
    ensures FileNameWithoutExtension(dir + "/" + front + ext) == front
  {
    var d := dir + "/" + front + ext;
    assert LastIndexOf(d, '/') == |dir| by {
      FreeAppend(front, ext, '/');
      assert d == dir + "/" + (front + ext);
      FileInDirectory(dir, front + ext);
    }
    assert LastIndexOf(d, '.') == |dir| + 1 + |front| by {
      forall j | 0 < j < |ext| ensures ext[j] != '.' {
        assert ext[1..][j - 1] == ext[j];
      }
      LastIndexOfUnique(ext, '.', 0);
      LastIndexOfAppend(dir + "/" + front, ext, '.');
    }
    assert d[|dir| + 1..|dir| + 1 + |front|] == front;
    assert d[|dir| + 1 + |front|..] == ext;
  }

  /** Two `c`-free strings make a `c`-free string. */
  lemma FreeAppend(a: string, b: string, c: char)
    requires Free(a, c) && Free(b, c)
    ensures Free(a + b, c)
  {
    forall k | 0 <= k < |a + b| ensures (a + b)[k] != c {
      if k >= |a| { assert (a + b)[k] == b[k - |a|]; }
    }
  }

  // ------------------------------------------------------------- model card

  /** The author line of the model card (src/MainComponent.h:805-807). */
  function AuthorLabel(author: string): (line: string)
    ensures line == "" <==> author == ""
    ensures author != "" ==> |line| == |author| + 3 && line[..3] == "by " && line[3..] == author
  {
    if author == "" then "" else "by " + author
  }

  // ------------------------------------------------------------- space URLs

  const SpacesPrefix: string := "https://huggingface.co/spaces/"

  /** A URL the editor takes as already complete. */
  predicate IsFullUrl(url: string)
  {
    Contains(url, "localhost") || Contains(url, "huggingface.co") || Contains(url, "http")
  }

  /** The link for a model's space (src/MainComponent.h:572-579): a bare
      `user/space` name is put under the Hugging Face spaces prefix. */
  function SpaceUrl(url: string): (r: string)
    ensures r == url <==> IsFullUrl(url)
    ensures !IsFullUrl(url) ==> r == SpacesPrefix + url
    ensures IsFullUrl(r)
  {
    if IsFullUrl(url) then url
    else
      var r := SpacesPrefix + url;
      assert r[..4] == "http";
      r
  }

  /** Normalising an already normalised URL changes nothing. */
  lemma SpaceUrlIdempotent(url: string)
    ensures SpaceUrl(SpaceUrl(url)) == SpaceUrl(url)
  {
  }

  // ----------------------------------------------------------- model status

  datatype StatusClass =
    | Ready   // the model can take a job
    | Busy    // a job is on its way
    | Other

  /** Which branch of the status check in src/MainComponent.h:587-594 a
      status string takes. */
  function ClassifyStatus(status: string): (k: StatusClass)
    ensures k == Ready <==> status in {"Status.LOADED", "Status.FINISHED"}
    ensures k == Busy <==> status in {"Status.PROCESSING", "Status.STARTING", "Status.SENDING"}
  {
    if status == "Status.LOADED" || status == "Status.FINISHED" then Ready
    else if status == "Status.PROCESSING" || status == "Status.STARTING" || status == "Status.SENDING" then Busy
    else Other
  }
}
