/**
 * File URLs as the bundle lookup uses them: a path is the sequence of its
 * components below the root, `[]` being the root directory itself.
 */
module Paths {
  import opened Text

  type Path = seq<string>

  /** A single path component: non-empty and free of '/'. */
  predicate IsComponent(c: string) {
    c != [] && '/' !in c
  }

  predicate IsPath(p: Path) {
    forall i :: 0 <= i < |p| ==> IsComponent(p[i])
  }

  /** Number of leading characters of `s` before the first '/'. */
  function NameLength(s: string): (n: nat)
    ensures n <= |s|
    ensures forall i :: 0 <= i < n ==> s[i] != '/'
    ensures n < |s| ==> s[n] == '/'
  {
    if s == [] || s[0] == '/' then 0 else 1 + NameLength(s[1..])
  }

  /**
   * `URL(fileURLWithPath:)` followed by reading its path components:
   * the text is split at '/' and empty components are dropped.
   */
  function Components(s: string): (p: Path)
    ensures IsPath(p)
    decreases |s|
  {
    if s == [] then []
    else if s[0] == '/' then Components(s[1..])
    else
      var n := NameLength(s);
      [s[..n]] + Components(s[n..])
  }

  /** The textual path of a component sequence: "/a/b/c", or "" for the root. */
  function Join(p: Path): string {
    if p == [] then "" else "/" + p[0] + Join(p[1..])
  }

  /** Joining well-formed components and splitting them again gives them back. */
  lemma {:induction false} ComponentsOfJoin(p: Path)
    requires IsPath(p)
    ensures Components(Join(p)) == p
  {
    if p != [] {
      var s := Join(p);
      var rest := p[0] + Join(p[1..]);
      assert s == "/" + rest;
      assert s[1..] == rest;
      NameOfJoin(p[0], Join(p[1..]));
      assert rest[..|p[0]|] == p[0];
      assert rest[|p[0]|..] == Join(p[1..]);
      ComponentsOfJoin(p[1..]);
    }
  }

  /** The name at the head of `c + tail` ends where `c` ends when `tail` starts with '/'. */
  lemma {:induction false} NameOfJoin(c: string, tail: string)
    requires IsComponent(c)
    requires tail == [] || tail[0] == '/'
    ensures NameLength(c + tail) == |c|
  {
    if |c| > 1 {
      assert (c + tail)[1..] == c[1..] + tail;
      NameOfJoin(c[1..], tail);
    } else {
      assert (c + tail)[1..] == tail;
    }
  }

  /** `deletingLastPathComponent()`; the root is its own parent. */
  function Parent(p: Path): (q: Path)
    ensures p == [] ==> q == []
    ensures p != [] ==> |q| == |p| - 1 && q == p[..|p| - 1]
  {
    if p == [] then [] else p[..|p| - 1]
  }

  /** The only directory that is its own parent is the root. */
  lemma ParentFixedOnlyAtRoot(p: Path)
    ensures Parent(p) == p <==> p == []
  {
  }

  /** Deleting the last component removes exactly the final "/name" from the path's text. */
  lemma {:induction false} JoinParent(p: Path)
    requires p != []
    ensures Join(p) == Join(Parent(p)) + "/" + p[|p| - 1]
  {
    if |p| == 1 {
      assert Parent(p) == [];
      assert Join(p[1..]) == [];
    } else {
      var q := Parent(p);
      assert q[0] == p[0];
      assert q[1..] == Parent(p[1..]);
      JoinParent(p[1..]);
    }
  }

  /**
   * `pathExtension` of one component: the text after its last '.',
   * or "" when it has no '.' or its only '.' is its first character.
   */
  function ExtensionOf(name: string): string {
    ExtensionFrom(name, |name|)
  }

  /** Scans `name[..i]` backwards for the last '.'. */
  function ExtensionFrom(name: string, i: nat): string
    requires i <= |name|
    decreases i
  {
    if i == 0 then []
    else if name[i - 1] == '.' then (if i == 1 then [] else name[i..])
    else ExtensionFrom(name, i - 1)
  }

  /**
   * An extension is a dot-free suffix of the name that follows a '.'
   * which is not the name's first character; a name whose only '.' is
   * its first character, or that has none, has no extension; and the
   * text after a last '.' that is not the first character is the
   * extension.
   */
  lemma ExtensionOfShape(name: string)
    ensures var ext := ExtensionOf(name);
      |ext| <= |name| && ext == name[|name| - |ext|..] && '.' !in ext
      && (ext != [] ==> |ext| + 2 <= |name| && name[|name| - |ext| - 1] == '.')
    ensures name != [] && '.' !in name[1..] ==> ExtensionOf(name) == []
    ensures forall k :: 1 <= k < |name| && name[k] == '.' && '.' !in name[k + 1..] ==>
      ExtensionOf(name) == name[k + 1..]
  {
    ExtensionFromShape(name, |name|);
    forall k | 1 <= k < |name| && name[k] == '.' && '.' !in name[k + 1..]
      ensures ExtensionOf(name) == name[k + 1..]
    {
      ExtensionFromAfterDot(name, |name|, k);
    }
  }

  /** Scanning back from `i`, the first '.' met is the one at `k`. */
  lemma {:induction false} ExtensionFromAfterDot(name: string, i: nat, k: nat)
    requires 1 <= k < i <= |name| && name[k] == '.' && '.' !in name[k + 1..]
    ensures ExtensionFrom(name, i) == name[k + 1..]
    decreases i
  {
    if i > k + 1 {
      assert name[i - 1] == name[k + 1..][i - 2 - k];
      ExtensionFromAfterDot(name, i - 1, k);
    }
  }

  lemma {:induction false} ExtensionFromShape(name: string, i: nat)
    requires i <= |name| && '.' !in name[i..]
    ensures var ext := ExtensionFrom(name, i);
      |ext| <= |name| && ext == name[|name| - |ext|..] && '.' !in ext
      && (ext != [] ==> |ext| + 2 <= |name| && name[|name| - |ext| - 1] == '.')
    ensures i >= 1 && '.' !in name[1..i] ==> ExtensionFrom(name, i) == []
    decreases i
  {
    if i > 0 && name[i - 1] != '.' {
      assert name[i - 1..] == [name[i - 1]] + name[i..];
      if i >= 1 && '.' !in name[1..i] && i > 1 {
        assert name[1..i] == name[1..i - 1] + [name[i - 1]];
      }
      ExtensionFromShape(name, i - 1);
    }
  }

  /** The extension of a directory's last component; the root has none. */
  function PathExtension(p: Path): string {
    if p == [] then "" else ExtensionOf(p[|p| - 1])
  }

  /** `url.pathExtension.lowercased() == "app"` */
  predicate IsAppDirectory(p: Path) {
    IsAppExtension(PathExtension(p))
  }

  /** A directory named `<stem>.app`, in any letter case, is an app directory. */
  lemma AppDirectoryName(dir: Path, stem: string, ext: string)
    requires stem != [] && IsAppExtension(ext)
    ensures IsAppDirectory(dir + [stem + "." + ext])
  {
    var name := stem + "." + ext;
    AppExtensionCaseInsensitive(ext);
    assert name[|stem|] == '.';
    assert name[|stem| + 1..] == ext;
    ExtensionOfShape(name);
  }
}
