/**
 * The string operations the filter applies: trimming with
 * `CharacterSet.whitespacesAndNewlines` and lower-casing a path extension.
 */
module Text {

  /**
   * Membership in `CharacterSet.whitespacesAndNewlines`: the Unicode
   * space separators (general category Zs), tab, and the newline
   * characters U+000A to U+000D, U+0085, U+2028 and U+2029.
   */
  predicate IsWhitespaceOrNewline(c: char) {
    ('\t' <= c <= '\r') || c == ' ' || c == '\U{0085}' || c == '\U{00A0}' || c == '\U{1680}'
    || ('\U{2000}' <= c <= '\U{200A}') || c == '\U{2028}' || c == '\U{2029}' || c == '\U{202F}'
    || c == '\U{205F}' || c == '\U{3000}'
  }

  /** Every character of `s` is whitespace or a newline (vacuously so for ""). */
  predicate AllWhitespace(s: string) {
    forall i :: 0 <= i < |s| ==> IsWhitespaceOrNewline(s[i])
  }

  /** Drops the leading whitespace: what is left is a suffix starting with a non-blank. */
  function TrimLeading(s: string): (t: string)
    ensures |t| <= |s| && t == s[|s| - |t|..]
    ensures forall i :: 0 <= i < |s| - |t| ==> IsWhitespaceOrNewline(s[i])
    ensures t == [] || !IsWhitespaceOrNewline(t[0])
  {
    if s != [] && IsWhitespaceOrNewline(s[0]) then TrimLeading(s[1..]) else s
  }

  /** Drops the trailing whitespace: what is left is a prefix ending with a non-blank. */
  function TrimTrailing(s: string): (t: string)
    ensures |t| <= |s| && t == s[..|t|]
    ensures forall i :: |t| <= i < |s| ==> IsWhitespaceOrNewline(s[i])
    ensures t == [] || !IsWhitespaceOrNewline(t[|t| - 1])
  {
    if s != [] && IsWhitespaceOrNewline(s[|s| - 1]) then TrimTrailing(s[..|s| - 1]) else s
  }

  /** `trimmingCharacters(in: .whitespacesAndNewlines)` */
  function Trim(s: string): string {
    TrimTrailing(TrimLeading(s))
  }

  /** The trimmed string neither starts nor ends with a blank. */
  lemma TrimEndsNotBlank(s: string)
    ensures Trim(s) == [] || (!IsWhitespaceOrNewline(Trim(s)[0])
                              && !IsWhitespaceOrNewline(Trim(s)[|Trim(s)| - 1]))
  {
    var l := TrimLeading(s);
    var t := TrimTrailing(l);
    if t != [] {
      assert t[0] == l[0];
    }
  }

  /** A setting trims to "" exactly when it is made of whitespace alone. */
  lemma TrimEmptyIffAllWhitespace(s: string)
    ensures Trim(s) == [] <==> AllWhitespace(s)
  {
    var l := TrimLeading(s);
    if Trim(s) == [] {
      assert AllWhitespace(l[0..]);
      assert l == [];
      assert s[..|s|] == s;
    }
    assert l != [] ==> l[0] == s[|s| - |l|];
  }

  /** A string that neither starts nor ends with a blank is left as it is. */
  lemma TrimKeepsBlankFreeEnds(s: string)
    requires s != [] && !IsWhitespaceOrNewline(s[0]) && !IsWhitespaceOrNewline(s[|s| - 1])
    ensures Trim(s) == s
  {
    assert TrimLeading(s) == s;
  }

  /** Trimming twice is trimming once. */
  lemma TrimIdempotent(s: string)
    ensures Trim(Trim(s)) == Trim(s)
  {
    var t := Trim(s);
    TrimEndsNotBlank(s);
    if t != [] {
      assert TrimLeading(t) == t;
      assert TrimTrailing(t) == t;
    }
  }

  /** ASCII lower-casing of one character. */
  function LowerChar(c: char): char {
    if 'A' <= c <= 'Z' then (c as int - 'A' as int + 'a' as int) as char else c
  }

  /** `lowercased()` restricted to ASCII letters. */
  function Lowercased(s: string): (t: string)
    ensures |t| == |s|
  {
    seq(|s|, i requires 0 <= i < |s| => LowerChar(s[i]))
  }

  /** `ext.lowercased() == "app"` */
  predicate IsAppExtension(ext: string) {
    Lowercased(ext) == "app"
  }

  /** The "app" test ignores case and nothing else. */
  lemma AppExtensionCaseInsensitive(ext: string)
    ensures IsAppExtension(ext) <==>
      (|ext| == 3 && ext[0] in "aA" && ext[1] in "pP" && ext[2] in "pP")
  {
    if IsAppExtension(ext) {
      assert Lowercased(ext)[0] == 'a' && Lowercased(ext)[1] == 'p' && Lowercased(ext)[2] == 'p';
    }
    if |ext| == 3 && ext[0] in "aA" && ext[1] in "pP" && ext[2] in "pP" {
      assert Lowercased(ext) == ['a', 'p', 'p'];
    }
  }
}
