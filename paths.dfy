/**
 * File-system paths as the JDK's Unix file system builds them: `PathUtils.get(s)` normalises the
 * text by collapsing every run of '/' into one and dropping a trailing '/' (but keeping the root "/"),
 * and `Path.toString()` gives the normalised text back. Nothing here consults the file system.
 */
module Paths {

  /** No two consecutive '/' characters. */
  predicate NoDoubleSlash(s: string) {
    |s| < 2 || (!(s[0] == '/' && s[1] == '/') && NoDoubleSlash(s[1..]))
  }

  /** The text of a normalised Unix path. */
  predicate IsNormal(s: string) {
    NoDoubleSlash(s) && !(|s| > 1 && s[|s| - 1] == '/')
  }

  /** A path value; its text is what `toString()` returns. */
  type Path = s: string | IsNormal(s) witness ""

  /** `Path.isAbsolute()` on Unix: the path starts at the root. */
  predicate IsAbsolute(s: string) {
    |s| > 0 && s[0] == '/'
  }

  /** Collapses every run of '/' into a single '/'. */
  function Collapse(s: string): (r: string)
    ensures NoDoubleSlash(r)
    ensures |r| <= |s|
    ensures |s| > 0 ==> |r| > 0 && r[0] == s[0] && r[|r| - 1] == s[|s| - 1]
    ensures NoDoubleSlash(s) ==> r == s
  {
    if |s| < 2 then s
    else if s[0] == '/' && s[1] == '/' then Collapse(s[1..])
    else [s[0]] + Collapse(s[1..])
  }

  /** Collapsing removes only repeated '/': a doubled '/' anywhere counts as a single one. */
  lemma {:induction false} CollapseDoubleSlash(a: string, b: string)
    ensures Collapse(a + "//" + b) == Collapse(a + "/" + b)
  {
    if |a| > 0 {
      CollapseDoubleSlash(a[1..], b);
      assert (a + "//" + b)[1..] == a[1..] + "//" + b;
      assert (a + "/" + b)[1..] == a[1..] + "/" + b;
    } else {
      assert a + "//" + b == "//" + b && ("//" + b)[1..] == "/" + b;
    }
  }

  lemma {:induction false} NoDoubleSlashPrefix(s: string, n: nat)
    requires NoDoubleSlash(s) && n <= |s|
    ensures NoDoubleSlash(s[..n])
  {
    if n >= 2 {
      NoDoubleSlashPrefix(s[1..], n - 1);
      assert s[..n][1..] == s[1..][..n - 1];
    }
  }

  /** In a text without "//", a '/' at the end is preceded by something other than '/'. */
  lemma {:induction false} SlashBeforeLast(s: string)
    requires NoDoubleSlash(s) && |s| >= 2 && s[|s| - 1] == '/'
    ensures s[|s| - 2] != '/'
  {
    if |s| > 2 {
      SlashBeforeLast(s[1..]);
    }
  }

  /** `PathUtils.get(s)` on a Unix file system. */
  function Get(s: string): Path {
    var c := Collapse(s);
    if |c| > 1 && c[|c| - 1] == '/' then
      NoDoubleSlashPrefix(c, |c| - 1);
      SlashBeforeLast(c);
      c[..|c| - 1]
    else
      c
  }

  /** Building a path never changes whether it is absolute. */
  lemma GetKeepsAbsolute(s: string)
    ensures IsAbsolute(Get(s)) <==> IsAbsolute(s)
  {
  }

  /** `get(p.toString())` is `p` again: the text of a path is already normal. */
  lemma GetOfNormal(s: string)
    requires IsNormal(s)
    ensures Get(s) == s
  {
  }
}
