/**
 * The few Python string and path primitives the core relies on: truthiness and `or` on
 * optional strings, `str.split`, `str.replace(old, "")`, `str.rfind`, `str.rstrip` and the
 * POSIX `os.path.basename` / `os.path.dirname`.
 */
module Text {
  import opened Wrappers

  /** Python truthiness of a string that may be `None`: `None` and `""` are false. */
  predicate Truthy(s: Option<string>) {
    s.Some? && s.value != ""
  }

  /** Python's `a or b`: `a` when it is truthy, otherwise `b`. */
  function Or(a: Option<string>, b: Option<string>): Option<string> {
    if Truthy(a) then a else b
  }

  /** Python's `a or b` where `b` is a string. */
  function OrElse(a: Option<string>, b: string): string {
    if Truthy(a) then a.value else b
  }

  // ---------------------------------------------------------------- str.split(sep)

  /** Python's `s.split(sep)` for a one-character separator: one more piece than separators. */
  function Split(s: string, sep: char): (parts: seq<string>)
    ensures |parts| >= 1
  {
    if s == [] then [[]]
    else
      var rest := Split(s[1..], sep);
      if s[0] == sep then [[]] + rest
      else [[s[0]] + rest[0]] + rest[1..]
  }

  /**
   * The first piece of a split is the longest separator-free prefix; if the string holds the
   * separator, that prefix is followed by it and the remaining pieces are the split of the rest.
   */
  lemma {:induction false} SplitFirst(s: string, sep: char)
    ensures var p := Split(s, sep);
      && |p[0]| <= |s| && s[..|p[0]|] == p[0] && sep !in p[0]
      && (sep in s <==> |p| >= 2)
      && (sep !in s ==> p == [s])
      && (sep in s ==> |p[0]| < |s| && s[|p[0]|] == sep && p[1..] == Split(s[|p[0]| + 1..], sep))
  {
    if s != [] {
      var rest := Split(s[1..], sep);
      SplitFirst(s[1..], sep);
      if s[0] != sep {
        assert sep in s <==> sep in s[1..];
        var p := Split(s, sep);
        assert p[0] == [s[0]] + rest[0];
        assert s[..|p[0]|] == [s[0]] + s[1..][..|rest[0]|];
        if sep in s {
          assert s[|p[0]| + 1..] == s[1..][|rest[0]| + 1..];
        } else {
          assert rest == [s[1..]];
          assert [s[0]] + s[1..] == s;
          assert p == [s];
        }
      }
    }
  }

  // ---------------------------------------------------------------- str.replace(pat, "")

  /** Python's `s.replace(pat, "")`: deletes the non-overlapping occurrences of `pat`, left to right. */
  function RemoveAll(s: string, pat: string): string
    requires pat != []
    decreases |s|
  {
    if |s| < |pat| then s
    else if s[..|pat|] == pat then RemoveAll(s[|pat|..], pat)
    else [s[0]] + RemoveAll(s[1..], pat)
  }

  /** A prefix that cannot start an occurrence of `pat` is kept as it is. */
  lemma {:induction false} RemoveAllKeepsPrefix(x: string, y: string, pat: string)
    requires pat != [] && pat[0] !in x
    ensures RemoveAll(x + y, pat) == x + RemoveAll(y, pat)
    decreases |x|
  {
    if x != [] {
      var s := x + y;
      assert s[0] == x[0];
      assert |s| >= |pat| ==> s[..|pat|] != pat;
      if |s| < |pat| {
        RemoveAllShort(s, pat);
        RemoveAllShort(y, pat);
        assert RemoveAll(x + y, pat) == x + RemoveAll(y, pat);
      } else {
        assert s[..|pat|] != pat;
        assert RemoveAll(s, pat) == [s[0]] + RemoveAll(s[1..], pat);
        assert s[1..] == x[1..] + y;
        RemoveAllKeepsPrefix(x[1..], y, pat);
        assert RemoveAll(s, pat) == [x[0]] + (x[1..] + RemoveAll(y, pat));
        assert [x[0]] + x[1..] == x;
      }
    } else {
      assert x + y == y;
    }
  }

  /** A string shorter than the pattern is unchanged. */
  lemma RemoveAllShort(s: string, pat: string)
    requires pat != [] && |s| < |pat|
    ensures RemoveAll(s, pat) == s
  {
  }

  /** An occurrence at the front is deleted. */
  lemma RemoveAllDropsFront(pat: string, y: string)
    requires pat != []
    ensures RemoveAll(pat + y, pat) == RemoveAll(y, pat)
  {
    assert (pat + y)[..|pat|] == pat;
    assert (pat + y)[|pat|..] == y;
  }

  /** A string in which the pattern's first character never occurs is unchanged. */
  lemma RemoveAllAbsent(s: string, pat: string)
    requires pat != [] && pat[0] !in s
    ensures RemoveAll(s, pat) == s
  {
    RemoveAllKeepsPrefix(s, [], pat);
    assert s + [] == s;
    RemoveAllShort([], pat);
  }

  /** `s` with every `c` dropped and every other character kept, in order. */
  function Without(s: string, c: char): string {
    if s == [] then [] else (if s[0] == c then [] else [s[0]]) + Without(s[1..], c)
  }

  /** Deleting a single character is dropping it: every other character stays, in order and with its multiplicity. */
  lemma {:induction false} RemoveAllCharIsWithout(s: string, c: char)
    ensures RemoveAll(s, [c]) == Without(s, c)
    decreases |s|
  {
    if s != [] {
      RemoveAllCharIsWithout(s[1..], c);
      if s[0] == c {
        assert s[..1] == [c];
      } else {
        assert s[..1] != [c];
      }
    }
  }

  /** Deleting a single character removes every occurrence of it and keeps every other character. */
  lemma {:induction false} RemoveAllChar(s: string, c: char)
    ensures c !in RemoveAll(s, [c])
    ensures forall x :: x != c ==> (x in RemoveAll(s, [c]) <==> x in s)
    decreases |s|
  {
    if s != [] {
      RemoveAllChar(s[1..], c);
      if s[..1] == [c] {
        assert s[0] == c;
        assert RemoveAll(s, [c]) == RemoveAll(s[1..], [c]);
      } else {
        assert s[0] != c;
        assert RemoveAll(s, [c]) == [s[0]] + RemoveAll(s[1..], [c]);
      }
      assert s == [s[0]] + s[1..];
    }
  }

  // ---------------------------------------------------------------- rfind, rstrip, posixpath

  /** Python's `s.rfind(c)`: the index of the last `c`, or -1. */
  function RFind(s: string, c: char): (i: int)
    ensures -1 <= i < |s|
    ensures i >= 0 ==> s[i] == c
    ensures forall j :: i < j < |s| ==> s[j] != c
  {
    if s == [] then -1
    else if s[|s| - 1] == c then |s| - 1
    else RFind(s[..|s| - 1], c)
  }

  /** Python's `s.rstrip(c)`. */
  function RStrip(s: string, c: char): (r: string)
    ensures |r| <= |s| && r == s[..|r|]
    ensures r == [] || r[|r| - 1] != c
    ensures forall j :: |r| <= j < |s| ==> s[j] == c
  {
    if s == [] || s[|s| - 1] != c then s
    else RStrip(s[..|s| - 1], c)
  }

  /** `os.path.basename`: the text after the last '/'. */
  function BaseName(p: string): (r: string)
    ensures '/' !in r
    ensures |r| <= |p| && p[|p| - |r|..] == r
  {
    var i := RFind(p, '/') + 1;
    p[i..]
  }

  /** The base name is everything after the last '/': the whole path, or the text just behind a '/'. */
  lemma BaseNameAfterLastSlash(p: string)
    ensures var r := BaseName(p);
      && (|r| == |p| || p[|p| - |r| - 1] == '/')
      && ('/' !in p ==> r == p)
  {
  }

  /** `os.path.dirname`: the text up to the last '/', with trailing slashes removed unless it is all slashes. */
  function DirName(p: string): string {
    var head := p[..RFind(p, '/') + 1];
    if head != [] && (exists j :: 0 <= j < |head| && head[j] != '/') then RStrip(head, '/') else head
  }

  /** The directory of a path ending in one '/' is the path without that '/'. */
  lemma DirNameOfDirectory(q: string)
    requires q != [] && q[|q| - 1] != '/'
    ensures DirName(q + "/") == q
  {
    var p := q + "/";
    assert RFind(p, '/') == |q|;
    assert p[..|q| + 1] == p;
    assert p[|q| - 1] != '/';
    assert p[..|p| - 1] == q;
  }
}
