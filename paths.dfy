/**
 * The two string helpers of the Python standard library that the provisioning
 * code relies on: `os.path.join` with two arguments (POSIX flavour) and
 * `" ".join(list)`.
 */
module Paths {

  /** True when `p` starts with the separator, i.e. names an absolute path. */
  predicate IsAbsolute(p: string)
  {
    |p| > 0 && p[0] == '/'
  }

  /**
   * `os.path.join(a, b)`: an absolute `b` replaces `a`; otherwise `b` is appended,
   * after a separator unless `a` is empty or already ends with one.
   */
  function JoinPath(a: string, b: string): string
  {
    if IsAbsolute(b) then b
    else if a == "" || a[|a| - 1] == '/' then a + b
    else a + "/" + b
  }

  /**
   * The joined path always ends with `b`; for a relative `b` it starts with `a`
   * and adds at most one separator; it is empty only when both parts are.
   */
  lemma JoinPathShape(a: string, b: string)
    ensures var r := JoinPath(a, b);
      && |b| <= |r| && r[|r| - |b|..] == b
      && (!IsAbsolute(b) ==> |a| <= |r| && r[..|a|] == a && |r| <= |a| + 1 + |b|)
      && (r != "" <==> a != "" || b != "")
  {
    var r := JoinPath(a, b);
    if !IsAbsolute(b) && !(a == "" || a[|a| - 1] == '/') {
      assert r == a + ("/" + b);
    }
  }

  /** A relative name under a directory that does not end with a separator gets exactly one. */
  lemma JoinPathUnder(dir: string, name: string)
    requires dir != "" && dir[|dir| - 1] != '/'
    requires !IsAbsolute(name)
    ensures JoinPath(dir, name) == dir + "/" + name
  {
  }

  /** `" ".join(words)`: the words separated by single spaces, "" for no words. */
  function JoinWords(words: seq<string>): string
  {
    if |words| == 0 then ""
    else if |words| == 1 then words[0]
    else words[0] + " " + JoinWords(words[1..])
  }

  /** Appending one more word to a join adds exactly one space and that word. */
  lemma {:induction false} JoinWordsAppend(words: seq<string>, w: string)
    ensures JoinWords(words + [w]) == if words == [] then w else JoinWords(words) + " " + w
  {
    if |words| >= 2 {
      assert (words + [w])[1..] == words[1..] + [w];
      JoinWordsAppend(words[1..], w);
    } else if |words| == 1 {
      assert words + [w] == [words[0], w];
    }
  }
}
