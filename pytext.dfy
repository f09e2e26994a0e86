/** The Python `str` and slice operations the handlers use, over Dafny strings. */
module PyText {

  /** The characters Python's `str.isspace` accepts: exactly what `str.strip()` removes. */
  predicate IsSpace(c: char) {
    var n := c as int;
    n == 0x20 || 0x09 <= n <= 0x0D || 0x1C <= n <= 0x1F || n == 0x85 || n == 0xA0
    || n == 0x1680 || 0x2000 <= n <= 0x200A || n == 0x2028 || n == 0x2029
    || n == 0x202F || n == 0x205F || n == 0x3000
  }

  /** `s.lstrip()`: the longest suffix of `s` that does not start with whitespace. */
  function StripLeading(s: string): (r: string)
    ensures |r| <= |s| && r == s[|s| - |r|..]
    ensures forall k :: 0 <= k < |s| - |r| ==> IsSpace(s[k])
    ensures r == [] || !IsSpace(r[0])
  {
    if s != [] && IsSpace(s[0]) then StripLeading(s[1..]) else s
  }

  /** `s.rstrip()`: the longest prefix of `s` that does not end with whitespace. */
  function StripTrailing(s: string): (r: string)
    ensures |r| <= |s| && r == s[..|r|]
    ensures forall k :: |r| <= k < |s| ==> IsSpace(s[k])
    ensures r == [] || !IsSpace(r[|r| - 1])
  {
    if s != [] && IsSpace(s[|s| - 1]) then StripTrailing(s[..|s| - 1]) else s
  }

  /** `s.strip()`: `s` without its leading and trailing whitespace. */
  function Strip(s: string): (r: string)
    ensures |r| <= |s|
    ensures r == [] || (!IsSpace(r[0]) && !IsSpace(r[|r| - 1]))
    ensures r == [] <==> forall k :: 0 <= k < |s| ==> IsSpace(s[k])
    ensures Contains(s, r)
  {
    var t := StripLeading(s);
    var r := StripTrailing(t);
    assert t == s[|s| - |t|..];
    assert r == t[..|r|];
    assert r == s[|s| - |t|..|s| - |t| + |r|];
    assert MatchAt(s, r, |s| - |t|);
    r
  }

  /** ASCII lower-casing of one character. */
  function LowerChar(c: char): char {
    if 'A' <= c <= 'Z' then (c as int + 32) as char else c
  }

  /** `s.lower()`, restricted to ASCII letters. */
  function Lower(s: string): (r: string)
    ensures |r| == |s|
  {
    if s == [] then [] else [LowerChar(s[0])] + Lower(s[1..])
  }

  /** `Lower` maps every character on its own and leaves no upper-case ASCII letter. */
  lemma {:induction false} LowerByCharacter(s: string)
    ensures forall k :: 0 <= k < |s| ==> Lower(s)[k] == LowerChar(s[k])
    ensures forall k :: 0 <= k < |s| ==> !('A' <= Lower(s)[k] <= 'Z')
  {
    if s != [] {
      LowerByCharacter(s[1..]);
      assert forall k :: 1 <= k < |s| ==> Lower(s)[k] == Lower(s[1..])[k - 1];
    }
  }

  /** `part` occurs in `s` starting at index `i`. */
  predicate MatchAt(s: string, part: string, i: int) {
    0 <= i <= |s| - |part| && s[i..i + |part|] == part
  }

  /** `part in s` for strings: `part` occurs in `s` as a contiguous slice. */
  predicate Contains(s: string, part: string) {
    exists i | 0 <= i <= |s| - |part| :: MatchAt(s, part, i)
  }

  /** `s[:n]`. */
  function Take<T>(s: seq<T>, n: nat): (r: seq<T>)
    ensures |r| == if |s| <= n then |s| else n
    ensures r <= s
  {
    if |s| <= n then s else s[..n]
  }

  /** `s[-n:]` for a positive `n`: the last `n` elements, or all of `s` when it is shorter. */
  function TakeLast<T>(s: seq<T>, n: nat): (r: seq<T>)
    requires 0 < n
    ensures |r| == if |s| <= n then |s| else n
    ensures r == s[|s| - |r|..]
  {
    if |s| <= n then s else s[|s| - n..]
  }

  /** `s.replace(pat, rep)` for a non-empty `pat`: every occurrence, found left to right
      without overlap, is replaced. */
  function Replace(s: string, pat: string, rep: string): string
    requires pat != []
    decreases |s|
  {
    if |s| < |pat| then s
    else if s[..|pat|] == pat then rep + Replace(s[|pat|..], pat, rep)
    else [s[0]] + Replace(s[1..], pat, rep)
  }

  /** A string without any occurrence of `pat` is left as it is by `Replace`. */
  lemma {:induction false} ReplaceWithoutMatch(s: string, pat: string, rep: string)
    requires pat != [] && !Contains(s, pat)
    ensures Replace(s, pat, rep) == s
    decreases |s|
  {
    if |pat| <= |s| {
      assert !MatchAt(s, pat, 0);
      assert s[..|pat|] != pat;
      assert !Contains(s[1..], pat) by {
        forall i | MatchAt(s[1..], pat, i)
          ensures false
        {
          assert s[1..][i..i + |pat|] == s[i + 1..i + 1 + |pat|];
          assert MatchAt(s, pat, i + 1);
        }
      }
      ReplaceWithoutMatch(s[1..], pat, rep);
    }
  }

  lemma ReplaceShort(x: string)
    requires |x| < 4
    ensures Replace(x, ".mp3", ".wav") == x
  {
  }

  /** Appending ".mp3" and then replacing every ".mp3" by ".wav" is the same as replacing
      first and appending ".wav": no occurrence can straddle the join, because no proper
      prefix of ".mp3" is also a suffix of it. */
  lemma {:induction false} ReplaceMp3Suffix(x: string)
    ensures Replace(x + ".mp3", ".mp3", ".wav") == Replace(x, ".mp3", ".wav") + ".wav"
    decreases |x|
  {
    var s := x + ".mp3";
    if |x| == 0 {
      assert s == ".mp3" && s[4..] == [];
    } else if |x| < 4 {
      assert s[..4] != ".mp3" by { assert s[|x|] == '.' != ".mp3"[|x|]; }
      assert s[1..] == x[1..] + ".mp3";
      ReplaceMp3Suffix(x[1..]);
      ReplaceShort(x[1..]);
      ReplaceShort(x);
      assert x == [x[0]] + x[1..];
    } else if x[..4] == ".mp3" {
      assert s[..4] == x[..4];
      assert s[4..] == x[4..] + ".mp3";
      ReplaceMp3Suffix(x[4..]);
    } else {
      assert s[..4] == x[..4];
      assert s[1..] == x[1..] + ".mp3";
      ReplaceMp3Suffix(x[1..]);
    }
  }

  /** `os.path.basename(p)` on POSIX: what follows the last '/'. */
  function Basename(p: string): (r: string)
    ensures '/' !in r
    ensures |r| <= |p| && r == p[|p| - |r|..]
    ensures |r| == |p| || p[|p| - |r| - 1] == '/'
  {
    if p == [] || p[|p| - 1] == '/' then [] else Basename(p[..|p| - 1]) + [p[|p| - 1]]
  }

  /** The base name of a path joined from a directory and a name without '/' is that name. */
  lemma {:induction false} BasenameOfJoin(dir: string, name: string)
    requires '/' !in name
    ensures Basename(dir + "/" + name) == name
    decreases |name|
  {
    var p := dir + "/" + name;
    if name == [] {
      assert p[|p| - 1] == '/';
    } else {
      var n := |name| - 1;
      assert p[..|p| - 1] == dir + "/" + name[..n];
      assert name[n] in name;
      BasenameOfJoin(dir, name[..n]);
      assert name == name[..n] + [name[n]];
    }
  }

  /** `s.rstrip(c)` for one character: `s` without its trailing run of `c`. */
  function RStripChar(s: string, c: char): (r: string)
    ensures |r| <= |s| && r == s[..|r|]
    ensures forall k :: |r| <= k < |s| ==> s[k] == c
    ensures r == [] || r[|r| - 1] != c
  {
    if s != [] && s[|s| - 1] == c then RStripChar(s[..|s| - 1], c) else s
  }
}
