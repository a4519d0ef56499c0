/** The string helpers the convention relies on: postfix removal, the leading
    Pascal/camel word, ASCII lower-casing and the single-pass
    `Replace("//", "/")` that tidies route templates. */
module Strings {

  /** `p` is a suffix of `s` (ordinal `EndsWith`). */
  predicate IsSuffix(p: string, s: string) {
    |p| <= |s| && s[|s| - |p|..] == p
  }

  /** Removes the first postfix of the list that `s` ends with, once;
      returns `s` unchanged when it ends with none of them. */
  function RemovePostfix(s: string, postfixes: seq<string>): (r: string)
    ensures r <= s
    ensures (forall p | p in postfixes :: !IsSuffix(p, s)) ==> r == s
    ensures forall i | 0 <= i < |postfixes| && IsSuffix(postfixes[i], s)
              && (forall j | 0 <= j < i :: !IsSuffix(postfixes[j], s)) :: r + postfixes[i] == s
    decreases |postfixes|
  {
    if |postfixes| == 0 then s
    else if IsSuffix(postfixes[0], s) then s[..|s| - |postfixes[0]|]
    else RemovePostfix(s, postfixes[1..])
  }

  /** A prefix and the rest of the string give back the string. */
  lemma PrefixSplit(w: string, s: string)
    requires w <= s
    ensures s == w + s[|w|..]
  {
  }

  predicate IsUpper(c: char) {
    'A' <= c <= 'Z'
  }

  /** The longest prefix of `s` holding no upper-case letter. */
  function LowerRun(s: string): (r: string)
    ensures r <= s
    ensures forall i | 0 <= i < |r| :: !IsUpper(r[i])
    ensures |r| < |s| ==> IsUpper(s[|r|])
  {
    if |s| == 0 || IsUpper(s[0]) then "" else [s[0]] + LowerRun(s[1..])
  }

  /** The first word of a Pascal- or camel-case identifier: its first
      character followed by every character up to the next upper-case letter.
      `GetOrderById` gives `Get`, `findAll` gives `find`. */
  function LeadingWord(s: string): (w: string)
    ensures w <= s
    ensures |s| > 0 <==> |w| > 0
    ensures forall i | 0 < i < |w| :: !IsUpper(w[i])
    ensures 0 < |w| < |s| ==> IsUpper(s[|w|])
  {
    if |s| == 0 then "" else [s[0]] + LowerRun(s[1..])
  }

  function LowerChar(c: char): char {
    if IsUpper(c) then (c as int + 32) as char else c
  }

  /** Invariant-culture lower-casing restricted to ASCII letters. */
  function ToLower(s: string): (r: string)
    ensures |r| == |s|
    ensures forall i | 0 <= i < |s| :: r[i] == LowerChar(s[i])
    ensures forall i | 0 <= i < |r| :: !IsUpper(r[i])
  {
    seq(|s|, i requires 0 <= i < |s| => LowerChar(s[i]))
  }

  /** A string that is already lower-case is its own lower-cased form. */
  lemma ToLowerOfLower(s: string)
    requires forall i | 0 <= i < |s| :: !IsUpper(s[i])
    ensures ToLower(s) == s
  {
  }

  predicate DoubleSlashAt(s: string, i: int)
    requires 0 <= i
  {
    i + 1 < |s| && s[i] == '/' && s[i + 1] == '/'
  }

  /** `s` holds no two adjacent slashes. */
  predicate NoDoubleSlash(s: string) {
    forall i | 0 <= i < |s| :: !DoubleSlashAt(s, i)
  }

  /** `s` holds no three adjacent slashes. */
  predicate NoTripleSlash(s: string) {
    forall i | 0 <= i < |s| :: !(DoubleSlashAt(s, i) && i + 2 < |s| && s[i + 2] == '/')
  }

  predicate EndsWithSlash(s: string) {
    |s| > 0 && s[|s| - 1] == '/'
  }

  predicate HasNoSlash(s: string) {
    forall i | 0 <= i < |s| :: s[i] != '/'
  }

  /** Ordinal `s.Replace("//", "/")`: one left-to-right pass that rewrites
      each non-overlapping occurrence of `//`; a run of slashes therefore
      only halves (`///` becomes `//`). */
  function ReplaceDoubleSlash(s: string): (r: string)
    ensures |r| <= |s|
    ensures |s| > 0 ==> |r| > 0 && r[0] == s[0]
  {
    if |s| < 2 then s
    else if s[0] == '/' && s[1] == '/' then "/" + ReplaceDoubleSlash(s[2..])
    else [s[0]] + ReplaceDoubleSlash(s[1..])
  }

  /** The pass changes the string exactly when it holds a `//`, and then
      shortens it. */
  lemma {:induction false} ReplaceChangesExactlyDoubleSlash(s: string)
    ensures NoDoubleSlash(s) ==> ReplaceDoubleSlash(s) == s
    ensures !NoDoubleSlash(s) ==> |ReplaceDoubleSlash(s)| < |s|
    decreases |s|
  {
    if |s| < 2 {
    } else if s[0] == '/' && s[1] == '/' {
      assert DoubleSlashAt(s, 0);
    } else {
      var t := s[1..];
      ReplaceChangesExactlyDoubleSlash(t);
      assert !DoubleSlashAt(s, 0);
      forall i | 0 <= i < |t| ensures DoubleSlashAt(t, i) <==> DoubleSlashAt(s, i + 1) { }
      if !NoDoubleSlash(s) {
        var i :| 0 <= i < |s| && DoubleSlashAt(s, i);
        assert i > 0 && DoubleSlashAt(t, i - 1);
      }
    }
  }

  /** A string without `///` loses every `//` in the pass. */
  lemma {:induction false} ReplaceLeavesNoDoubleSlash(s: string)
    requires NoTripleSlash(s)
    ensures NoDoubleSlash(ReplaceDoubleSlash(s))
    decreases |s|
  {
    if |s| < 2 {
    } else if s[0] == '/' && s[1] == '/' {
      var t := s[2..];
      assert NoTripleSlash(t) by {
        forall i | 0 <= i < |t| ensures !(DoubleSlashAt(t, i) && i + 2 < |t| && t[i + 2] == '/') {
          assert !(DoubleSlashAt(s, i + 2) && i + 4 < |s| && s[i + 4] == '/');
        }
      }
      ReplaceLeavesNoDoubleSlash(t);
      var rest := ReplaceDoubleSlash(t);
      var r := "/" + rest;
      assert |t| > 0 ==> t[0] != '/' by { assert !(DoubleSlashAt(s, 0) && 2 < |s| && s[2] == '/'); }
      forall i | 0 <= i < |r| ensures !DoubleSlashAt(r, i) {
        if i > 0 {
          assert DoubleSlashAt(r, i) ==> DoubleSlashAt(rest, i - 1);
        }
      }
    } else {
      var t := s[1..];
      assert NoTripleSlash(t) by {
        forall i | 0 <= i < |t| ensures !(DoubleSlashAt(t, i) && i + 2 < |t| && t[i + 2] == '/') {
          assert !(DoubleSlashAt(s, i + 1) && i + 3 < |s| && s[i + 3] == '/');
        }
      }
      ReplaceLeavesNoDoubleSlash(t);
      var rest := ReplaceDoubleSlash(t);
      var r := [s[0]] + rest;
      forall i | 0 <= i < |r| ensures !DoubleSlashAt(r, i) {
        if i > 0 {
          assert DoubleSlashAt(r, i) ==> DoubleSlashAt(rest, i - 1);
        }
      }
    }
  }

  /** The single pass does not collapse a run of three slashes: `///` keeps two. */
  lemma ReplaceIsSinglePass()
    ensures ReplaceDoubleSlash("///") == "//"
    ensures ReplaceDoubleSlash("a////b") == "a//b"
  {
  }

  /** The pass splits at any point not preceded by a slash: a match can
      never straddle the boundary. */
  lemma {:induction false} ReplaceAppend(a: string, b: string)
    requires !EndsWithSlash(a)
    ensures ReplaceDoubleSlash(a + b) == ReplaceDoubleSlash(a) + ReplaceDoubleSlash(b)
    decreases |a|
  {
    if |a| == 0 {
      assert a + b == b;
    } else if |a| == 1 {
      var s := a + b;
      if |s| >= 2 {
        assert s[0] == a[0] != '/';
        assert s[1..] == b;
      }
    } else if a[0] == '/' && a[1] == '/' {
      var s := a + b;
      assert s[2..] == a[2..] + b;
      assert !EndsWithSlash(a[2..]);
      ReplaceAppend(a[2..], b);
    } else {
      var s := a + b;
      assert s[1..] == a[1..] + b;
      assert !EndsWithSlash(a[1..]);
      ReplaceAppend(a[1..], b);
    }
  }

  /** A slash followed by a slash-free segment holds no `//`. */
  lemma SlashSegmentTidy(x: string)
    requires HasNoSlash(x)
    ensures NoDoubleSlash("/" + x)
    ensures !EndsWithSlash("/" + x) <==> |x| > 0
  {
    var s := "/" + x;
    forall i | 0 <= i < |s| ensures !DoubleSlashAt(s, i) {
      if i + 1 < |s| {
        assert s[i + 1] == x[i];
      }
    }
  }

  /** A slash followed by a slash-free segment is left alone by the pass. */
  lemma SlashSegmentUnchanged(x: string)
    requires HasNoSlash(x)
    ensures ReplaceDoubleSlash("/" + x) == "/" + x
    ensures !EndsWithSlash("/" + x) <==> |x| > 0
  {
    SlashSegmentTidy(x);
    ReplaceChangesExactlyDoubleSlash("/" + x);
  }

  /** The leading word is determined by its characterisation: a non-empty
      word with no upper-case letter after its first character, followed by
      nothing or by an upper-case letter, is the leading word. */
  lemma LeadingWordOf(word: string, rest: string)
    requires |word| > 0 && forall i | 0 < i < |word| :: !IsUpper(word[i])
    requires |rest| == 0 || IsUpper(rest[0])
    ensures LeadingWord(word + rest) == word
  {
    var s := word + rest;
    var w := LeadingWord(s);
    assert forall k | 0 <= k < |word| :: s[k] == word[k];
    assert |rest| > 0 ==> s[|word|] == rest[0];
    assert |w| == |word|;
    assert s[..|word|] == word;
  }
}
