/** String operations of the JavaScript runtime that the avatar code relies on:
    `String.prototype.includes`, `startsWith`, `trim`, `toLowerCase` (ASCII letters),
    `split` on a character class, and `Array.prototype.join`. */
module Text {

  /** `s.includes(sub)`: `sub` occurs in `s` at some position (the empty string occurs everywhere). */
  predicate Contains(s: string, sub: string)
    decreases |s|
  {
    |sub| <= |s| && (s[..|sub|] == sub || Contains(s[1..], sub))
  }

  /** `Contains` agrees with the positional definition of a substring. */
  lemma {:induction false} ContainsAt(s: string, sub: string, i: nat)
    requires i + |sub| <= |s| && s[i..i + |sub|] == sub
    ensures Contains(s, sub)
    decreases i
  {
    if i > 0 {
      assert s[1..][i - 1..i - 1 + |sub|] == s[i..i + |sub|];
      ContainsAt(s[1..], sub, i - 1);
    }
  }

  /** A string lacking some character of `sub` cannot contain `sub`. */
  lemma {:induction false} MissingCharNotContained(s: string, sub: string, c: char)
    requires c in sub && c !in s
    ensures !Contains(s, sub)
    decreases |s|
  {
    if |sub| <= |s| {
      var k :| 0 <= k < |sub| && sub[k] == c;
      assert s[..|sub|][k] != c;
      MissingCharNotContained(s[1..], sub, c);
    }
  }

  /** `words.some(w => s.includes(w))`, scanned front to back. */
  predicate SomeContained(s: string, words: seq<string>)
    ensures SomeContained(s, words) <==> exists i :: 0 <= i < |words| && Contains(s, words[i])
  {
    if words == [] then false
    else
      assert forall i :: 1 <= i < |words| ==> words[1..][i - 1] == words[i];
      Contains(s, words[0]) || SomeContained(s, words[1..])
  }

  /** `s.startsWith(p)`. */
  predicate StartsWith(s: string, p: string)
  {
    |p| <= |s| && s[..|p|] == p
  }

  predicate IsAsciiUpper(c: char)
  {
    'A' <= c <= 'Z'
  }

  /** `toLowerCase` on one character; only the ASCII letters are folded in this model. */
  function LowerChar(c: char): char
  {
    if IsAsciiUpper(c) then (c as int + 32) as char else c
  }

  /** `toLowerCase` over ASCII: the length is kept, no capital is left, every other character is
      kept, and each capital becomes the small letter at the same place in the alphabet. */
  function ToLower(s: string): (r: string)
    ensures |r| == |s|
    ensures forall i :: 0 <= i < |r| ==> !IsAsciiUpper(r[i])
    ensures forall i :: 0 <= i < |s| && !IsAsciiUpper(s[i]) ==> r[i] == s[i]
    ensures forall i :: 0 <= i < |s| && IsAsciiUpper(s[i]) ==>
              'a' <= r[i] <= 'z' && r[i] as int - 'a' as int == s[i] as int - 'A' as int
  {
    seq(|s|, i requires 0 <= i < |s| => LowerChar(s[i]))
  }

  /** Lower-casing twice is lower-casing once. */
  lemma ToLowerIdempotent(s: string)
    ensures ToLower(ToLower(s)) == ToLower(s)
  {
    var r := ToLower(s);
    assert forall i :: 0 <= i < |r| ==> ToLower(r)[i] == r[i];
  }

  /** A lower-cased string has no ASCII capital, so it can never contain a name spelled with one. */
  lemma LoweredHasNoCapital(s: string, c: char)
    requires IsAsciiUpper(c)
    ensures c !in ToLower(s)
  {
    forall k | 0 <= k < |s| ensures ToLower(s)[k] != c {
      assert ToLower(s)[k] == LowerChar(s[k]);
    }
  }

  const WhiteChars: set<char> := {' ', '\t', '\n', '\r', '\U{B}', '\U{C}', '\U{A0}', '\U{1680}',
    '\U{2028}', '\U{2029}', '\U{202F}', '\U{205F}', '\U{3000}', '\U{FEFF}'}

  /** The characters removed by `String.prototype.trim` (WhiteSpace and LineTerminator). */
  predicate IsWhite(c: char)
  {
    c in WhiteChars || '\U{2000}' <= c <= '\U{200A}'
  }

  function TrimStart(s: string): string
  {
    if s != [] && IsWhite(s[0]) then TrimStart(s[1..]) else s
  }

  function TrimEnd(s: string): string
  {
    if s != [] && IsWhite(s[|s| - 1]) then TrimEnd(s[..|s| - 1]) else s
  }

  /** `s.trim()`. */
  function Trim(s: string): string
  {
    TrimEnd(TrimStart(s))
  }

  /** `TrimStart` removes a white prefix, and exactly the longest one. */
  lemma {:induction false} TrimStartSpec(s: string)
    ensures |TrimStart(s)| <= |s| && TrimStart(s) == s[|s| - |TrimStart(s)|..]
    ensures TrimStart(s) == [] || !IsWhite(TrimStart(s)[0])
    ensures forall i :: 0 <= i < |s| - |TrimStart(s)| ==> IsWhite(s[i])
    decreases |s|
  {
    if s != [] && IsWhite(s[0]) {
      TrimStartSpec(s[1..]);
      forall i | 1 <= i < |s| - |TrimStart(s)|
        ensures IsWhite(s[i])
      {
        assert s[i] == s[1..][i - 1];
      }
    }
  }

  /** `TrimEnd` removes a white suffix, and exactly the longest one. */
  lemma {:induction false} TrimEndSpec(s: string)
    ensures |TrimEnd(s)| <= |s| && TrimEnd(s) == s[..|TrimEnd(s)|]
    ensures TrimEnd(s) == [] || !IsWhite(TrimEnd(s)[|TrimEnd(s)| - 1])
    ensures forall i :: |TrimEnd(s)| <= i < |s| ==> IsWhite(s[i])
    decreases |s|
  {
    if s != [] && IsWhite(s[|s| - 1]) {
      TrimEndSpec(s[..|s| - 1]);
      forall i | |TrimEnd(s)| <= i < |s| - 1
        ensures IsWhite(s[i])
      {
        assert s[i] == s[..|s| - 1][i];
      }
    }
  }

  lemma BlankTrimsAway(s: string)
    requires forall i :: 0 <= i < |s| ==> IsWhite(s[i])
    ensures TrimStart(s) == ""
  {
    TrimStartSpec(s);
    var t := TrimStart(s);
    assert |t| > 0 ==> t[0] == s[|s| - |t|];
  }

  lemma NonBlankSurvivesTrim(s: string, k: nat)
    requires k < |s| && !IsWhite(s[k])
    ensures Trim(s) != ""
  {
    TrimStartSpec(s);
    var t := TrimStart(s);
    TrimEndSpec(t);
    assert k >= |s| - |t|;
    var j := k - (|s| - |t|);
    assert t[j] == s[k];
    assert j < |TrimEnd(t)|;
  }

  /** Trimming yields the empty string exactly when the input is all white space,
      which is how the source's `!text.trim()` guards read. */
  lemma TrimEmptyIffBlank(s: string)
    ensures Trim(s) == "" <==> forall i :: 0 <= i < |s| ==> IsWhite(s[i])
  {
    if forall i :: 0 <= i < |s| ==> IsWhite(s[i]) {
      BlankTrimsAway(s);
    } else {
      var k :| 0 <= k < |s| && !IsWhite(s[k]);
      NonBlankSurvivesTrim(s, k);
    }
  }

  /** A trimmed string neither starts nor ends with white space. */
  lemma TrimmedHasNoOuterWhite(s: string)
    ensures Trim(s) == "" || (!IsWhite(Trim(s)[0]) && !IsWhite(Trim(s)[|Trim(s)| - 1]))
  {
    TrimStartSpec(s);
    var t := TrimStart(s);
    TrimEndSpec(t);
    var r := TrimEnd(t);
    if r != "" {
      assert r[0] == t[0];
    }
  }

  /** `parts.join(sep)`. */
  function Join(parts: seq<string>, sep: string): string
  {
    if parts == [] then ""
    else if |parts| == 1 then parts[0]
    else parts[0] + sep + Join(parts[1..], sep)
  }

  lemma {:induction false} JoinSnoc(parts: seq<string>, last: string, sep: string)
    requires parts != []
    ensures Join(parts + [last], sep) == Join(parts, sep) + sep + last
    decreases |parts|
  {
    if |parts| == 1 {
      assert (parts + [last])[1..] == [last];
    } else {
      assert (parts + [last])[1..] == parts[1..] + [last];
      JoinSnoc(parts[1..], last, sep);
    }
  }

  lemma {:induction false} JoinAppend(a: seq<string>, b: seq<string>, sep: string)
    requires a != [] && b != []
    ensures Join(a + b, sep) == Join(a, sep) + sep + Join(b, sep)
    decreases |a|
  {
    if |a| == 1 {
      assert (a + b)[1..] == b;
    } else {
      assert (a + b)[1..] == a[1..] + b;
      JoinAppend(a[1..], b, sep);
    }
  }

  /** The length of a join: every part plus one separator between neighbours. */
  lemma {:induction false} JoinLength(parts: seq<string>, sep: string, i: nat)
    requires i < |parts| && |parts| >= 2
    ensures |Join(parts, sep)| >= |parts[i]| + |sep| + |parts[if i == 0 then 1 else 0]|
    decreases |parts|
  {
    if i > 0 && |parts| > 2 {
      JoinLength(parts[1..], sep, i - 1);
    }
  }

  /** The characters at which `split(/[.!?。！？]/)` cuts a text into sentences. */
  predicate IsSentenceEnd(c: char)
  {
    c == '.' || c == '!' || c == '?' || c == '\U{3002}' || c == '\U{FF01}' || c == '\U{FF1F}'
  }

  /** `text.split(/[.!?。！？]/)`: the pieces between sentence ends, empty pieces kept. */
  function SplitSentences(s: string): (r: seq<string>)
    ensures |r| >= 1
  {
    if s == [] then [""]
    else
      var rest := SplitSentences(s[1..]);
      if IsSentenceEnd(s[0]) then [""] + rest else [[s[0]] + rest[0]] + rest[1..]
  }

  function Concat(parts: seq<string>): string
  {
    if parts == [] then "" else parts[0] + Concat(parts[1..])
  }

  function DropSentenceEnds(s: string): string
  {
    if s == [] then ""
    else (if IsSentenceEnd(s[0]) then "" else [s[0]]) + DropSentenceEnds(s[1..])
  }

  /** Splitting loses only the sentence ends: no piece holds one, and the pieces in order
      spell the text with its sentence ends removed. */
  lemma {:induction false} SplitSentencesSound(s: string)
    ensures Concat(SplitSentences(s)) == DropSentenceEnds(s)
    ensures forall k, j :: 0 <= k < |SplitSentences(s)| && 0 <= j < |SplitSentences(s)[k]|
              ==> !IsSentenceEnd(SplitSentences(s)[k][j])
  {
    if s != [] {
      var rest := SplitSentences(s[1..]);
      SplitSentencesSound(s[1..]);
      if IsSentenceEnd(s[0]) {
        assert ([""] + rest)[1..] == rest;
      } else {
        var r := [[s[0]] + rest[0]] + rest[1..];
        assert r[1..] == rest[1..];
        assert Concat(rest) == rest[0] + Concat(rest[1..]);
        forall k, j | 0 <= k < |r| && 0 <= j < |r[k]| ensures !IsSentenceEnd(r[k][j]) {
          if k == 0 && j > 0 {
            assert r[0][j] == rest[0][j - 1];
          } else if k > 0 {
            assert r[k] == rest[k];
          }
        }
      }
    }
  }

  /** The sentence ends of a text, in order. */
  function SentenceEnds(s: string): string
  {
    if s == [] then ""
    else (if IsSentenceEnd(s[0]) then [s[0]] else "") + SentenceEnds(s[1..])
  }

  /** `pieces[0] + ends[0] + pieces[1] + ends[1] + ... + pieces[n]`. */
  function Interleave(pieces: seq<string>, ends: string): string
    requires |pieces| == |ends| + 1
    decreases |ends|
  {
    if ends == [] then pieces[0] else pieces[0] + [ends[0]] + Interleave(pieces[1..], ends[1..])
  }

  /** The split cuts at every sentence end and nowhere else: there is one piece more than there
      are sentence ends, and putting the ends back between the pieces gives the text again. */
  lemma {:induction false} SplitSentencesRebuild(s: string)
    ensures |SplitSentences(s)| == |SentenceEnds(s)| + 1
    ensures Interleave(SplitSentences(s), SentenceEnds(s)) == s
  {
    if s != [] {
      var rest := SplitSentences(s[1..]);
      var ends := SentenceEnds(s[1..]);
      SplitSentencesRebuild(s[1..]);
      if IsSentenceEnd(s[0]) {
        assert SentenceEnds(s) == [s[0]] + ends;
        var r := [""] + rest;
        assert r[1..] == rest;
        assert ([s[0]] + ends)[1..] == ends;
        assert Interleave(r, [s[0]] + ends) == "" + [s[0]] + Interleave(rest, ends);
        assert s == [s[0]] + s[1..];
      } else {
        assert SentenceEnds(s) == ends;
        var r := [[s[0]] + rest[0]] + rest[1..];
        if ends == [] {
          assert Interleave(r, ends) == [s[0]] + rest[0];
          assert s == [s[0]] + s[1..];
        } else {
          assert r[1..] == rest[1..];
          calc {
            Interleave(r, ends);
            ([s[0]] + rest[0]) + [ends[0]] + Interleave(rest[1..], ends[1..]);
            [s[0]] + (rest[0] + [ends[0]] + Interleave(rest[1..], ends[1..]));
            [s[0]] + Interleave(rest, ends);
            s;
          }
        }
      }
    }
  }
}
