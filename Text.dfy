/** The Python string operations the statement parsers are built from: substring tests,
    `split("\n")`, `split()`, `split(sep)[-1]`, `replace(pat, "")`, slices with negative bounds and
    list indexing with negative indices. Strings are sequences of characters. */
module Text {
  import opened Results

  /** p is a prefix of s. */
  predicate IsPrefix(p: string, s: string) {
    |p| <= |s| && s[..|p|] == p
  }

  /** Python's `sub in s`. */
  function Contains(s: string, sub: string): bool
    decreases |s|
  {
    IsPrefix(sub, s) || (|s| > 0 && Contains(s[1..], sub))
  }

  /** sub occurs in s at position i. */
  predicate OccursAt(s: string, sub: string, i: int) {
    0 <= i && i + |sub| <= |s| && s[i..i + |sub|] == sub
  }

  /** Contains agrees with "sub occurs at some position of s". */
  lemma {:induction false} ContainsIff(s: string, sub: string)
    ensures Contains(s, sub) <==> exists i :: OccursAt(s, sub, i)
    decreases |s|
  {
    if IsPrefix(sub, s) {
      assert OccursAt(s, sub, 0);
    } else if |s| > 0 {
      ContainsIff(s[1..], sub);
      if exists i :: OccursAt(s, sub, i) {
        var i :| OccursAt(s, sub, i);
        assert i != 0;
        assert OccursAt(s[1..], sub, i - 1) by {
          assert s[1..][i - 1..i - 1 + |sub|] == s[i..i + |sub|];
        }
      }
      if exists i :: OccursAt(s[1..], sub, i) {
        var i :| OccursAt(s[1..], sub, i);
        assert OccursAt(s, sub, i + 1) by {
          assert s[1..][i..i + |sub|] == s[i + 1..i + 1 + |sub|];
        }
      }
    } else {
      assert forall i :: !OccursAt(s, sub, i);
    }
  }

  /** A substring of a substring is a substring. */
  lemma ContainsInfix(s: string, i: nat, j: nat, sub: string)
    requires i <= j <= |s| && Contains(s[i..j], sub)
    ensures Contains(s, sub)
  {
    ContainsIff(s[i..j], sub);
    var k :| OccursAt(s[i..j], sub, k);
    assert k + |sub| <= j - i;
    assert s[i + k..i + k + |sub|] == sub by {
      forall m | 0 <= m < |sub| ensures s[i + k..i + k + |sub|][m] == sub[m] {
        assert s[i..j][k..k + |sub|][m] == sub[m];
      }
    }
    assert OccursAt(s, sub, i + k);
    ContainsIff(s, sub);
  }

  /** The characters Python's `str.split()` treats as whitespace. */
  predicate IsSpace(c: char) {
    || '\t' <= c <= '\r'
    || '\U{1C}' <= c <= ' '
    || c == '\U{85}' || c == '\U{A0}' || c == '\U{1680}'
    || '\U{2000}' <= c <= '\U{200A}'
    || c == '\U{2028}' || c == '\U{2029}' || c == '\U{202F}' || c == '\U{205F}' || c == '\U{3000}'
  }

  /** s has no whitespace and is not empty: a possible result token of `split()`. */
  predicate IsWord(s: string) {
    |s| > 0 && forall k :: 0 <= k < |s| ==> !IsSpace(s[k])
  }

  /** The longest prefix of s without whitespace. */
  function Word(s: string): (w: string)
    ensures |w| <= |s| && w == s[..|w|]
    ensures forall k :: 0 <= k < |w| ==> !IsSpace(w[k])
    ensures |w| < |s| ==> IsSpace(s[|w|])
  {
    if s == [] || IsSpace(s[0]) then [] else [s[0]] + Word(s[1..])
  }

  /** Python's `s.split()`: the maximal runs of non-whitespace characters, in order. */
  function Tokens(s: string): (toks: seq<string>)
    ensures forall k :: 0 <= k < |toks| ==> IsWord(toks[k])
    decreases |s|
  {
    if s == [] then []
    else if IsSpace(s[0]) then Tokens(s[1..])
    else var w := Word(s); [w] + Tokens(s[|w|..])
  }

  /** Joins words with single spaces: `" ".join(ws)`. */
  function JoinWords(ws: seq<string>): string {
    if ws == [] then [] else if |ws| == 1 then ws[0] else ws[0] + " " + JoinWords(ws[1..])
  }

  lemma {:induction false} WordOfWordThenSpace(w: string, rest: string)
    requires IsWord(w) && (rest == [] || IsSpace(rest[0]))
    ensures Word(w + rest) == w
  {
    if |w| == 1 {
      assert (w + rest)[1..] == rest;
    } else {
      assert (w + rest)[1..] == w[1..] + rest;
      WordOfWordThenSpace(w[1..], rest);
    }
  }

  /** `split()` undoes `" ".join(ws)` when every ws[k] is a token. */
  lemma {:induction false} TokensOfJoinWords(ws: seq<string>)
    requires forall k :: 0 <= k < |ws| ==> IsWord(ws[k])
    ensures Tokens(JoinWords(ws)) == ws
  {
    if ws == [] {
    } else if |ws| == 1 {
      assert ws[0] + [] == ws[0];
      WordOfWordThenSpace(ws[0], []);
      assert ws[0][|ws[0]|..] == [];
    } else {
      var s := JoinWords(ws);
      var rest := " " + JoinWords(ws[1..]);
      assert s == ws[0] + rest;
      WordOfWordThenSpace(ws[0], rest);
      assert s[0] == ws[0][0];
      assert s[|ws[0]|..] == rest;
      assert rest[1..] == JoinWords(ws[1..]);
      TokensOfJoinWords(ws[1..]);
    }
  }

  /** A string containing a non-whitespace character has a token. */
  lemma {:induction false} TokensNonEmpty(s: string, i: nat)
    requires i < |s| && !IsSpace(s[i])
    ensures |Tokens(s)| > 0
    decreases i
  {
    if IsSpace(s[0]) {
      TokensNonEmpty(s[1..], i - 1);
    }
  }

  /** Python's `s.split(sep)` for a one-character separator: the pieces between separators. */
  function SplitOn(s: string, sep: char): (parts: seq<string>)
    ensures |parts| >= 1
    ensures forall k :: 0 <= k < |parts| ==> sep !in parts[k]
  {
    if s == [] then [[]]
    else
      var rest := SplitOn(s[1..], sep);
      if s[0] == sep then [[]] + rest else [[s[0]] + rest[0]] + rest[1..]
  }

  /** `sep.join(parts)`. */
  function Join(parts: seq<string>, sep: char): string
    requires |parts| >= 1
  {
    if |parts| == 1 then parts[0] else parts[0] + [sep] + Join(parts[1..], sep)
  }

  /** Joining the pieces of a split gives back the text. */
  lemma {:induction false} JoinSplitOn(s: string, sep: char)
    ensures Join(SplitOn(s, sep), sep) == s
  {
    if s != [] {
      var rest := SplitOn(s[1..], sep);
      JoinSplitOn(s[1..], sep);
      if s[0] == sep {
        assert SplitOn(s, sep)[1..] == rest;
      } else if |rest| == 1 {
      } else {
        var parts := SplitOn(s, sep);
        assert parts[1..] == rest[1..];
        assert Join(rest, sep) == rest[0] + [sep] + Join(rest[1..], sep);
      }
    }
  }

  /** Splitting the join of separator-free pieces gives back the pieces. */
  lemma {:induction false} SplitOnJoin(parts: seq<string>, sep: char)
    requires |parts| >= 1
    requires forall k :: 0 <= k < |parts| ==> sep !in parts[k]
    ensures SplitOn(Join(parts, sep), sep) == parts
    decreases |parts|, |parts[0]|
  {
    var s := Join(parts, sep);
    if parts[0] == [] {
      if |parts| > 1 {
        assert s == [sep] + Join(parts[1..], sep);
        assert s[1..] == Join(parts[1..], sep);
        SplitOnJoin(parts[1..], sep);
      }
    } else {
      var tail := [parts[0][1..]] + parts[1..];
      assert tail[1..] == parts[1..];
      assert forall k :: 0 <= k < |tail| ==> sep !in tail[k] by {
        forall k | 0 <= k < |tail| ensures sep !in tail[k] {
          if k == 0 {
            assert forall c :: c in parts[0][1..] ==> c in parts[0];
          } else {
            assert tail[k] == parts[k];
          }
        }
      }
      if |parts| == 1 {
        assert Join(tail, sep) == parts[0][1..];
      } else {
        assert Join(tail, sep) == parts[0][1..] + [sep] + Join(parts[1..], sep);
      }
      assert s == [parts[0][0]] + Join(tail, sep);
      assert s[1..] == Join(tail, sep);
      SplitOnJoin(tail, sep);
      assert s[0] == parts[0][0] && s[0] != sep;
      assert [parts[0][0]] + parts[0][1..] == parts[0];
    }
  }

  /** Python's `s.replace(pat, "")`: deletes the occurrences of pat found left to right,
      without overlaps. */
  function RemoveAll(s: string, pat: string): (r: string)
    requires |pat| > 0
    ensures |r| <= |s|
    decreases |s|
  {
    if IsPrefix(pat, s) then RemoveAll(s[|pat|..], pat)
    else if s == [] then []
    else [s[0]] + RemoveAll(s[1..], pat)
  }

  /** Without an occurrence of pat, replace(pat, "") changes nothing. */
  lemma {:induction false} RemoveAllAbsent(s: string, pat: string)
    requires |pat| > 0 && !Contains(s, pat)
    ensures RemoveAll(s, pat) == s
  {
    if s != [] {
      RemoveAllAbsent(s[1..], pat);
      assert [s[0]] + s[1..] == s;
    }
  }

  /** Removing a single character deletes every one of its occurrences and keeps the rest in order. */
  lemma {:induction false} RemoveAllChar(s: string, c: char)
    ensures RemoveAll(s, [c]) == Without(s, c)
  {
    if s != [] {
      RemoveAllChar(s[1..], c);
      if s[0] == c {
        assert IsPrefix([c], s);
      } else {
        assert !IsPrefix([c], s);
      }
    }
  }

  /** s with every occurrence of c left out. */
  function Without(s: string, c: char): (r: string)
    ensures c !in r
  {
    if s == [] then [] else (if s[0] == c then [] else [s[0]]) + Without(s[1..], c)
  }

  /** A suffix pat after a part that cannot start it is removed and nothing else is:
      "02-18-2022Shares".replace("Shares", "") is "02-18-2022". */
  lemma {:induction false} RemoveAllTrailing(a: string, pat: string)
    requires |pat| > 0
    requires forall k :: 0 <= k < |a| ==> a[k] != pat[0]
    ensures RemoveAll(a + pat, pat) == a
  {
    if a == [] {
      assert (a + pat)[|pat|..] == [];
      assert IsPrefix(pat, a + pat);
    } else {
      assert (a + pat)[0] != pat[0];
      assert (a + pat)[1..] == a[1..] + pat;
      RemoveAllTrailing(a[1..], pat);
      assert [a[0]] + a[1..] == a;
    }
  }

  /** Python's `s.split(sep)[-1]`: the text after the last place where `split` cuts s. */
  function AfterLast(s: string, sep: string): (r: string)
    requires |sep| > 0
    ensures |r| <= |s| && r == s[|s| - |r|..]
    ensures !Contains(r, sep)
    decreases |s|
  {
    if IsPrefix(sep, s) then
      var r := AfterLast(s[|sep|..], sep);
      assert s[|sep|..][|s| - |sep| - |r|..] == s[|s| - |r|..];
      r
    else if |s| > 0 && Contains(s[1..], sep) then
      var r := AfterLast(s[1..], sep);
      assert s[1..][|s| - 1 - |r|..] == s[|s| - |r|..];
      r
    else
      s
  }

  /** When s contains sep, `s.split(sep)[-1]` is preceded by an occurrence of sep. */
  lemma {:induction false} AfterLastFollowsSep(s: string, sep: string)
    requires |sep| > 0 && Contains(s, sep)
    ensures OccursAt(s, sep, |s| - |AfterLast(s, sep)| - |sep|)
    decreases |s|
  {
    var r := AfterLast(s, sep);
    if IsPrefix(sep, s) {
      var t := s[|sep|..];
      if Contains(t, sep) {
        AfterLastFollowsSep(t, sep);
        assert t[|t| - |r| - |sep|..|t| - |r|] == s[|s| - |r| - |sep|..|s| - |r|];
      } else {
        assert AfterLast(t, sep) == t;
        assert s[0..|sep|] == sep;
      }
    } else {
      assert Contains(s[1..], sep);
      AfterLastFollowsSep(s[1..], sep);
      assert s[1..][|s| - 1 - |r| - |sep|..|s| - 1 - |r|] == s[|s| - |r| - |sep|..|s| - |r|];
    }
  }

  /** Python's `s[k:]` for k >= 0. */
  function DropFirst(s: string, k: nat): (r: string)
    ensures |r| == if k <= |s| then |s| - k else 0
  {
    if k <= |s| then s[k..] else []
  }

  /** Python's `s[:-k]` for k >= 1. */
  function DropLast(s: string, k: nat): (r: string)
    ensures |r| == if k <= |s| then |s| - k else 0
  {
    if k <= |s| then s[..|s| - k] else []
  }

  /** Python's `s[-k:]` for k >= 1. */
  function TakeLast(s: string, k: nat): (r: string)
    ensures |r| == if k <= |s| then k else |s|
  {
    if k <= |s| then s[|s| - k..] else s
  }

  /** Python's `xs[i]`, negative i counting from the end; out of range raises IndexError. */
  function At<T>(xs: seq<T>, i: int): (r: Result<T>)
    ensures r.Ok? <==> -|xs| <= i < |xs|
    ensures r.Ok? ==> r.value == xs[if i < 0 then |xs| + i else i]
  {
    if 0 <= i < |xs| then Ok(xs[i])
    else if -|xs| <= i < 0 then Ok(xs[|xs| + i])
    else Err(IndexError)
  }

  /** Python's `xs[i : i + n]` for 0 <= i: clipped at the end of xs. */
  function Window<T>(xs: seq<T>, i: nat, n: nat): (w: seq<T>)
    ensures |w| == if i + n <= |xs| then n else if i <= |xs| then |xs| - i else 0
    ensures forall k :: 0 <= k < |w| ==> w[k] == xs[i + k]
  {
    if i + n <= |xs| then xs[i..i + n] else if i <= |xs| then xs[i..] else []
  }

  /** The index of the last of lines[lo..] that matches, if any: the line whose value a parser
      keeps when every matching line overwrites the same field. */
  function LastMatch(lines: seq<string>, lo: nat, matches: string -> bool): (j: Option<nat>)
    requires lo <= |lines|
    ensures j.Some? ==> lo <= j.value < |lines| && matches(lines[j.value])
    ensures j.Some? ==> forall k :: j.value < k < |lines| ==> !matches(lines[k])
    ensures j.None? ==> forall k :: lo <= k < |lines| ==> !matches(lines[k])
    decreases |lines| - lo
  {
    if lo == |lines| then None
    else match LastMatch(lines, lo + 1, matches)
      case Some(j) => Some(j)
      case None => if matches(lines[lo]) then Some(lo) else None
  }

  /** A line added at the end becomes the last match if it matches, and changes nothing otherwise:
      the step of a loop that remembers the latest matching line. */
  lemma {:induction false} LastMatchSnoc(lines: seq<string>, line: string, lo: nat, matches: string -> bool)
    requires lo <= |lines|
    ensures LastMatch(lines + [line], lo, matches)
         == if matches(line) then Some(|lines|) else LastMatch(lines, lo, matches)
    decreases |lines| - lo
  {
    if lo < |lines| {
      LastMatchSnoc(lines, line, lo + 1, matches);
      assert (lines + [line])[lo] == lines[lo];
    }
  }
}
