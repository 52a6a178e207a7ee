/** The string primitives of JavaScript and Python that the core relies on:
    case folding, `trim`/`strip`, `includes`/`in`, `split`, `join`.
    Case folding and `isalnum` are modelled on ASCII; whitespace follows
    each language's own table. */
module Strings {
  import opened Seqs

  /** `toLowerCase` / `lower` on one character (ASCII letters only). */
  function LowerChar(c: char): char {
    if 'A' <= c <= 'Z' then (c as int + 32) as char else c
  }

  function Lower(s: string): (r: string)
    ensures |r| == |s|
    ensures forall i :: 0 <= i < |s| ==> r[i] == LowerChar(s[i])
  {
    seq(|s|, i requires 0 <= i < |s| => LowerChar(s[i]))
  }

  /** The characters JavaScript's `String.prototype.trim` removes
      (WhiteSpace and LineTerminator of ECMA-262). */
  predicate IsJsSpace(c: char) {
    var n := c as int;
    n == 0x09 || n == 0x0A || n == 0x0B || n == 0x0C || n == 0x0D || n == 0x20
    || n == 0xA0 || n == 0x1680 || (0x2000 <= n <= 0x200A) || n == 0x2028
    || n == 0x2029 || n == 0x202F || n == 0x205F || n == 0x3000 || n == 0xFEFF
  }

  /** The characters for which Python's `str.isspace` holds; they are the
      separators of `str.split()` without arguments. */
  predicate IsPySpace(c: char) {
    var n := c as int;
    (0x09 <= n <= 0x0D) || (0x1C <= n <= 0x20) || n == 0x85 || n == 0xA0
    || n == 0x1680 || (0x2000 <= n <= 0x200A) || n == 0x2028 || n == 0x2029
    || n == 0x202F || n == 0x205F || n == 0x3000
  }

  /** Python's `str.isalnum` on one character, ASCII only. */
  predicate IsAlnum(c: char) {
    ('a' <= c <= 'z') || ('A' <= c <= 'Z') || ('0' <= c <= '9')
  }

  /** `s` without its longest prefix of characters satisfying `p`. */
  function DropWhile(s: string, p: char -> bool): (r: string)
    ensures |r| <= |s| && r == s[|s| - |r|..]
    ensures forall i :: 0 <= i < |s| - |r| ==> p(s[i])
    ensures r == [] || !p(r[0])
    decreases |s|
  {
    if s != [] && p(s[0]) then DropWhile(s[1..], p) else s
  }

  /** `s` without its longest suffix of characters satisfying `p`. */
  function DropWhileEnd(s: string, p: char -> bool): (r: string)
    ensures |r| <= |s| && r == s[..|r|]
    ensures forall i :: |r| <= i < |s| ==> p(s[i])
    ensures r == [] || !p(r[|r| - 1])
    decreases |s|
  {
    if s != [] && p(s[|s| - 1]) then DropWhileEnd(s[..|s| - 1], p) else s
  }

  /** Removes the characters satisfying `p` from both ends. */
  function StripBy(s: string, p: char -> bool): string {
    DropWhileEnd(DropWhile(s, p), p)
  }

  /** Stripping leaves nothing exactly when every character is stripped. */
  lemma StripByEmpty(s: string, p: char -> bool)
    ensures StripBy(s, p) == [] <==> forall i :: 0 <= i < |s| ==> p(s[i])
  {
  }

  /** JavaScript `s.trim()`. */
  function Trim(s: string): string {
    StripBy(s, IsJsSpace)
  }

  /** Trimming twice is trimming once. */
  lemma TrimIdempotent(s: string)
    ensures Trim(Trim(s)) == Trim(s)
  {
    var d := DropWhile(s, IsJsSpace);
    var t := Trim(s);
    assert t == DropWhileEnd(d, IsJsSpace);
    if t != [] {
      assert t[0] == d[0];
      assert DropWhile(t, IsJsSpace) == t;
      assert DropWhileEnd(t, IsJsSpace) == t;
    }
  }

  /** A string that starts with a non-space character is not trimmed away. */
  lemma NotBlankIfStartsSolid(s: string)
    requires s != [] && !IsJsSpace(s[0])
    ensures Trim(s) != ""
  {
    assert DropWhile(s, IsJsSpace) == s;
  }

  /** A string is blank when `trim()` leaves the empty (falsy) string. */
  predicate IsBlank(s: string) {
    Trim(s) == ""
  }

  lemma BlankIffAllSpace(s: string)
    ensures IsBlank(s) <==> forall i :: 0 <= i < |s| ==> IsJsSpace(s[i])
  {
    StripByEmpty(s, IsJsSpace);
  }

  /** Python `s.strip(chars)`. */
  function PyStrip(s: string, chars: string): string {
    StripBy(s, c => c in chars)
  }

  /** Stripping keeps a slice of the string, so it adds no character. */
  lemma StripByKeeps(s: string, p: char -> bool, c: char)
    requires c in StripBy(s, p)
    ensures c in s
  {
    var d := DropWhile(s, p);
    var r := DropWhileEnd(d, p);
    var k :| 0 <= k < |r| && r[k] == c;
    assert r[k] == d[k];
    assert d[k] == s[|s| - |d| + k];
  }

  predicate StartsWith(s: string, prefix: string) {
    |prefix| <= |s| && s[..|prefix|] == prefix
  }

  predicate EndsWith(s: string, suffix: string) {
    |suffix| <= |s| && s[|s| - |suffix|..] == suffix
  }

  /** `t` occurs in `s` starting at index `i`. */
  predicate OccursAt(s: string, t: string, i: int) {
    0 <= i <= |s| - |t| && s[i..i + |t|] == t
  }

  /** JavaScript `s.includes(t)` and Python `t in s`. */
  predicate Contains(s: string, t: string) {
    exists i :: 0 <= i <= |s| - |t| && OccursAt(s, t, i)
  }

  /** Every string contains the empty string. */
  lemma ContainsEmpty(s: string)
    ensures Contains(s, "")
  {
    assert OccursAt(s, "", 0);
  }

  /** A string contains what it starts with. */
  lemma ContainsStart(s: string, rest: string)
    ensures Contains(s + rest, s)
  {
    assert (s + rest)[..|s|] == s;
    assert OccursAt(s + rest, s, 0);
  }

  /** Putting text in front keeps an occurrence. */
  lemma ContainsAfter(front: string, s: string, t: string)
    requires Contains(s, t)
    ensures Contains(front + s, t)
  {
    var i :| 0 <= i <= |s| - |t| && OccursAt(s, t, i);
    assert (front + s)[|front| + i..|front| + i + |t|] == s[i..i + |t|];
    assert OccursAt(front + s, t, |front| + i);
  }

  /** Putting text behind keeps an occurrence. */
  lemma ContainsBefore(s: string, back: string, t: string)
    requires Contains(s, t)
    ensures Contains(s + back, t)
  {
    var i :| 0 <= i <= |s| - |t| && OccursAt(s, t, i);
    assert (s + back)[i..i + |t|] == s[i..i + |t|];
    assert OccursAt(s + back, t, i);
  }

  /** A refutation helper: if the first two characters of `t` never occur
      side by side in `s`, then `s` does not contain `t`. */
  lemma NotContainsByPair(s: string, t: string)
    requires |t| >= 2
    requires forall k :: 0 <= k < |s| - 1 ==> !(s[k] == t[0] && s[k + 1] == t[1])
    ensures !Contains(s, t)
  {
    forall i | 0 <= i <= |s| - |t| ensures !OccursAt(s, t, i) {
      assert !(s[i] == t[0] && s[i + 1] == t[1]);
    }
  }

  /** Python `sep.join(parts)` and JavaScript `parts.join(sep)`. */
  function Join(parts: seq<string>, sep: string): string
    decreases |parts|
  {
    if parts == [] then ""
    else if |parts| == 1 then parts[0]
    else parts[0] + sep + Join(parts[1..], sep)
  }

  /** Python `s.split(sep)` for a one-character separator: the pieces
      between the separators, empty pieces included. */
  function SplitOn(s: string, sep: char): (parts: seq<string>)
    ensures |parts| >= 1
    ensures parts[0] <= s && sep !in parts[0]
    ensures |parts[0]| < |s| ==> s[|parts[0]|] == sep
    decreases |s|
  {
    if s == [] then [""]
    else
      var rest := SplitOn(s[1..], sep);
      if s[0] == sep then [""] + rest
      else [[s[0]] + rest[0]] + rest[1..]
  }

  /** Joining the pieces with the separator gives back the string. */
  lemma {:induction false} JoinSplitOn(s: string, sep: char)
    ensures Join(SplitOn(s, sep), [sep]) == s
    decreases |s|
  {
    if s != [] {
      var rest := SplitOn(s[1..], sep);
      JoinSplitOn(s[1..], sep);
      assert s == [s[0]] + s[1..];
      if s[0] == sep {
        assert SplitOn(s, sep) == [""] + rest;
        assert ([""] + rest)[1..] == rest;
      } else {
        var parts := SplitOn(s, sep);
        var first := [s[0]] + rest[0];
        assert parts == [first] + rest[1..];
        if |rest| == 1 {
          assert parts == [first];
        } else {
          assert parts[1..] == rest[1..];
          JoinCons(rest, [sep]);
          JoinCons(parts, [sep]);
        }
      }
    }
  }

  /** A string without the separator is one piece. */
  lemma {:induction false} SplitOnNoSep(s: string, sep: char)
    requires sep !in s
    ensures SplitOn(s, sep) == [s]
    decreases |s|
  {
    if s != [] {
      SplitOnNoSep(s[1..], sep);
      assert [s[0]] + s[1..] == s;
    }
  }

  /** A separator-free first piece is split off at the first separator. */
  lemma {:induction false} SplitOnAfter(first: string, sep: char, rest: string)
    requires sep !in first
    ensures SplitOn(first + [sep] + rest, sep) == [first] + SplitOn(rest, sep)
    decreases |first|
  {
    var s := first + [sep] + rest;
    if first == [] {
      assert s == [sep] + rest;
      assert s[1..] == rest;
    } else {
      assert s[1..] == first[1..] + [sep] + rest;
      SplitOnAfter(first[1..], sep, rest);
      assert [first[0]] + first[1..] == first;
    }
  }

  /** Splitting undoes joining when no part holds the separator. */
  lemma {:induction false} SplitOnJoin(parts: seq<string>, sep: char)
    requires parts != []
    requires forall i :: 0 <= i < |parts| ==> sep !in parts[i]
    ensures SplitOn(Join(parts, [sep]), sep) == parts
    decreases |parts|
  {
    if |parts| == 1 {
      SplitOnNoSep(parts[0], sep);
    } else {
      JoinCons(parts, [sep]);
      SplitOnJoin(parts[1..], sep);
      SplitOnAfter(parts[0], sep, Join(parts[1..], [sep]));
    }
  }

  /** Every part but the last with `t` appended. */
  function SuffixAllButLast(parts: seq<string>, t: string): (r: seq<string>)
    ensures |r| == |parts|
    ensures forall i :: 0 <= i < |parts| ==> r[i] == if i < |parts| - 1 then parts[i] + t else parts[i]
  {
    seq(|parts|, i requires 0 <= i < |parts| => if i < |parts| - 1 then parts[i] + t else parts[i])
  }

  /** Joining with `t + u` is appending `t` to all parts but the last and
      joining with `u`. */
  lemma {:induction false} JoinRegroup(parts: seq<string>, t: string, u: string)
    ensures Join(parts, t + u) == Join(SuffixAllButLast(parts, t), u)
    decreases |parts|
  {
    var r := SuffixAllButLast(parts, t);
    if |parts| == 1 {
      assert r == [parts[0]];
    } else if |parts| >= 2 {
      var rest := Join(parts[1..], t + u);
      JoinRegroup(parts[1..], t, u);
      assert r[1..] == SuffixAllButLast(parts[1..], t);
      assert Join(r[1..], u) == rest;
      JoinCons(parts, t + u);
      JoinCons(r, u);
      assert r[0] == parts[0] + t;
      assert parts[0] + (t + u) == (parts[0] + t) + u;
    }
  }

  /** Splitting a ", "-joined list of space-free parts at ' ' gives the
      parts back, each but the last with its ','; joining the pieces with
      spaces restores the list. */
  lemma SplitJoinComma(parts: seq<string>)
    requires parts != []
    requires forall i :: 0 <= i < |parts| ==> ' ' !in parts[i]
    ensures var pieces := SplitOn(Join(parts, ", "), ' ');
            |pieces| == |parts|
            && (forall i :: 0 <= i < |parts| - 1 ==> pieces[i] == parts[i] + ",")
            && pieces[|parts| - 1] == parts[|parts| - 1]
            && Join(pieces, " ") == Join(parts, ", ")
  {
    JoinSplitOn(Join(parts, ", "), ' ');
    var suffixed := SuffixAllButLast(parts, ",");
    assert ", " == "," + " ";
    JoinRegroup(parts, ",", " ");
    forall i | 0 <= i < |suffixed| ensures ' ' !in suffixed[i] {
      if i < |parts| - 1 {
        assert suffixed[i] == parts[i] + ",";
      }
    }
    SplitOnJoin(suffixed, ' ');
  }

  /** One unfolding of `Join` on two or more parts. */
  lemma JoinCons(parts: seq<string>, sep: string)
    requires |parts| >= 2
    ensures Join(parts, sep) == parts[0] + sep + Join(parts[1..], sep)
  {
  }

  /** Every part occurs in the joined string. */
  lemma {:induction false} JoinContainsParts(parts: seq<string>, sep: string, i: nat)
    requires i < |parts|
    ensures Contains(Join(parts, sep), parts[i])
    decreases |parts|
  {
    if |parts| == 1 {
      assert Join(parts, sep) == parts[0] + "";
      ContainsStart(parts[0], "");
    } else {
      var rest := Join(parts[1..], sep);
      JoinCons(parts, sep);
      if i == 0 {
        assert Join(parts, sep) == parts[0] + (sep + rest);
        ContainsStart(parts[0], sep + rest);
      } else {
        JoinContainsParts(parts[1..], sep, i - 1);
        ContainsAfter(parts[0] + sep, rest, parts[i]);
      }
    }
  }

  /** With a non-empty separator, the joined string is empty exactly when
      there is at most one part and no part has a character. */
  lemma JoinEmpty(parts: seq<string>, sep: string)
    requires sep != ""
    ensures Join(parts, sep) == "" <==> |parts| <= 1 && forall i :: 0 <= i < |parts| ==> parts[i] == ""
  {
    if |parts| >= 2 {
      JoinCons(parts, sep);
    }
  }

  /** A word of Python's `str.split()`: non-empty, no whitespace. */
  predicate IsWord(w: string) {
    w != [] && forall i :: 0 <= i < |w| ==> !IsPySpace(w[i])
  }

  /** The length of the longest whitespace-free prefix of `s`. */
  function TokenLength(s: string): (n: nat)
    ensures n <= |s|
    ensures forall i :: 0 <= i < n ==> !IsPySpace(s[i])
    ensures n < |s| ==> IsPySpace(s[n])
    decreases |s|
  {
    if s == [] || IsPySpace(s[0]) then 0 else 1 + TokenLength(s[1..])
  }

  /** Python `s.split()`: the maximal runs of non-whitespace, in order. */
  function Words(s: string): (ws: seq<string>)
    ensures forall i :: 0 <= i < |ws| ==> IsWord(ws[i])
    decreases |s|
  {
    if s == [] then []
    else if IsPySpace(s[0]) then Words(s[1..])
    else
      var n := TokenLength(s);
      [s[..n]] + Words(s[n..])
  }

  lemma {:induction false} TokenLengthOfWord(w: string, t: string)
    requires IsWord(w)
    requires t == [] || IsPySpace(t[0])
    ensures TokenLength(w + t) == |w|
    decreases |w|
  {
    var s := w + t;
    if |w| > 1 {
      assert s[1..] == w[1..] + t;
      TokenLengthOfWord(w[1..], t);
    } else {
      assert s[1..] == t;
    }
  }

  /** Splitting words joined by single spaces gives the words back. */
  lemma {:induction false} WordsOfJoin(ws: seq<string>)
    requires forall i :: 0 <= i < |ws| ==> IsWord(ws[i])
    ensures Words(Join(ws, " ")) == ws
    decreases |ws|
  {
    if ws != [] {
      var w := ws[0];
      if |ws| == 1 {
        TokenLengthOfWord(w, "");
        assert w + "" == w;
        assert w[..|w|] == w && w[|w|..] == [];
      } else {
        var tail := Join(ws[1..], " ");
        var s := w + " " + tail;
        assert s == w + (" " + tail);
        TokenLengthOfWord(w, " " + tail);
        assert s[..|w|] == w;
        assert s[|w|..] == " " + tail;
        assert (" " + tail)[1..] == tail;
        WordsOfJoin(ws[1..]);
        assert Words(s) == [w] + Words(" " + tail);
        assert ws == [w] + ws[1..];
      }
    }
  }
}
