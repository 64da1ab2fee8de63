// String operations the pages rely on: the character classes of JavaScript regular
// expressions, trimming, splitting, joining and prefix tests.

module Strings {
  import Lists

  /** A character that `\s` matches and String.prototype.trim removes: ECMAScript
      WhiteSpace and LineTerminator code points. */
  predicate IsSpace(c: char)
  {
    c == ' ' || c == '\t' || c == '\n' || c == '\U{000B}' || c == '\U{000C}' || c == '\r'
    || c == '\U{00A0}' || c == '\U{1680}' || ('\U{2000}' <= c <= '\U{200A}')
    || c == '\U{2028}' || c == '\U{2029}' || c == '\U{202F}' || c == '\U{205F}'
    || c == '\U{3000}' || c == '\U{FEFF}'
  }

  /** A character that `[0-9]` matches. */
  predicate IsDigit(c: char)
  {
    '0' <= c <= '9'
  }

  /** A character that `\w` matches: an ASCII letter or digit, or '_'. */
  predicate IsWordChar(c: char)
  {
    'a' <= c <= 'z' || 'A' <= c <= 'Z' || IsDigit(c) || c == '_'
  }

  /** ASCII lower-casing of one character. */
  function LowerChar(c: char): (r: char)
    ensures 'A' <= c <= 'Z' ==> 'a' <= r <= 'z' && r as int - c as int == 32
    ensures !('A' <= c <= 'Z') ==> r == c
  {
    if 'A' <= c <= 'Z' then (c as int + 32) as char else c
  }

  /** String.prototype.toLowerCase, restricted to ASCII. */
  function Lower(s: string): (r: string)
    ensures |r| == |s|
    ensures forall i :: 0 <= i < |s| ==> r[i] == LowerChar(s[i])
  {
    if s == [] then [] else [LowerChar(s[0])] + Lower(s[1..])
  }

  /** `s` with every character that is not a decimal digit removed (replace(/[^0-9]/g, '')). */
  function DigitsOnly(s: string): (r: string)
    ensures forall i :: 0 <= i < |r| ==> IsDigit(r[i])
  {
    Lists.FilterSatisfies(s, IsDigit);
    Lists.Filter(s, IsDigit)
  }

  /** The digits are kept in their order, and every occurrence of a digit in `s` is kept. */
  lemma DigitsInOrder(s: string)
    ensures Lists.IsSubsequence(DigitsOnly(s), s)
    ensures forall i :: 0 <= i < |s| && IsDigit(s[i]) ==> s[i] in DigitsOnly(s)
    ensures forall c :: IsDigit(c) ==> multiset(DigitsOnly(s))[c] == multiset(s)[c]
  {
    Lists.FilterIsSubsequence(s, IsDigit);
    Lists.FilterMembers(s, IsDigit);
    Lists.FilterCounts(s, IsDigit);
  }

  /** `s` without its leading whitespace. */
  function TrimStart(s: string): (r: string)
    ensures |r| <= |s| && r == s[|s| - |r|..]
    ensures r == [] || !IsSpace(r[0])
    ensures r == [] <==> forall i :: 0 <= i < |s| ==> IsSpace(s[i])
  {
    if s != [] && IsSpace(s[0]) then TrimStart(s[1..]) else s
  }

  /** `s` without its trailing whitespace. */
  function TrimEnd(s: string): (r: string)
    ensures |r| <= |s| && r == s[..|r|]
    ensures r == [] || !IsSpace(r[|r| - 1])
    ensures r == [] <==> forall i :: 0 <= i < |s| ==> IsSpace(s[i])
  {
    if s != [] && IsSpace(s[|s| - 1]) then TrimEnd(s[..|s| - 1]) else s
  }

  /** String.prototype.trim. */
  function Trim(s: string): (r: string)
    ensures r == [] || (!IsSpace(r[0]) && !IsSpace(r[|r| - 1]))
    ensures forall i :: 0 <= i < |r| ==> r[i] in s
    ensures r == [] <==> forall i :: 0 <= i < |s| ==> IsSpace(s[i])
  {
    var t := TrimStart(s);
    assert forall i :: 0 <= i < |t| ==> t[i] == s[|s| - |t| + i];
    TrimEnd(t)
  }

  /** `s` is whitespace only (the empty string included). */
  predicate AllSpace(s: string)
  {
    forall i :: 0 <= i < |s| ==> IsSpace(s[i])
  }

  /** What TrimStart drops is whitespace. */
  lemma {:induction false} TrimStartDropsSpaces(s: string)
    ensures AllSpace(s[..|s| - |TrimStart(s)|])
  {
    if s != [] && IsSpace(s[0]) {
      TrimStartDropsSpaces(s[1..]);
      var k := |s| - |TrimStart(s)|;
      assert s[..k] == [s[0]] + s[1..][..k - 1];
    }
  }

  /** What TrimEnd drops is whitespace. */
  lemma {:induction false} TrimEndDropsSpaces(s: string)
    ensures AllSpace(s[|TrimEnd(s)|..])
  {
    if s != [] && IsSpace(s[|s| - 1]) {
      var init := s[..|s| - 1];
      TrimEndDropsSpaces(init);
      assert s[|TrimEnd(s)|..] == init[|TrimEnd(init)|..] + [s[|s| - 1]];
    }
  }

  /** A suffix `t` of `s` and a prefix `r` of `t`, with whitespace around them, split `s` into
      three parts. */
  lemma SpacesAround(s: string, t: string, r: string)
    requires |t| <= |s| && t == s[|s| - |t|..] && |r| <= |t| && r == t[..|r|]
    requires AllSpace(s[..|s| - |t|]) && AllSpace(t[|r|..])
    ensures exists a, b :: s == a + r + b && AllSpace(a) && AllSpace(b)
  {
    var a, b := s[..|s| - |t|], t[|r|..];
    assert s == a + t && t == r + b;
    assert s == a + r + b;
  }

  /** Trimming removes whitespace at the two ends and nothing else. */
  lemma TrimRemovesOnlyEnds(s: string)
    ensures exists a, b :: s == a + Trim(s) + b && AllSpace(a) && AllSpace(b)
  {
    var t := TrimStart(s);
    TrimStartDropsSpaces(s);
    TrimEndDropsSpaces(t);
    SpacesAround(s, t, TrimEnd(t));
  }

  /** A string that trimming leaves as it is. */
  predicate IsTrimmed(s: string)
  {
    s == [] || (!IsSpace(s[0]) && !IsSpace(s[|s| - 1]))
  }

  /** Trimming a trimmed string changes nothing, even after whitespace is put in front of it. */
  lemma TrimPadded(pad: string, s: string)
    requires IsTrimmed(s)
    requires forall i :: 0 <= i < |pad| ==> IsSpace(pad[i])
    ensures Trim(pad + s) == s
  {
    TrimStartPadded(pad, s);
    if s != [] {
      assert s[..|s|] == s;
    }
  }

  lemma {:induction false} TrimStartPadded(pad: string, s: string)
    requires s == [] || !IsSpace(s[0])
    requires forall i :: 0 <= i < |pad| ==> IsSpace(pad[i])
    ensures TrimStart(pad + s) == s
  {
    if pad == [] {
      assert pad + s == s;
    } else {
      assert (pad + s)[1..] == pad[1..] + s;
      TrimStartPadded(pad[1..], s);
    }
  }

  /** String.prototype.split with a one-character separator: the pieces between separators,
      one more piece than there are separators (so "" splits into [""]). */
  function Split(s: string, sep: char): (r: seq<string>)
    ensures |r| >= 1
    ensures forall k :: 0 <= k < |r| ==> sep !in r[k]
    decreases |s|
  {
    var i := Lists.IndexOfFirst(s, IsChar(sep));
    if i == -1 then
      assert forall j :: 0 <= j < |s| ==> s[j] != sep;
      [s]
    else
      [s[..i]] + Split(s[i + 1..], sep)
  }

  /** The test "is this character `c`", as a value to pass to the sequence operations. */
  function IsChar(c: char): char -> bool
  {
    (d: char) => d == c
  }

  /** Array.prototype.join. */
  function Join(parts: seq<string>, sep: string): (r: string)
  {
    if |parts| == 0 then ""
    else if |parts| == 1 then parts[0]
    else parts[0] + sep + Join(parts[1..], sep)
  }

  /** A string without the separator splits into itself. */
  lemma SplitNoSeparator(s: string, sep: char)
    requires sep !in s
    ensures Split(s, sep) == [s]
  {
    assert forall j :: 0 <= j < |s| ==> !IsChar(sep)(s[j]);
  }

  /** Splitting at the first separator: the piece before it, then the split of the rest. */
  lemma SplitAtFirst(head: string, sep: char, tail: string)
    requires sep !in head
    ensures Split(head + [sep] + tail, sep) == [head] + Split(tail, sep)
  {
    var s := head + [sep] + tail;
    assert forall j :: 0 <= j < |head| ==> s[j] == head[j] && !IsChar(sep)(s[j]);
    assert IsChar(sep)(s[|head|]);
    Lists.IndexOfFirstAt(s, IsChar(sep), |head|);
    assert s[..|head|] == head;
    assert s[|head| + 1..] == tail;
  }

  /** Splitting at `sep` undoes joining with a separator that starts with `sep`, when no part
      contains `sep`: each piece after the first keeps the rest of the separator in front. */
  lemma {:induction false} SplitJoin(parts: seq<string>, lead: string, sep: char, rest: string)
    requires |parts| >= 1
    requires sep !in lead
    requires forall k :: 0 <= k < |parts| ==> sep !in parts[k]
    requires sep !in rest
    ensures |Split(lead + Join(parts, [sep] + rest), sep)| == |parts|
    ensures Split(lead + Join(parts, [sep] + rest), sep)[0] == lead + parts[0]
    ensures forall k :: 1 <= k < |parts| ==> Split(lead + Join(parts, [sep] + rest), sep)[k] == rest + parts[k]
  {
    var head := lead + parts[0];
    assert sep !in head;
    if |parts| == 1 {
      assert lead + Join(parts, [sep] + rest) == head;
      SplitNoSeparator(head, sep);
    } else {
      var tail := Join(parts[1..], [sep] + rest);
      assert Join(parts, [sep] + rest) == parts[0] + ([sep] + rest) + tail;
      var whole := lead + Join(parts, [sep] + rest);
      assert whole == head + [sep] + (rest + tail);
      SplitAtFirst(head, sep, rest + tail);
      SplitJoin(parts[1..], rest, sep, rest);
      var r := Split(whole, sep);
      var r2 := Split(rest + tail, sep);
      assert r == [head] + r2;
      forall k | 1 <= k < |parts| ensures r[k] == rest + parts[k] {
        var later := parts[1..];
        assert later[k - 1] == parts[k];
        assert r[k] == r2[k - 1];
      }
    }
  }

  /** String.prototype.startsWith. */
  predicate StartsWith(s: string, prefix: string)
  {
    |prefix| <= |s| && s[..|prefix|] == prefix
  }
}
