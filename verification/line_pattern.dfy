/** The status-line pattern `/^(\w[\w\s]*\w)\s*:\s*(.+)\s*$/`, written out
    by hand so that its result is the one PCRE's greedy, backtracking
    matcher returns.

    `IsPatternMatch` is the pattern read as a grammar: every way of cutting
    a line into key, padding, colon, padding, value and trailing padding.
    `MatchSpan` is the hand-written matcher; `MatchSpanIsPcreChoice` shows
    that it finds a cut exactly when one exists and that the cut it finds is
    the one PCRE prefers. */
module LinePattern {
  import opened Wrappers
  import opened CharClasses

  /** One way of matching the pattern against a line:
      the key group is `line[..keyEnd]`, the colon is `line[colon]`, and the
      value group is `line[valueStart..valueEnd]`. */
  datatype Span = Span(keyEnd: nat, colon: nat, valueStart: nat, valueEnd: nat)

  /** `d` is a cut of `line` that the pattern accepts:
      `(\w[\w\s]*\w)` then `\s*` then `:` then `\s*` then `(.+)` then `\s*`,
      anchored at both ends. `.` excludes only the line feed. */
  predicate IsPatternMatch(line: string, d: Span) {
    && 2 <= d.keyEnd <= d.colon < d.valueStart < d.valueEnd <= |line|
    && IsWord(line[0])
    && IsWord(line[d.keyEnd - 1])
    && (forall i :: 0 <= i < d.keyEnd ==> IsWord(line[i]) || IsSpace(line[i]))
    && (forall i :: d.keyEnd <= i < d.colon ==> IsSpace(line[i]))
    && line[d.colon] == ':'
    && (forall i :: d.colon < i < d.valueStart ==> IsSpace(line[i]))
    && (forall i :: d.valueStart <= i < d.valueEnd ==> line[i] != '\n')
    && (forall i :: d.valueEnd <= i < |line| ==> IsSpace(line[i]))
  }

  /** The order in which PCRE's backtracking tries cuts: the key group
      longest first, then the padding after the colon longest first, then
      the value longest first. `PreferredOrEqual(a, b)` holds when `b` is
      tried no later than `a`. */
  predicate PreferredOrEqual(a: Span, b: Span) {
    || a.keyEnd < b.keyEnd
    || (a.keyEnd == b.keyEnd && a.colon < b.colon)
    || (a.keyEnd == b.keyEnd && a.colon == b.colon && a.valueStart < b.valueStart)
    || (a.keyEnd == b.keyEnd && a.colon == b.colon && a.valueStart == b.valueStart
        && a.valueEnd <= b.valueEnd)
  }

  /** What the key group `(\w[\w\s]*\w)` can capture. */
  predicate IsCapturedKey(k: string) {
    |k| >= 2 && IsWord(k[0]) && IsWord(k[|k| - 1]) && AllWordOrSpace(k)
  }

  /** Index of the first `c` in `s` at or after `from`. */
  function IndexOf(s: string, c: char, from: nat): (r: Option<nat>)
    decreases |s| - from
    ensures r.Some? ==> from <= r.value < |s| && s[r.value] == c
    ensures r.Some? ==> forall i :: from <= i < r.value ==> s[i] != c
    ensures r.None? ==> forall i :: from <= i < |s| ==> s[i] != c
  {
    if from >= |s| then None
    else if s[from] == c then Some(from)
    else IndexOf(s, c, from + 1)
  }

  /** The end of `s[..upTo]` once trailing whitespace is cut off. */
  function TrimEnd(s: string, upTo: nat): (r: nat)
    requires upTo <= |s|
    ensures r <= upTo
    ensures forall i :: r <= i < upTo ==> IsSpace(s[i])
    ensures r > 0 ==> !IsSpace(s[r - 1])
  {
    if upTo == 0 || !IsSpace(s[upTo - 1]) then upTo else TrimEnd(s, upTo - 1)
  }

  /** The first position at or after `from` that does not hold whitespace. */
  function SkipSpaces(s: string, from: nat): (r: nat)
    requires from <= |s|
    decreases |s| - from
    ensures from <= r <= |s|
    ensures forall i :: from <= i < r ==> IsSpace(s[i])
    ensures r < |s| ==> !IsSpace(s[r])
  {
    if from == |s| || !IsSpace(s[from]) then from else SkipSpaces(s, from + 1)
  }

  /** The cut PCRE reports for `line`, if the pattern matches:
      - the key section cannot hold a colon, so the colon is the first one;
      - everything before it must be word or whitespace characters, starting
        with a word character;
      - the key is that text without its trailing whitespace and must have
        at least two characters;
      - the text after the colon must not be empty; the value starts after
        its leading whitespace, or at its last character if it is all
        whitespace, and runs to the end of the line. */
  function MatchSpan(line: string): Option<Span> {
    match IndexOf(line, ':', 0)
    case None => None
    case Some(colon) =>
      if colon == 0 || !IsWord(line[0]) || !AllWordOrSpace(line[..colon]) then None
      else
        var keyEnd := TrimEnd(line, colon);
        if keyEnd < 2 || colon + 1 == |line| then None
        else
          var skip := SkipSpaces(line, colon + 1);
          var valueStart := if skip < |line| then skip else |line| - 1;
          Some(Span(keyEnd, colon, valueStart, |line|))
  }

  /** `preg_match` of the status-line pattern: the two capture groups. */
  function MatchLine(line: string): (r: Option<(string, string)>)
    ensures r.Some? ==> IsCapturedKey(r.value.0) && ':' !in r.value.0 && |r.value.1| >= 1
  {
    match MatchSpan(line)
    case None => None
    case Some(d) =>
      assert AllWordOrSpace(line[..d.colon]);
      assert forall i :: 0 <= i < d.keyEnd ==> line[..d.keyEnd][i] == line[..d.colon][i];
      Some((line[..d.keyEnd], line[d.valueStart..d.valueEnd]))
  }

  /** The hand-written matcher agrees with the pattern: it fails exactly
      when no cut of the line matches, and when it succeeds its cut matches
      and is the one PCRE's backtracking order reaches first. The pattern is
      only ever applied to lines without a line feed. */
  lemma MatchSpanIsPcreChoice(line: string)
    requires '\n' !in line
    ensures MatchSpan(line).None? <==> forall d :: !IsPatternMatch(line, d)
    ensures MatchSpan(line).Some? ==> IsPatternMatch(line, MatchSpan(line).value)
    ensures MatchSpan(line).Some? ==>
              forall d :: IsPatternMatch(line, d) ==> PreferredOrEqual(d, MatchSpan(line).value)
  {
    if MatchSpan(line).Some? {
      MatchSpanSound(line);
      MatchSpanPreferred(line);
    } else {
      MatchSpanComplete(line);
    }
  }

  /** A cut the matcher reports is accepted by the pattern. */
  lemma MatchSpanSound(line: string)
    requires '\n' !in line
    requires MatchSpan(line).Some?
    ensures IsPatternMatch(line, MatchSpan(line).value)
  {
    var colon := IndexOf(line, ':', 0).value;
    var keyEnd := TrimEnd(line, colon);
    assert IsWord(line[keyEnd - 1]) by {
      assert line[..colon][keyEnd - 1] == line[keyEnd - 1];
      WordOrSpaceNotSpaceIsWord(line[keyEnd - 1]);
    }
    forall i | 0 <= i < keyEnd ensures IsWord(line[i]) || IsSpace(line[i]) {
      assert line[..colon][i] == line[i];
    }
  }

  /** When some cut is accepted, the matcher does not fail. */
  lemma MatchSpanComplete(line: string)
    requires MatchSpan(line).None?
    ensures forall d :: !IsPatternMatch(line, d)
  {
    forall d | IsPatternMatch(line, d) ensures false {
      assert line[d.colon] == ':';
      var colon := IndexOf(line, ':', 0).value;
      FirstColonOfMatch(line, d, colon);
    }
  }

  /** Every accepted cut comes no earlier in PCRE's order than the one the
      matcher reports. */
  lemma MatchSpanPreferred(line: string)
    requires MatchSpan(line).Some?
    ensures forall d :: IsPatternMatch(line, d) ==> PreferredOrEqual(d, MatchSpan(line).value)
  {
    var m := MatchSpan(line).value;
    forall d | IsPatternMatch(line, d) ensures PreferredOrEqual(d, m) {
      FirstColonOfMatch(line, d, m.colon);
    }
  }

  lemma WordOrSpaceNotSpaceIsWord(c: char)
    requires IsWord(c) || IsSpace(c)
    requires !IsSpace(c)
    ensures IsWord(c)
  {
  }

  /** Any accepted cut uses the first colon, and its key cannot end after
      the last non-whitespace character before that colon. */
  lemma FirstColonOfMatch(line: string, d: Span, colon: nat)
    requires IsPatternMatch(line, d)
    requires IndexOf(line, ':', 0) == Some(colon)
    ensures d.colon == colon
    ensures AllWordOrSpace(line[..colon])
    ensures d.keyEnd <= TrimEnd(line, colon)
  {
    forall i | 0 <= i < d.colon ensures line[i] != ':' {
      if i < d.keyEnd {
        assert IsWord(line[i]) || IsSpace(line[i]);
      } else {
        assert IsSpace(line[i]);
      }
    }
    assert d.colon == colon;
    assert AllWordOrSpace(line[..colon]) by {
      forall i | 0 <= i < colon ensures IsWord(line[..colon][i]) || IsSpace(line[..colon][i]) {
        assert line[..colon][i] == line[i];
        if i >= d.keyEnd {
          assert IsSpace(line[i]);
        }
      }
    }
    var t := TrimEnd(line, colon);
    if d.keyEnd > t {
      assert IsSpace(line[d.keyEnd - 1]);
      assert IsWord(line[d.keyEnd - 1]);
      WordIsNotSpace(line[d.keyEnd - 1]);
    }
  }

  /** A key, optional whitespace, the colon, optional whitespace and a value
      that does not start with whitespace: the groups are the key and the
      value exactly. The value may hold further colons and keeps its
      trailing whitespace, since `(.+)` is greedy. Like every line `parse`
      matches, the value holds no line feed, which `.` would not match. */
  lemma MatchWellFormedLine(key: string, pad: string, gap: string, value: string)
    requires IsCapturedKey(key)
    requires AllSpace(pad) && AllSpace(gap)
    requires |value| >= 1 && !IsSpace(value[0])
    requires '\n' !in value
    ensures MatchLine(key + pad + ":" + gap + value) == Some((key, value))
  {
    var line := key + pad + ":" + gap + value;
    var colon := |key| + |pad|;
    ColonAfterKey(line, key, pad, colon);
    var skip := SkipSpaces(line, colon + 1);
    assert line[colon + 1 + |gap|] == value[0];
    forall j | colon + 1 <= j < colon + 1 + |gap| ensures IsSpace(line[j]) {
      assert line[j] == gap[j - colon - 1];
    }
    assert skip == colon + 1 + |gap|;
    assert MatchSpan(line) == Some(Span(|key|, colon, skip, |line|));
    assert line[skip..|line|] == value;
  }

  /** When everything after the colon is whitespace, PCRE gives the value
      group the last whitespace character (`\s*` backtracks one step so
      that `(.+)` can match). The whitespace holds no line feed, as on
      every line `parse` matches. */
  lemma MatchBlankValue(key: string, pad: string, rest: string)
    requires IsCapturedKey(key)
    requires AllSpace(pad)
    requires |rest| >= 1 && AllSpace(rest) && '\n' !in rest
    ensures MatchLine(key + pad + ":" + rest) == Some((key, [rest[|rest| - 1]]))
  {
    var line := key + pad + ":" + rest;
    BlankValueSpan(line, key, pad, rest);
    assert line[|line| - 1..|line|] == [rest[|rest| - 1]];
  }

  lemma BlankValueSpan(line: string, key: string, pad: string, rest: string)
    requires IsCapturedKey(key)
    requires AllSpace(pad)
    requires |rest| >= 1 && AllSpace(rest)
    requires line == key + pad + ":" + rest
    ensures MatchSpan(line) == Some(Span(|key|, |key| + |pad|, |line| - 1, |line|))
    ensures line[..|key|] == key
  {
    var colon := |key| + |pad|;
    assert line[..colon + 1] == key + pad + ":";
    ColonAfterKey(line, key, pad, colon);
    var skip := SkipSpaces(line, colon + 1);
    forall j | colon + 1 <= j < |line| ensures IsSpace(line[j]) {
      assert line[j] == rest[j - colon - 1];
    }
    assert skip == |line|;
  }

  /** Shared part of the two lemmas above: where the colon is, and that the
      key group is exactly `key`. */
  lemma ColonAfterKey(line: string, key: string, pad: string, colon: nat)
    requires IsCapturedKey(key)
    requires AllSpace(pad)
    requires colon == |key| + |pad|
    requires |line| > colon + 1 && line[..colon + 1] == key + pad + ":"
    ensures IndexOf(line, ':', 0) == Some(colon)
    ensures AllWordOrSpace(line[..colon]) && IsWord(line[0])
    ensures TrimEnd(line, colon) == |key|
    ensures line[..|key|] == key
  {
    assert line[colon] == ':';
    forall i | 0 <= i < colon ensures line[i] != ':' && (IsWord(line[i]) || IsSpace(line[i])) {
      if i < |key| {
        assert line[i] == key[i];
      } else {
        assert line[i] == pad[i - |key|];
      }
    }
    assert line[..colon] == key + pad;
    var t := TrimEnd(line, colon);
    assert line[|key| - 1] == key[|key| - 1];
    WordIsNotSpace(key[|key| - 1]);
    assert line[..|key|] == key;
  }

  /** Lines that add nothing to the status map: an empty line, a line with
      no colon, a line whose first character is whitespace, and a line
      whose first colon is its last character. */
  lemma UnmatchedLines(line: string)
    ensures line == "" ==> MatchLine(line).None?
    ensures ':' !in line ==> MatchLine(line).None?
    ensures |line| > 0 && IsSpace(line[0]) ==> MatchLine(line).None?
    ensures |line| > 0 && line[|line| - 1] == ':' && ':' !in line[..|line| - 1] ==>
              MatchLine(line).None?
  {
    if |line| > 0 && line[|line| - 1] == ':' && ':' !in line[..|line| - 1] {
      assert IndexOf(line, ':', 0) == Some(|line| - 1);
    }
  }

  /** A key of one word character, however much whitespace follows it, is
      too short for `\w[\w\s]*\w`. */
  lemma OneCharacterKey(c: char, pad: string, rest: string)
    requires IsWord(c) && AllSpace(pad)
    ensures MatchLine([c] + pad + ":" + rest).None?
  {
    var line := [c] + pad + ":" + rest;
    var colon := 1 + |pad|;
    assert line[colon] == ':';
    forall i | 0 <= i < colon ensures line[i] != ':' {
      if i > 0 {
        assert line[i] == pad[i - 1];
      }
    }
    assert IndexOf(line, ':', 0) == Some(colon);
    var t := TrimEnd(line, colon);
  }
}
