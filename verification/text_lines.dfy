/** Line handling of the status parser: the two `str_replace` passes that
    turn `\r\n` and `\r` into `\n`, and `explode("\n", ...)`. */
module TextLines {

  /** The first `str_replace` pass: every `\r\n`, scanned left to right
      without overlap, becomes `\n`. */
  function ReplaceCrLf(s: string): (r: string)
    ensures |r| <= |s|
    ensures '\r' !in s ==> r == s
  {
    if |s| == 0 then []
    else if |s| >= 2 && s[0] == '\r' && s[1] == '\n' then "\n" + ReplaceCrLf(s[2..])
    else [s[0]] + ReplaceCrLf(s[1..])
  }

  /** The second `str_replace` pass: every remaining `\r` becomes `\n`. */
  function ReplaceCr(s: string): (r: string)
    ensures |r| == |s|
    ensures '\r' !in r
    ensures forall i :: 0 <= i < |s| && s[i] != '\r' ==> r[i] == s[i]
  {
    seq(|s|, i requires 0 <= i < |s| => if s[i] == '\r' then '\n' else s[i])
  }

  /** `str_replace(["\r\n", "\r"], "\n", $content)`: PHP applies the
      replacements of the search array one after the other over the whole
      subject. */
  function NormalizeEol(s: string): (r: string)
    ensures '\r' !in r
    ensures '\r' !in s ==> r == s
  {
    ReplaceCr(ReplaceCrLf(s))
  }

  /** `explode("\n", $s)`: the pieces between line feeds, in order; the
      empty string gives one empty piece. */
  function Explode(s: string): (r: seq<string>)
    ensures |r| >= 1
    ensures forall i :: 0 <= i < |r| ==> '\n' !in r[i]
  {
    if |s| == 0 then [""]
    else if s[0] == '\n' then [""] + Explode(s[1..])
    else
      var rest := Explode(s[1..]);
      [[s[0]] + rest[0]] + rest[1..]
  }

  /** `implode("\n", $lines)`, the inverse of `Explode`. */
  function Join(lines: seq<string>): string
    requires |lines| >= 1
  {
    if |lines| == 1 then lines[0] else lines[0] + "\n" + Join(lines[1..])
  }

  /** Reference splitting of the raw text: `\r\n`, a lone `\r` and `\n`
      each end exactly one line. */
  function SplitLines(s: string): (r: seq<string>)
    ensures |r| >= 1
  {
    if |s| == 0 then [""]
    else if |s| >= 2 && s[0] == '\r' && s[1] == '\n' then [""] + SplitLines(s[2..])
    else if s[0] == '\r' || s[0] == '\n' then [""] + SplitLines(s[1..])
    else
      var rest := SplitLines(s[1..]);
      [[s[0]] + rest[0]] + rest[1..]
  }

  /** The lines the parser iterates over. */
  function Lines(content: string): (r: seq<string>)
    ensures |r| >= 1
    ensures forall i :: 0 <= i < |r| ==> '\n' !in r[i] && '\r' !in r[i]
  {
    var n := NormalizeEol(content);
    ExplodeIsSubsequence(n);
    Explode(n)
  }

  /** Every character of a piece of `Explode(s)` comes from `s`. */
  lemma {:induction false} ExplodeIsSubsequence(s: string)
    ensures forall i, c :: 0 <= i < |Explode(s)| && c in Explode(s)[i] ==> c in s
  {
    if |s| == 0 {
    } else if s[0] == '\n' {
      ExplodeIsSubsequence(s[1..]);
      forall i, c | 0 <= i < |Explode(s)| && c in Explode(s)[i]
        ensures c in s
      {
        if i > 0 {
          assert Explode(s)[i] == Explode(s[1..])[i - 1];
          assert c in s[1..];
        }
      }
    } else {
      ExplodeIsSubsequence(s[1..]);
      var rest := Explode(s[1..]);
      forall i, c | 0 <= i < |Explode(s)| && c in Explode(s)[i]
        ensures c in s
      {
        if i == 0 {
          assert Explode(s)[0] == [s[0]] + rest[0];
          if c != s[0] {
            assert c in rest[0];
            assert c in s[1..];
          }
        } else {
          assert Explode(s)[i] == rest[i];
          assert c in s[1..];
        }
      }
    }
  }

  lemma ReplaceCrAppend(a: string, b: string)
    ensures ReplaceCr(a + b) == ReplaceCr(a) + ReplaceCr(b)
  {
  }

  /** After normalisation no carriage return is left, and splitting the
      normalised text at `\n` is the same as splitting the raw text at
      each of `\r\n`, `\r` and `\n`: each separator ends exactly one line. */
  lemma {:induction false} LinesSplitAtEverySeparator(s: string)
    ensures '\r' !in NormalizeEol(s)
    ensures Lines(s) == SplitLines(s)
  {
    if |s| == 0 {
    } else if |s| >= 2 && s[0] == '\r' && s[1] == '\n' {
      LinesSplitAtEverySeparator(s[2..]);
      ReplaceCrAppend("\n", ReplaceCrLf(s[2..]));
      assert NormalizeEol(s) == "\n" + NormalizeEol(s[2..]);
      assert ("\n" + NormalizeEol(s[2..]))[1..] == NormalizeEol(s[2..]);
    } else {
      LinesSplitAtEverySeparator(s[1..]);
      ReplaceCrAppend([s[0]], ReplaceCrLf(s[1..]));
      var c := if s[0] == '\r' then '\n' else s[0];
      assert NormalizeEol(s) == [c] + NormalizeEol(s[1..]);
      assert ([c] + NormalizeEol(s[1..]))[1..] == NormalizeEol(s[1..]);
    }
  }

  /** `implode` undoes `explode`. */
  lemma {:induction false} JoinExplode(s: string)
    ensures Join(Explode(s)) == s
  {
    if |s| == 0 {
    } else if s[0] == '\n' {
      JoinExplode(s[1..]);
      assert Explode(s)[1..] == Explode(s[1..]);
    } else {
      JoinExplode(s[1..]);
      var rest := Explode(s[1..]);
      if |rest| == 1 {
      } else {
        assert Explode(s)[1..] == rest[1..];
        assert s == [s[0]] + (rest[0] + "\n" + Join(rest[1..]));
      }
    }
  }

  /** `explode` undoes `implode` on lines that hold no line feed. */
  lemma {:induction false} ExplodeJoin(lines: seq<string>)
    requires |lines| >= 1
    requires forall i :: 0 <= i < |lines| ==> '\n' !in lines[i]
    ensures Explode(Join(lines)) == lines
  {
    if |lines| == 1 {
      ExplodeLine(lines[0], "");
    } else {
      ExplodeJoin(lines[1..]);
      ExplodeLine(lines[0], Join(lines[1..]));
      assert Explode(Join(lines)) == [lines[0]] + lines[1..];
    }
  }

  /** Exploding one line followed by a line feed and more text. */
  lemma {:induction false} ExplodeLine(line: string, more: string)
    requires '\n' !in line
    ensures more == "" ==> Explode(line) == [line]
    ensures Explode(line + "\n" + more) == [line] + Explode(more)
  {
    if |line| == 0 {
      assert line + "\n" + more == "\n" + more;
      assert ("\n" + more)[1..] == more;
    } else {
      ExplodeLine(line[1..], more);
      assert (line + "\n" + more)[1..] == line[1..] + "\n" + more;
      assert [line[0]] + line[1..] == line;
    }
  }

  /** A character other than the line feed that no line holds is not in
      the joined text. */
  lemma {:induction false} JoinKeepsCharacters(lines: seq<string>, c: char)
    requires |lines| >= 1
    requires c != '\n'
    requires forall i :: 0 <= i < |lines| ==> c !in lines[i]
    ensures c !in Join(lines)
  {
    if |lines| > 1 {
      JoinKeepsCharacters(lines[1..], c);
    }
  }
}
