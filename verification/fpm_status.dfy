/** `FpmStatus`: the parsed status report of one php-fpm pool and its
    dynamic-property lookups. */
module FpmStatus {
  import opened Wrappers
  import opened CharClasses
  import opened TextLines
  import opened LinePattern
  import opened StatusKey

  /** What one line contributes: the normalised key and the value, or
      nothing when the line does not match the pattern. */
  function Entry(line: string): (r: Option<(string, string)>)
    ensures r.Some? ==> IsStatusKey(r.value.0) && |r.value.1| >= 1
    ensures r.Some? <==> MatchLine(line).Some?
  {
    match MatchLine(line)
    case None => None
    case Some((key, value)) =>
      NormalizedKeyIsStatusKey(key);
      Some((NormalizeKey(key), value))
  }

  /** `$entries[$key] = $value` for a matching line; nothing otherwise. */
  function Store(entries: map<string, string>, e: Option<(string, string)>): map<string, string> {
    match e
    case None => entries
    case Some((key, value)) => entries[key := value]
  }

  /** The `foreach` loop of `parse`, one line at a time in input order. */
  function ParseLines(lines: seq<string>, entries: map<string, string>): map<string, string> {
    if |lines| == 0 then entries
    else ParseLines(lines[1..], Store(entries, Entry(lines[0])))
  }

  /** The map `parse` builds from the raw status text. */
  function Parse(content: string): (r: map<string, string>)
    ensures forall k :: k in r ==> IsStatusKey(k) && |r[k]| >= 1
  {
    ParsedEntriesWellFormed(Lines(content), map[]);
    ParseLines(Lines(content), map[])
  }

  /** Line `i` stores a value under `key`. */
  predicate SetsKey(lines: seq<string>, i: int, key: string) {
    0 <= i < |lines| && Entry(lines[i]).Some? && Entry(lines[i]).value.0 == key
  }

  /** Line `i` is the last line that stores a value under `key`. */
  predicate LastSetter(lines: seq<string>, i: int, key: string) {
    SetsKey(lines, i, key) && forall j :: i < j < |lines| ==> !SetsKey(lines, j, key)
  }

  lemma {:induction false} ParsedEntriesWellFormed(lines: seq<string>, entries: map<string, string>)
    requires forall k :: k in entries ==> IsStatusKey(k) && |entries[k]| >= 1
    ensures forall k :: k in ParseLines(lines, entries) ==>
              IsStatusKey(k) && |ParseLines(lines, entries)[k]| >= 1
  {
    if |lines| > 0 {
      ParsedEntriesWellFormed(lines[1..], Store(entries, Entry(lines[0])));
    }
  }

  /** Last write wins: after the loop a key is present exactly when it was
      present before or some line sets it; its value is the one of the last
      line that sets it, and a key no line sets keeps its earlier value. */
  lemma {:induction false} ParseLinesLastWriteWins(lines: seq<string>, entries: map<string, string>)
    ensures forall k :: k in ParseLines(lines, entries) <==>
              k in entries || exists i :: SetsKey(lines, i, k)
    ensures forall k, i :: LastSetter(lines, i, k) ==>
              k in ParseLines(lines, entries) &&
              ParseLines(lines, entries)[k] == Entry(lines[i]).value.1
    ensures forall k :: k in entries && (forall i :: !SetsKey(lines, i, k)) ==>
              k in ParseLines(lines, entries) && ParseLines(lines, entries)[k] == entries[k]
  {
    if |lines| > 0 {
      var rest := lines[1..];
      var stored := Store(entries, Entry(lines[0]));
      var r := ParseLines(lines, entries);
      assert r == ParseLines(rest, stored);
      ParseLinesLastWriteWins(rest, stored);
      assert forall j, k :: 0 <= j ==> (SetsKey(rest, j, k) <==> SetsKey(lines, j + 1, k)) by {
        forall j, k | 0 <= j ensures SetsKey(rest, j, k) <==> SetsKey(lines, j + 1, k) {
          if 0 <= j < |rest| {
            assert rest[j] == lines[j + 1];
          }
        }
      }
      forall k ensures k in r <==> k in entries || exists i :: SetsKey(lines, i, k) {
        if k in r && k !in entries && !SetsKey(lines, 0, k) {
          assert k !in stored;
          var j :| SetsKey(rest, j, k);
          assert SetsKey(lines, j + 1, k);
        }
        if exists i :: SetsKey(lines, i, k) {
          var i :| SetsKey(lines, i, k);
          if i > 0 {
            assert SetsKey(rest, i - 1, k);
          }
        }
      }
      forall k, i | LastSetter(lines, i, k)
        ensures k in r && r[k] == Entry(lines[i]).value.1
      {
        if i == 0 {
          assert forall j :: !SetsKey(rest, j, k);
        } else {
          assert LastSetter(rest, i - 1, k);
        }
      }
      forall k | k in entries && (forall i :: !SetsKey(lines, i, k))
        ensures k in r && r[k] == entries[k]
      {
        assert !SetsKey(lines, 0, k);
        forall j ensures !SetsKey(rest, j, k) {
          assert !SetsKey(lines, j + 1, k);
        }
      }
    }
  }

  /** `parse` on its own: a key is parsed exactly when some line of the
      text sets it, and it holds the value of the last such line. */
  lemma ParseLastWriteWins(content: string)
    ensures forall k :: k in Parse(content) <==> exists i :: SetsKey(Lines(content), i, k)
    ensures forall k, i :: LastSetter(Lines(content), i, k) ==>
              k in Parse(content) && Parse(content)[k] == Entry(Lines(content)[i]).value.1
  {
    ParseLinesLastWriteWins(Lines(content), map[]);
  }

  /** A line that does not match leaves the result of the loop unchanged,
      wherever it stands. */
  lemma {:induction false} UnmatchedLineIgnored(before: seq<string>, line: string, after: seq<string>,
                                                entries: map<string, string>)
    requires Entry(line).None?
    ensures ParseLines(before + [line] + after, entries) == ParseLines(before + after, entries)
  {
    if |before| == 0 {
      assert before + [line] + after == [line] + after;
      assert ([line] + after)[1..] == after;
      assert before + after == after;
    } else {
      assert (before + [line] + after)[1..] == before[1..] + [line] + after;
      assert (before + after)[1..] == before[1..] + after;
      assert (before + [line] + after)[0] == before[0] == (before + after)[0];
      UnmatchedLineIgnored(before[1..], line, after, Store(entries, Entry(before[0])));
    }
  }

  /** One php-fpm pool's status: the URL it is read from and the entries
      of the last parsed report (initially none). */
  datatype Status = Status(statusUrl: string, data: map<string, string>) {

    /** `__get`: the parsed value, or `null` when the key was not parsed. */
    function Get(key: string): (r: Option<string>)
      ensures r.Some? <==> key in data
      ensures r.Some? ==> r.value == data[key]
    {
      if key in data then Some(data[key]) else None
    }

    /** `__isset`: values are never `null`, so this is key presence. */
    function IsSet(key: string): (r: bool)
      ensures r <==> Get(key).Some?
    {
      key in data
    }

    /** `parse`: the entries of `content` replace the stored ones. */
    function Parsed(content: string): (r: Status)
      ensures r.statusUrl == statusUrl
      ensures forall k :: r.IsSet(k) ==> IsStatusKey(k) && |r.data[k]| >= 1
    {
      this.(data := Parse(content))
    }
  }

  /** `new FpmStatus($statusUrl)`: no entries yet. */
  function NewStatus(statusUrl: string): (r: Status)
    ensures r.statusUrl == statusUrl
    ensures forall k :: !r.IsSet(k)
  {
    Status(statusUrl, map[])
  }

  /** `parse` replaces the stored map instead of merging into it: what was
      stored before has no influence, and a key the new text does not set
      is gone; `__isset` holds exactly for the keys some line sets, and
      `__get` returns the last such line's value or `null`. */
  lemma ParsedReplacesData(s: Status, content: string)
    ensures s.Parsed(content) == NewStatus(s.statusUrl).Parsed(content)
    ensures forall k :: s.Parsed(content).IsSet(k) <==> exists i :: SetsKey(Lines(content), i, k)
    ensures forall k :: (forall i :: !SetsKey(Lines(content), i, k)) ==>
              s.Parsed(content).Get(k) == None
    ensures forall k, i :: LastSetter(Lines(content), i, k) ==>
              s.Parsed(content).Get(k) == Some(Entry(Lines(content)[i]).value.1)
  {
    ParseLastWriteWins(content);
  }
}
