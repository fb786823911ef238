/** `preg_replace('/\s+/', '_', $key)`: each maximal run of whitespace in a
    captured key becomes one underscore. */
module StatusKey {
  import opened CharClasses
  import opened LinePattern

  /** `s` without its leading run of whitespace. */
  function DropSpaces(s: string): (r: string)
    ensures |r| <= |s| && r == s[|s| - |r|..]
    ensures |r| > 0 ==> !IsSpace(r[0])
    ensures forall i :: 0 <= i < |s| - |r| ==> IsSpace(s[i])
  {
    if |s| == 0 || !IsSpace(s[0]) then s else DropSpaces(s[1..])
  }

  /** Scanning left to right, a whitespace run matches `\s+` greedily and
      is replaced by `_`; any other character is copied. */
  function NormalizeKey(k: string): (r: string)
    ensures NoSpace(r)
  {
    if |k| == 0 then []
    else if IsSpace(k[0]) then "_" + NormalizeKey(DropSpaces(k))
    else [k[0]] + NormalizeKey(k[1..])
  }

  /** Normalisation never lengthens a key, turns a key of word and
      whitespace characters into one of word characters only, and keeps a
      first or last character that is not whitespace. */
  lemma NormalizeKeyShape(k: string)
    ensures |NormalizeKey(k)| <= |k|
    ensures AllWordOrSpace(k) ==> AllWord(NormalizeKey(k))
    ensures |k| > 0 && !IsSpace(k[0]) ==> |NormalizeKey(k)| > 0 && NormalizeKey(k)[0] == k[0]
    ensures |k| > 0 && !IsSpace(k[|k| - 1]) ==>
              |NormalizeKey(k)| > 0 && NormalizeKey(k)[|NormalizeKey(k)| - 1] == k[|k| - 1]
  {
    NormalizeKeyLength(k);
    if AllWordOrSpace(k) {
      NormalizeKeyWords(k);
    }
    if |k| > 0 && !IsSpace(k[|k| - 1]) {
      NormalizeKeyLast(k);
    }
  }

  lemma {:induction false} NormalizeKeyLength(k: string)
    ensures |NormalizeKey(k)| <= |k|
  {
    if |k| == 0 {
    } else if IsSpace(k[0]) {
      NormalizeKeyLength(DropSpaces(k));
    } else {
      NormalizeKeyLength(k[1..]);
    }
  }

  lemma {:induction false} NormalizeKeyWords(k: string)
    requires AllWordOrSpace(k)
    ensures AllWord(NormalizeKey(k))
  {
    if |k| == 0 {
    } else if IsSpace(k[0]) {
      var rest := DropSpaces(k);
      assert AllWordOrSpace(rest) by {
        forall i | 0 <= i < |rest| ensures IsWord(rest[i]) || IsSpace(rest[i]) {
          assert rest[i] == k[|k| - |rest| + i];
        }
      }
      NormalizeKeyWords(rest);
    } else {
      var rest := k[1..];
      assert AllWordOrSpace(rest) by {
        forall i | 0 <= i < |rest| ensures IsWord(rest[i]) || IsSpace(rest[i]) {
          assert rest[i] == k[i + 1];
        }
      }
      NormalizeKeyWords(rest);
    }
  }

  lemma {:induction false} NormalizeKeyLast(k: string)
    requires |k| > 0 && !IsSpace(k[|k| - 1])
    ensures |NormalizeKey(k)| > 0 && NormalizeKey(k)[|NormalizeKey(k)| - 1] == k[|k| - 1]
  {
    if IsSpace(k[0]) {
      var rest := DropSpaces(k);
      assert |rest| > 0 && rest[|rest| - 1] == k[|k| - 1];
      NormalizeKeyLast(rest);
    } else if |k| > 1 {
      var rest := k[1..];
      assert rest[|rest| - 1] == k[|k| - 1];
      NormalizeKeyLast(rest);
    }
  }

  /** A key the status map can hold: two or more word characters. */
  predicate IsStatusKey(k: string) {
    |k| >= 2 && AllWord(k)
  }

  /** A captured key (word character first and last, word or whitespace in
      between) normalises to a status key that keeps its first and last
      characters. */
  lemma NormalizedKeyIsStatusKey(k: string)
    requires IsCapturedKey(k)
    ensures IsStatusKey(NormalizeKey(k))
    ensures NormalizeKey(k)[0] == k[0]
    ensures NormalizeKey(k)[|NormalizeKey(k)| - 1] == k[|k| - 1]
  {
    NormalizeKeyShape(k);
    var r := NormalizeKey(k);
    WordIsNotSpace(k[0]);
    WordIsNotSpace(k[|k| - 1]);
    assert r == [k[0]] + NormalizeKey(k[1..]);
    assert |k[1..]| > 0 && k[1..][|k[1..]| - 1] == k[|k| - 1];
  }

  /** The strings normalisation leaves alone are exactly those without
      whitespace. */
  lemma {:induction false} NormalizeKeyFixedPoints(k: string)
    ensures NormalizeKey(k) == k <==> NoSpace(k)
  {
    if |k| > 0 && !IsSpace(k[0]) {
      NormalizeKeyFixedPoints(k[1..]);
      assert NoSpace(k) <==> NoSpace(k[1..]) by {
        if NoSpace(k[1..]) {
          forall i | 0 <= i < |k| ensures !IsSpace(k[i]) {
            if i > 0 {
              assert k[i] == k[1..][i - 1];
            }
          }
        }
      }
    }
  }

  /** Normalising twice is normalising once. */
  lemma NormalizeKeyIdempotent(k: string)
    ensures NormalizeKey(NormalizeKey(k)) == NormalizeKey(k)
  {
    NormalizeKeyFixedPoints(NormalizeKey(k));
  }

  /** A space-free word followed by one whitespace run and more text: the
      run becomes `_` and the rest is normalised on its own. */
  lemma {:induction false} NormalizeWordThenSpace(word: string, gap: string, rest: string)
    requires NoSpace(word)
    requires |gap| >= 1 && AllSpace(gap)
    requires |rest| > 0 && !IsSpace(rest[0])
    ensures NormalizeKey(word + gap + rest) == word + "_" + NormalizeKey(rest)
  {
    if |word| == 0 {
      EmptyAppend(word, gap, rest);
      EmptyAppend(word, "_", NormalizeKey(rest));
      NormalizeSpaceRun(gap, rest);
    } else {
      var tail := word[1..];
      assert NoSpace(tail) by {
        forall i | 0 <= i < |tail| ensures !IsSpace(tail[i]) {
          assert tail[i] == word[i + 1];
        }
      }
      NormalizeWordThenSpace(tail, gap, rest);
      NormalizeNonSpaceFirst(word[0], tail + gap + rest);
      ConsAppend(word, gap, rest);
      ConsAppend(word, "_", NormalizeKey(rest));
    }
  }

  /** A character other than whitespace is copied. */
  lemma NormalizeNonSpaceFirst(c: char, t: string)
    requires !IsSpace(c)
    ensures NormalizeKey([c] + t) == [c] + NormalizeKey(t)
  {
    assert ([c] + t)[1..] == t;
  }

  /** A leading whitespace run becomes one `_`. */
  lemma NormalizeSpaceRun(gap: string, rest: string)
    requires |gap| >= 1 && AllSpace(gap)
    requires |rest| > 0 && !IsSpace(rest[0])
    ensures NormalizeKey(gap + rest) == "_" + NormalizeKey(rest)
  {
    var s := gap + rest;
    assert s[0] == gap[0];
    DropSpacesRun(gap, rest);
  }

  lemma EmptyAppend(word: string, sep: string, more: string)
    requires |word| == 0
    ensures word + sep + more == sep + more
  {
  }

  lemma ConsAppend(word: string, sep: string, more: string)
    requires |word| > 0
    ensures [word[0]] + (word[1..] + sep + more) == word + sep + more
  {
    assert word == [word[0]] + word[1..];
  }

  lemma {:induction false} DropSpacesRun(gap: string, rest: string)
    requires AllSpace(gap)
    requires |rest| > 0 && !IsSpace(rest[0])
    ensures DropSpaces(gap + rest) == rest
  {
    if |gap| > 0 {
      assert (gap + rest)[1..] == gap[1..] + rest;
      DropSpacesRun(gap[1..], rest);
    } else {
      assert gap + rest == rest;
    }
  }
}
