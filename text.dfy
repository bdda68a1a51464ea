/** String operations the importer relies on: Python's `sub in s`, `str.lower`,
    `sep.join(parts)`, and a splitter that undoes the join. */
module Text {

  /** `sub` occurs at the very start of `s`. */
  predicate StartsWith(s: string, sub: string) {
    |sub| <= |s| && s[..|sub|] == sub
  }

  /** Python's `sub in s`: `sub` occurs somewhere in `s`. */
  predicate Contains(s: string, sub: string)
    decreases |s|
  {
    StartsWith(s, sub) || (|s| > 0 && Contains(s[1..], sub))
  }

  /** Lower-casing of one character: ASCII A-Z and the Cyrillic capitals
      (U+0400-U+042F and U+0490); the rest of Unicode case mapping is left out
      (see README). */
  function LowerChar(c: char): (r: char)
    ensures r == c || (c < r && r as int - c as int in {32, 80, 1})
  {
    if 'A' <= c <= 'Z' then (c as int + 32) as char
    else if 'А' <= c <= 'Я' then (c as int + 32) as char
    else if 'Ѐ' <= c <= 'Џ' then (c as int + 80) as char
    else if c == 'Ґ' then 'ґ'
    else c
  }

  /** `s.lower()`, character by character. */
  function Lower(s: string): (r: string)
    ensures |r| == |s|
    ensures forall i :: 0 <= i < |s| ==> r[i] == LowerChar(s[i])
  {
    seq(|s|, i requires 0 <= i < |s| => LowerChar(s[i]))
  }

  /** `s` is already in lower case: lowering leaves every character alone. */
  predicate IsLowerCase(s: string) {
    Lower(s) == s
  }

  lemma {:induction false} LowerCharIdempotent(c: char)
    ensures LowerChar(LowerChar(c)) == LowerChar(c)
  {
  }

  /** Lowering twice is lowering once. */
  lemma LowerIdempotent(s: string)
    ensures Lower(Lower(s)) == Lower(s)
  {
    forall i | 0 <= i < |s| ensures Lower(Lower(s))[i] == Lower(s)[i] {
      LowerCharIdempotent(s[i]);
    }
  }

  /** A lower-case word found in `s` is still found once `s` is lowered: this is
      why the second, original-case test of a lower-case marker never adds a match. */
  lemma {:induction false} ContainsLowered(s: string, sub: string)
    requires IsLowerCase(sub) && Contains(s, sub)
    ensures Contains(Lower(s), sub)
    decreases |s|
  {
    if StartsWith(s, sub) {
      forall i | 0 <= i < |sub| ensures Lower(s)[i] == sub[i] {
        assert Lower(sub)[i] == sub[i];
      }
      assert Lower(s)[..|sub|] == sub;
    } else {
      ContainsLowered(s[1..], sub);
      assert Lower(s)[1..] == Lower(s[1..]);
    }
  }

  /** A word containing `head` at its start carries `head` into any text it occurs in. */
  lemma {:induction false} ContainsWithin(s: string, sub: string, head: string)
    requires Contains(s, sub) && StartsWith(sub, head)
    ensures Contains(s, head)
    decreases |s|
  {
    if StartsWith(s, sub) {
      assert s[..|head|] == sub[..|head|];
    } else {
      ContainsWithin(s[1..], sub, head);
    }
  }

  /** A word found in a suffix of `s` is found in `s`. */
  lemma {:induction false} ContainsInSuffix(s: string, k: nat, sub: string)
    requires k <= |s| && Contains(s[k..], sub)
    ensures Contains(s, sub)
    decreases k
  {
    if k == 0 {
      assert s[k..] == s;
    } else {
      assert s[1..][k - 1..] == s[k..];
      ContainsInSuffix(s[1..], k - 1, sub);
    }
  }

  /** Python's `sep.join(parts)`. */
  function Join(parts: seq<string>, sep: string): (r: string)
    decreases |parts|
  {
    if |parts| == 0 then ""
    else if |parts| == 1 then parts[0]
    else parts[0] + sep + Join(parts[1..], sep)
  }

  /** The fields of `s` between occurrences of `sep` (Python's `s.split(sep)`). */
  function Split(s: string, sep: char): (r: seq<string>)
    ensures |r| >= 1
    decreases |s|
  {
    if |s| == 0 then [""]
    else
      var rest := Split(s[1..], sep);
      if s[0] == sep then [""] + rest
      else [[s[0]] + rest[0]] + rest[1..]
  }

  lemma {:induction false} SplitAfterField(field: string, t: string, sep: char)
    requires sep !in field
    ensures Split(field + t, sep) == [field + Split(t, sep)[0]] + Split(t, sep)[1..]
    decreases |field|
  {
    if |field| > 0 {
      var r := Split(t, sep);
      assert (field + t)[1..] == field[1..] + t;
      SplitAfterField(field[1..], t, sep);
      var rest := Split(field[1..] + t, sep);
      assert rest[0] == field[1..] + r[0] && rest[1..] == r[1..];
      assert [field[0]] + (field[1..] + r[0]) == field + r[0];
    } else {
      var r := Split(t, sep);
      assert field + t == t && field + r[0] == r[0];
      assert r == [r[0]] + r[1..];
    }
  }

  /** Splitting a join undoes it, provided no part holds the separator. */
  lemma {:induction false} SplitJoin(parts: seq<string>, sep: char)
    requires |parts| >= 1
    requires forall k :: 0 <= k < |parts| ==> sep !in parts[k]
    ensures Split(Join(parts, [sep]), sep) == parts
    decreases |parts|
  {
    if |parts| == 1 {
      SplitAfterField(parts[0], "", sep);
      assert parts[0] + "" == parts[0];
    } else {
      var tail := Join(parts[1..], [sep]);
      SplitJoin(parts[1..], sep);
      assert Split([sep] + tail, sep) == [""] + parts[1..];
      assert parts[0] + [sep] + tail == parts[0] + ([sep] + tail);
      SplitAfterField(parts[0], [sep] + tail, sep);
      assert parts[0] + "" == parts[0];
    }
  }

  /** Joining a split gives the string back. */
  lemma {:induction false} JoinSplit(s: string, sep: char)
    ensures Join(Split(s, sep), [sep]) == s
    decreases |s|
  {
    if |s| > 0 {
      var rest := Split(s[1..], sep);
      JoinSplit(s[1..], sep);
      if s[0] == sep {
        assert Join([""] + rest, [sep]) == "" + [sep] + Join(rest, [sep]);
      } else {
        var parts := [[s[0]] + rest[0]] + rest[1..];
        if |rest| == 1 {
          assert Join(rest, [sep]) == rest[0];
        } else {
          assert Join(rest, [sep]) == rest[0] + [sep] + Join(rest[1..], [sep]);
          assert parts[1..] == rest[1..];
        }
        assert s == [s[0]] + s[1..];
      }
    }
  }
}
