/** String helpers with the semantics of the Java and JavaScript library calls the
    application uses: case mapping, substring search, trimming, dotted-key splitting. */
module Text {
  import opened Wrappers

  /** `toLowerCase` of one character, for the Basic Latin and Latin-1 letters. */
  function LowerChar(c: char): char {
    if 'A' <= c <= 'Z' || ('À' <= c <= 'Þ' && c != '×') then
      (c as int + 32) as char
    else
      c
  }

  /** `toUpperCase` of one character, for the Basic Latin and Latin-1 letters. */
  function UpperChar(c: char): char {
    if 'a' <= c <= 'z' || ('à' <= c <= 'þ' && c != '÷') then
      (c as int - 32) as char
    else if c == 'ÿ' then 'Ÿ'
    else if c == 'µ' then 'Μ'
    else c
  }

  /** `String.toLowerCase` / `String.prototype.toLowerCase`, character by character. */
  function ToLower(s: string): (r: string)
    ensures |r| == |s|
    ensures forall i :: 0 <= i < |s| ==> r[i] == LowerChar(s[i])
  {
    seq(|s|, i requires 0 <= i < |s| => LowerChar(s[i]))
  }

  /** One character comparison of Java's `String.regionMatches(true, ...)`. */
  predicate CharEqualsIgnoreCase(x: char, y: char) {
    x == y || UpperChar(x) == UpperChar(y) || LowerChar(UpperChar(x)) == LowerChar(UpperChar(y))
  }

  /** Java's `a.equalsIgnoreCase(b)`, where `b` may be null. */
  predicate EqualsIgnoreCase(a: string, b: Option<string>) {
    b.Some? && |a| == |b.value| &&
    forall i :: 0 <= i < |a| ==> CharEqualsIgnoreCase(a[i], b.value[i])
  }

  /** Only 'e' and 'E' match 'e' ignoring case, and only 'n' and 'N' match 'n'. */
  lemma MatchesLetterIgnoringCase(c: char)
    ensures CharEqualsIgnoreCase('e', c) <==> c == 'e' || c == 'E'
    ensures CharEqualsIgnoreCase('n', c) <==> c == 'n' || c == 'N'
  {
  }

  /** The four spellings that Java accepts as "en" ignoring case. */
  const EnglishSpellings: set<Option<string>> := {Some("en"), Some("eN"), Some("En"), Some("EN")}

  lemma EqualsIgnoreCaseEn(language: Option<string>)
    ensures EqualsIgnoreCase("en", language) <==> language in EnglishSpellings
  {
    if EqualsIgnoreCase("en", language) {
      var s := language.value;
      assert CharEqualsIgnoreCase("en"[0], s[0]) && CharEqualsIgnoreCase("en"[1], s[1]);
      MatchesLetterIgnoringCase(s[0]);
      MatchesLetterIgnoringCase(s[1]);
      assert s == [s[0], s[1]];
    }
    if language in EnglishSpellings {
      var s := language.value;
      MatchesLetterIgnoringCase(s[0]);
      MatchesLetterIgnoringCase(s[1]);
      assert forall i :: 0 <= i < 2 ==> CharEqualsIgnoreCase("en"[i], s[i]);
    }
  }

  /** JavaScript's `s || fallback` on a string that may be null: null and "" are falsy. */
  function OrElse(s: Option<string>, fallback: string): (r: string)
    ensures s.Some? && s.value != "" ==> r == s.value
    ensures s.None? || s.value == "" ==> r == fallback
  {
    if s.Some? && s.value != "" then s.value else fallback
  }

  predicate StartsWith(s: string, prefix: string) {
    |prefix| <= |s| && s[..|prefix|] == prefix
  }

  /** `sub` occurs in `s` starting at index `i`. */
  predicate OccursAt(s: string, sub: string, i: int) {
    0 <= i && i + |sub| <= |s| && s[i..i + |sub|] == sub
  }

  /** Dropping the first character moves every later occurrence one place left. */
  lemma ShiftOccurrences(s: string, sub: string)
    requires |s| > |sub| && !StartsWith(s, sub)
    ensures (exists i :: OccursAt(s, sub, i)) <==> (exists i :: OccursAt(s[1..], sub, i))
  {
    if exists i :: OccursAt(s, sub, i) {
      var i :| OccursAt(s, sub, i);
      assert i != 0;
      assert s[1..][i - 1..i - 1 + |sub|] == s[i..i + |sub|];
      assert OccursAt(s[1..], sub, i - 1);
    }
    if exists i :: OccursAt(s[1..], sub, i) {
      var i :| OccursAt(s[1..], sub, i);
      assert s[1..][i..i + |sub|] == s[i + 1..i + 1 + |sub|];
      assert OccursAt(s, sub, i + 1);
    }
  }

  /** `String.contains` / `String.prototype.includes`. */
  function Contains(s: string, sub: string): (r: bool)
    ensures r <==> exists i :: OccursAt(s, sub, i)
    decreases |s|
  {
    if StartsWith(s, sub) then
      assert OccursAt(s, sub, 0);
      true
    else if |s| <= |sub| then
      false
    else
      ShiftOccurrences(s, sub);
      Contains(s[1..], sub)
  }

  lemma ContainsEmpty(s: string)
    ensures Contains(s, "")
  {
    assert OccursAt(s, "", 0);
  }

  /** Java's `String.trim`: strips leading and trailing characters up to U+0020. */
  function TrimStart(s: string): (r: string)
    ensures |r| <= |s|
    decreases |s|
  {
    if |s| > 0 && s[0] <= ' ' then TrimStart(s[1..]) else s
  }

  /** `TrimStart` drops exactly the leading run of characters up to U+0020. */
  lemma {:induction false} TrimStartDropsBlanks(s: string)
    ensures var r := TrimStart(s);
      && (|r| > 0 ==> r[0] > ' ')
      && r == s[|s| - |r|..]
      && (forall i :: 0 <= i < |s| - |r| ==> s[i] <= ' ')
    decreases |s|
  {
    if |s| > 0 && s[0] <= ' ' {
      TrimStartDropsBlanks(s[1..]);
      var r := TrimStart(s);
      assert r == TrimStart(s[1..]);
      forall i | 0 <= i < |s| - |r|
        ensures s[i] <= ' '
      {
        if i > 0 {
          assert s[i] == s[1..][i - 1];
        }
      }
    }
  }

  function TrimEnd(s: string): (r: string)
    ensures |r| <= |s|
    decreases |s|
  {
    if |s| > 0 && s[|s| - 1] <= ' ' then TrimEnd(s[..|s| - 1]) else s
  }

  /** `TrimEnd` drops exactly the trailing run of characters up to U+0020. */
  lemma {:induction false} TrimEndDropsBlanks(s: string)
    ensures var r := TrimEnd(s);
      && (|r| > 0 ==> r[|r| - 1] > ' ')
      && r == s[..|r|]
      && (forall i :: |r| <= i < |s| ==> s[i] <= ' ')
    decreases |s|
  {
    if |s| > 0 && s[|s| - 1] <= ' ' {
      TrimEndDropsBlanks(s[..|s| - 1]);
      var r := TrimEnd(s);
      assert r == TrimEnd(s[..|s| - 1]);
      assert s[..|s| - 1][..|r|] == s[..|r|];
    }
  }

  function Trim(s: string): string {
    TrimEnd(TrimStart(s))
  }

  /** Jakarta's `@NotBlank`: not null, and something is left after `trim`. */
  predicate NotBlank(s: Option<string>) {
    s.Some? && |Trim(s.value)| > 0
  }

  /** A string is not blank exactly when it holds a character above U+0020. */
  lemma NotBlankIffVisible(s: string)
    ensures NotBlank(Some(s)) <==> exists i :: 0 <= i < |s| && s[i] > ' '
  {
    var t := TrimStart(s);
    TrimStartDropsBlanks(s);
    TrimEndDropsBlanks(t);
    if exists i :: 0 <= i < |s| && s[i] > ' ' {
      var i :| 0 <= i < |s| && s[i] > ' ';
      var k := |s| - |t|;
      assert i >= k && t[i - k] == s[i];
    }
  }

  /** Length in UTF-16 code units, which is what Java's `String.length` and `@Size` count. */
  function Utf16Length(s: string): (n: nat)
    ensures |s| <= n <= 2 * |s|
  {
    if |s| == 0 then 0
    else (if s[0] as int > 0xFFFF then 2 else 1) + Utf16Length(s[1..])
  }

  /** Jakarta's `@Size(max = bound)`: null passes, otherwise the UTF-16 length is at most `bound`. */
  predicate SizeAtMost(s: Option<string>, bound: nat) {
    s.None? || Utf16Length(s.value) <= bound
  }

  /** `String.prototype.split` with a one-character separator. */
  function Split(s: string, sep: char): (parts: seq<string>)
    ensures |parts| >= 1
    ensures forall i :: 0 <= i < |parts| ==> sep !in parts[i]
    decreases |s|
  {
    if |s| == 0 then [""]
    else
      var rest := Split(s[1..], sep);
      if s[0] == sep then [""] + rest
      else [[s[0]] + rest[0]] + rest[1..]
  }

  /** `Array.prototype.join` with a one-character separator, on a non-empty array. */
  function Join(parts: seq<string>, sep: char): string
    requires |parts| >= 1
  {
    if |parts| == 1 then parts[0] else parts[0] + [sep] + Join(parts[1..], sep)
  }

  /** Joining the pieces of a split gives back the original string. */
  lemma {:induction false} JoinSplit(s: string, sep: char)
    ensures Join(Split(s, sep), sep) == s
    decreases |s|
  {
    if |s| > 0 {
      var rest := Split(s[1..], sep);
      JoinSplit(s[1..], sep);
      if s[0] == sep {
        assert Split(s, sep)[1..] == rest;
      } else if |rest| == 1 {
        assert Split(s, sep) == [[s[0]] + rest[0]];
        assert s == [s[0]] + s[1..];
      } else {
        var parts := Split(s, sep);
        assert parts[1..] == rest[1..];
        assert parts[0] + [sep] + Join(rest[1..], sep) == [s[0]] + (rest[0] + [sep] + Join(rest[1..], sep));
        assert s == [s[0]] + s[1..];
      }
    }
  }

  lemma {:induction false} SplitWithoutSeparator(w: string, sep: char)
    requires sep !in w
    ensures Split(w, sep) == [w]
    decreases |w|
  {
    if |w| > 0 {
      assert sep !in w[1..];
      SplitWithoutSeparator(w[1..], sep);
      assert [w[0]] + w[1..] == w;
    }
  }

  lemma {:induction false} SplitAtSeparator(w: string, sep: char, t: string)
    requires sep !in w
    ensures Split(w + [sep] + t, sep) == [w] + Split(t, sep)
    decreases |w|
  {
    if |w| == 0 {
      assert w + [sep] + t == [sep] + t;
      assert ([sep] + t)[1..] == t;
    } else {
      var u := w + [sep] + t;
      assert u[1..] == w[1..] + [sep] + t;
      assert sep !in w[1..];
      SplitAtSeparator(w[1..], sep, t);
      assert [w[0]] + w[1..] == w;
    }
  }

  /** Splitting a join of separator-free pieces gives back the pieces. */
  lemma {:induction false} SplitJoin(parts: seq<string>, sep: char)
    requires |parts| >= 1
    requires forall i :: 0 <= i < |parts| ==> sep !in parts[i]
    ensures Split(Join(parts, sep), sep) == parts
    decreases |parts|
  {
    if |parts| == 1 {
      SplitWithoutSeparator(parts[0], sep);
    } else {
      SplitJoin(parts[1..], sep);
      SplitAtSeparator(parts[0], sep, Join(parts[1..], sep));
      assert [parts[0]] + parts[1..] == parts;
    }
  }
}
