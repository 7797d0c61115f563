/** Joining, searching and numbers in text. */
module Text {

  function Join(parts: seq<string>, separator: string): string {
    if parts == [] then ""
    else if |parts| == 1 then parts[0]
    else parts[0] + separator + Join(parts[1..], separator)
  }

  predicate OccursAt(text: string, pattern: string, i: nat) {
    i + |pattern| <= |text| && text[i..i + |pattern|] == pattern
  }

  predicate Contains(text: string, pattern: string) {
    exists i :: 0 <= i <= |text| && OccursAt(text, pattern, i)
  }

  predicate SomeContains(lines: seq<string>, pattern: string) {
    exists k :: 0 <= k < |lines| && Contains(lines[k], pattern)
  }

  function LowerChar(c: char): char {
    if 'A' <= c <= 'Z' then (c as int + 32) as char else c
  }

  /** `to_ascii_lowercase`. */
  function Lower(s: string): string {
    seq(|s|, i requires 0 <= i < |s| => LowerChar(s[i]))
  }

  /** The same character, or the capital of a small letter. */
  predicate InAnyCase(c: char, small: char) {
    c == small || ('a' <= small <= 'z' && 'A' <= c <= 'Z' && c as int - 'A' as int == small as int - 'a' as int)
  }

  predicate Small(pattern: string) {
    forall k :: 0 <= k < |pattern| ==> !('A' <= pattern[k] <= 'Z')
  }

  predicate OccursInAnyCase(text: string, pattern: string, i: nat) {
    i + |pattern| <= |text| && forall k :: 0 <= k < |pattern| ==> InAnyCase(text[i + k], pattern[k])
  }

  /** `pattern` occurs in `text`, its small letters in any case. */
  predicate ContainsInAnyCase(text: string, pattern: string) {
    exists i :: 0 <= i <= |text| && OccursInAnyCase(text, pattern, i)
  }

  /** Searching the lowered text for a pattern without capitals finds it in any case. */
  lemma LowerSearchIff(text: string, pattern: string)
    requires Small(pattern)
    ensures Contains(Lower(text), pattern) <==> ContainsInAnyCase(text, pattern)
  {
    hide OccursAt, OccursInAnyCase;
    forall i | 0 <= i <= |text| ensures OccursAt(Lower(text), pattern, i) <==> OccursInAnyCase(text, pattern, i) {
      LowerOccurs(text, pattern, i);
    }
  }

  lemma LowerOccurs(text: string, pattern: string, i: nat)
    requires Small(pattern)
    ensures OccursAt(Lower(text), pattern, i) <==> OccursInAnyCase(text, pattern, i)
  {
    var lower := Lower(text);
    if i + |pattern| <= |text| {
      forall k | 0 <= k < |pattern|
        ensures lower[i..i + |pattern|][k] == pattern[k] <==> InAnyCase(text[i + k], pattern[k])
      {
        assert lower[i..i + |pattern|][k] == LowerChar(text[i + k]);
      }
      if OccursInAnyCase(text, pattern, i) {
        assert lower[i..i + |pattern|] == pattern;
      }
    }
  }

  lemma ContainsInPart(before: string, text: string, after: string, pattern: string)
    requires Contains(text, pattern)
    ensures Contains(before + text + after, pattern)
  {
    var i :| 0 <= i <= |text| && OccursAt(text, pattern, i);
    var whole := before + text + after;
    var j := |before| + i;
    assert whole[j..j + |pattern|] == text[i..i + |pattern|];
    assert OccursAt(whole, pattern, j);
  }

  lemma OccurrenceHolds(text: string, pattern: string, i: nat, k: nat)
    requires OccursAt(text, pattern, i) && i <= k < i + |pattern|
    ensures text[k] in pattern
  {
    assert text[i..i + |pattern|][k - i] == text[k];
  }

  /** A pattern that holds no newline lies on one side of any newline. */
  lemma ContainsBesideNewline(a: string, b: string, pattern: string)
    requires '\n' !in pattern && Contains(a + "\n" + b, pattern)
    ensures Contains(a, pattern) || Contains(b, pattern)
  {
    var whole := a + "\n" + b;
    assert whole[|a|] == '\n';
    var i :| 0 <= i <= |whole| && OccursAt(whole, pattern, i);
    assert i + |pattern| <= |a| || i > |a| by {
      if i <= |a| < i + |pattern| {
        OccurrenceHolds(whole, pattern, i, |a|);
        assert false;
      }
    }
    if i + |pattern| <= |a| {
      assert a[i..i + |pattern|] == whole[i..i + |pattern|];
      assert OccursAt(a, pattern, i);
    } else {
      var j := i - |a| - 1;
      assert b[j..j + |pattern|] == whole[i..i + |pattern|];
      assert OccursAt(b, pattern, j);
    }
  }

  lemma SomeContainsSplit(lines: seq<string>, pattern: string)
    requires lines != []
    ensures SomeContains(lines, pattern) <==> Contains(lines[0], pattern) || SomeContains(lines[1..], pattern)
  {
    hide Contains;
    if SomeContains(lines, pattern) {
      var k :| 0 <= k < |lines| && Contains(lines[k], pattern);
      if k > 0 { assert Contains(lines[1..][k - 1], pattern); }
    }
    if SomeContains(lines[1..], pattern) {
      var k :| 0 <= k < |lines[1..]| && Contains(lines[1..][k], pattern);
      assert Contains(lines[k + 1], pattern);
    }
  }

  lemma BesideNewlineContains(a: string, b: string, pattern: string)
    requires Contains(a, pattern) || Contains(b, pattern)
    ensures Contains(a + "\n" + b, pattern)
  {
    hide Contains;
    if Contains(a, pattern) {
      ContainsInPart("", a, "\n" + b, pattern);
      assert "" + a + ("\n" + b) == a + "\n" + b;
    } else {
      ContainsInPart(a + "\n", b, "", pattern);
      assert a + "\n" + b + "" == a + "\n" + b;
    }
  }

  lemma NothingInEmpty(pattern: string)
    requires pattern != ""
    ensures !Contains("", pattern)
  {
  }

  lemma {:induction false} JoinedSearch(lines: seq<string>, pattern: string)
    requires pattern != "" && '\n' !in pattern
    ensures Contains(Join(lines, "\n"), pattern) <==> SomeContains(lines, pattern)
  {
    hide Contains, SomeContains;
    if lines == [] {
      NothingInEmpty(pattern);
      assert !SomeContains(lines, pattern) by { NoLines(pattern); }
    } else {
      SomeContainsSplit(lines, pattern);
      JoinedSearch(lines[1..], pattern);
      if |lines| == 1 {
        NoLines(pattern);
        assert lines[1..] == [];
      } else {
        var rest := Join(lines[1..], "\n");
        if Contains(lines[0] + "\n" + rest, pattern) {
          ContainsBesideNewline(lines[0], rest, pattern);
        }
        if Contains(lines[0], pattern) || Contains(rest, pattern) {
          BesideNewlineContains(lines[0], rest, pattern);
        }
      }
    }
  }

  lemma NoLines(pattern: string)
    ensures !SomeContains([], pattern)
  {
  }

  /** Searching the joined text agrees with searching line by line for every list of lines, exactly for the patterns
      that are not empty and hold no newline. */
  lemma JoinedSearchIff(pattern: string)
    ensures (forall lines: seq<string> :: Contains(Join(lines, "\n"), pattern) <==> SomeContains(lines, pattern))
            <==> pattern != "" && '\n' !in pattern
  {
    if pattern != "" && '\n' !in pattern {
      forall lines: seq<string> ensures Contains(Join(lines, "\n"), pattern) <==> SomeContains(lines, pattern) {
        JoinedSearch(lines, pattern);
      }
    } else if pattern == "" {
      var none: seq<string> := [];
      assert OccursAt(Join(none, "\n"), pattern, 0);
      assert Contains(Join(none, "\n"), pattern) && !SomeContains(none, pattern);
    } else {
      var k :| 0 <= k < |pattern| && pattern[k] == '\n';
      var split := [pattern[..k], pattern[k + 1..]];
      assert split[1..] == [pattern[k + 1..]];
      assert Join(split, "\n") == pattern;
      assert OccursAt(pattern, pattern, 0);
      assert Contains(Join(split, "\n"), pattern) && !SomeContains(split, pattern);
    }
  }

  // ---- Decimal numerals ----

  predicate Digit(c: char) { '0' <= c <= '9' }

  predicate AllDigits(s: string) {
    s != "" && forall i :: 0 <= i < |s| ==> Digit(s[i])
  }

  function DigitOf(d: nat): char
    requires d < 10
  {
    "0123456789"[d]
  }

  function Decimal(n: nat): (s: string)
    ensures AllDigits(s)
  {
    if n < 10 then [DigitOf(n)] else Decimal(n / 10) + [DigitOf(n % 10)]
  }

  function NumberOf(s: string): nat
    requires forall i :: 0 <= i < |s| ==> Digit(s[i])
  {
    if s == "" then 0
    else
      assert Digit(s[|s| - 1]);
      10 * NumberOf(s[..|s| - 1]) + (s[|s| - 1] as int - '0' as int)
  }

  lemma {:induction false} DecimalReads(n: nat)
    ensures NumberOf(Decimal(n)) == n
  {
    if n >= 10 {
      DecimalReads(n / 10);
      assert Decimal(n)[..|Decimal(n)| - 1] == Decimal(n / 10);
    }
  }

  lemma DecimalInjective(m: nat, n: nat)
    requires Decimal(m) == Decimal(n)
    ensures m == n
  {
    DecimalReads(m);
    DecimalReads(n);
  }
}
