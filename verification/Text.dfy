/** Strings the way the application's Python code handles them: whitespace stripping, words,
    joining and line splitting. */
module Text {

  // The characters for which Python's str.isspace holds.
  predicate IsSpace(c: char) {
    || c == ' ' || '\t' <= c <= '\r' || '\U{001C}' <= c <= '\U{001F}' || c == '\U{0085}' || c == '\U{00A0}'
    || c == '\U{1680}' || '\U{2000}' <= c <= '\U{200A}' || c == '\U{2028}' || c == '\U{2029}'
    || c == '\U{202F}' || c == '\U{205F}' || c == '\U{3000}'
  }

  // The characters at which Python's str.splitlines ends a line.
  predicate IsLineBreak(c: char) {
    || '\n' <= c <= '\r' || '\U{001C}' <= c <= '\U{001E}' || c == '\U{0085}'
    || c == '\U{2028}' || c == '\U{2029}'
  }

  predicate AllSpace(s: string) {
    forall k | 0 <= k < |s| :: IsSpace(s[k])
  }

  // No whitespace at either end (the empty string included).
  predicate Stripped(s: string) {
    s == "" || (!IsSpace(s[0]) && !IsSpace(s[|s| - 1]))
  }

  function LStrip(s: string): (r: string)
    ensures |r| <= |s|
  {
    if s != "" && IsSpace(s[0]) then LStrip(s[1..]) else s
  }

  function RStrip(s: string): (r: string)
    ensures |r| <= |s|
  {
    if s != "" && IsSpace(s[|s| - 1]) then RStrip(s[..|s| - 1]) else s
  }

  function Strip(s: string): (r: string)
    ensures |r| <= |s|
  {
    RStrip(LStrip(s))
  }

  // Stripping removes exactly the whitespace around a stripped, non-empty core.
  lemma {:induction false} LStripPadded(before: string, core: string)
    requires AllSpace(before)
    requires core == "" || !IsSpace(core[0])
    ensures LStrip(before + core) == core
  {
    if before == "" {
      assert before + core == core;
    } else {
      assert (before + core)[1..] == before[1..] + core;
      assert AllSpace(before[1..]) by {
        forall k | 0 <= k < |before[1..]| ensures IsSpace(before[1..][k]) {
          assert before[1..][k] == before[k + 1];
        }
      }
      LStripPadded(before[1..], core);
    }
  }

  lemma {:induction false} RStripPadded(core: string, after: string)
    requires AllSpace(after)
    requires core == "" || !IsSpace(core[|core| - 1])
    ensures RStrip(core + after) == core
  {
    if after == "" {
      assert core + after == core;
    } else {
      var n := |after| - 1;
      assert (core + after)[..|core + after| - 1] == core + after[..n];
      RStripPadded(core, after[..n]);
    }
  }

  lemma StripPadded(before: string, core: string, after: string)
    requires AllSpace(before) && AllSpace(after) && Stripped(core)
    ensures Strip(before + core + after) == core
  {
    if core == "" {
      StripAllSpace(before + core + after);
    } else {
      assert before + core + after == before + (core + after);
      LStripPadded(before, core + after);
      RStripPadded(core, after);
    }
  }

  lemma {:induction false} StripAllSpace(s: string)
    requires AllSpace(s)
    ensures LStrip(s) == "" && Strip(s) == ""
  {
    assert s + "" == s;
    LStripPadded(s, "");
  }

  lemma {:induction false} LStripSplits(s: string) returns (before: string)
    ensures AllSpace(before) && s == before + LStrip(s)
    ensures LStrip(s) == "" || !IsSpace(LStrip(s)[0])
  {
    if s != "" && IsSpace(s[0]) {
      var b := LStripSplits(s[1..]);
      before := [s[0]] + b;
    } else {
      before := "";
    }
  }

  lemma {:induction false} RStripSplits(s: string) returns (after: string)
    ensures AllSpace(after) && s == RStrip(s) + after
    ensures RStrip(s) == "" || !IsSpace(RStrip(s)[|RStrip(s)| - 1])
  {
    if s != "" && IsSpace(s[|s| - 1]) {
      var a := RStripSplits(s[..|s| - 1]);
      after := a + [s[|s| - 1]];
    } else {
      after := "";
    }
  }

  // Every string is whitespace, its stripped core, whitespace.
  lemma StripSplits(s: string) returns (before: string, after: string)
    ensures AllSpace(before) && AllSpace(after) && s == before + Strip(s) + after
    ensures Stripped(Strip(s))
  {
    before := LStripSplits(s);
    after := RStripSplits(LStrip(s));
    if Strip(s) != "" {
      assert Strip(s)[0] == LStrip(s)[0];
    }
  }

  lemma StripOfStripped(s: string)
    requires Stripped(s)
    ensures Strip(s) == s && LStrip(s) == s
  {
    assert "" + s + "" == s;
    StripPadded("", s, "");
    LStripPadded("", s);
    assert "" + s == s;
  }

  function Join(separator: string, parts: seq<string>): string {
    if parts == [] then "" else
    if |parts| == 1 then parts[0] else parts[0] + separator + Join(separator, parts[1..])
  }

  // The stripped parts that are not empty.
  function NonBlank(parts: seq<string>): seq<string> {
    if parts == [] then [] else (if Strip(parts[0]) == "" then [] else [Strip(parts[0])]) + NonBlank(parts[1..])
  }

  // Some texts occur in another one, in order and without overlap.
  ghost predicate InOrder(parts: seq<string>, s: string)
    decreases |parts|, 1
  {
    parts == [] || exists k :: OccursFirst(parts, s, k)
  }

  ghost predicate OccursFirst(parts: seq<string>, s: string, k: int)
    requires parts != []
    decreases |parts|, 0
  {
    0 <= k <= |s| && parts[0] <= s[k..] && InOrder(parts[1..], s[k + |parts[0]|..])
  }

  lemma {:induction false} InOrderConcat(a: seq<string>, s: string, b: seq<string>, t: string)
    requires InOrder(a, s) && InOrder(b, t)
    ensures InOrder(a + b, s + t)
    decreases |a|
  {
    if a == [] {
      assert a + b == b;
      if b != [] {
        var k :| OccursFirst(b, t, k);
        OccursLater(b, s, t, k);
      }
    } else {
      var k :| OccursFirst(a, s, k);
      var beyond := k + |a[0]|;
      InOrderConcat(a[1..], s[beyond..], b, t);
      assert (a + b)[1..] == a[1..] + b && (s + t)[beyond..] == s[beyond..] + t;
      AtBoth(a[0], s, t, k);
      assert OccursFirst(a + b, s + t, k);
    }
  }

  lemma {:induction false} OccursLater(b: seq<string>, s: string, t: string, k: int)
    requires b != [] && OccursFirst(b, t, k)
    ensures OccursFirst(b, s + t, |s| + k)
  {
    assert (s + t)[|s| + k..] == t[k..] && (s + t)[|s| + k + |b[0]|..] == t[k + |b[0]|..];
  }

  lemma AtBoth(part: string, s: string, t: string, k: nat)
    requires k <= |s| && part <= s[k..]
    ensures k <= |s + t| && part <= (s + t)[k..]
  {
    assert (s + t)[k..] == s[k..] + t;
  }

  lemma {:induction false} InOrderOne(part: string)
    ensures InOrder([part], part)
  {
    assert part[0..] == part;
    assert OccursFirst([part], part, 0);
  }

  /** A joined text holds its parts, in order. */
  lemma {:induction false} JoinInOrder(separator: string, parts: seq<string>)
    ensures InOrder(parts, Join(separator, parts))
  {
    if |parts| == 1 {
      InOrderOne(parts[0]);
      assert parts == [parts[0]];
    } else if parts != [] {
      InOrderOne(parts[0]);
      JoinInOrder(separator, parts[1..]);
      InOrderConcat([], separator, parts[1..], Join(separator, parts[1..]));
      InOrderConcat([parts[0]], parts[0], [] + parts[1..], separator + Join(separator, parts[1..]));
      assert [parts[0]] + ([] + parts[1..]) == parts;
      assert parts[0] + (separator + Join(separator, parts[1..])) == parts[0] + separator + Join(separator, parts[1..]);
    }
  }

  /** The parts that are not blank, stripped, in order: a blank one leaves nothing, and two lists of
      parts can be read one after the other. */
  lemma {:induction false} NonBlankParts(a: seq<string>, b: seq<string>, s: string)
    ensures NonBlank(a + b) == NonBlank(a) + NonBlank(b)
    ensures NonBlank([]) == [] && NonBlank([s]) == if AllSpace(s) then [] else [Strip(s)]
  {
    if a == [] {
      assert a + b == b;
      BlankOrNot(s);
      assert NonBlank([s]) == (if Strip(s) == "" then [] else [Strip(s)]) + NonBlank([]);
    } else {
      assert (a + b)[1..] == a[1..] + b;
      NonBlankParts(a[1..], b, s);
    }
  }

  lemma BlankOrNot(s: string)
    ensures Strip(s) == "" <==> AllSpace(s)
  {
    if AllSpace(s) { StripAllSpace(s); }
    var before, after := StripSplits(s);
    if Strip(s) == "" { assert s == before + after; }
  }

  lemma {:induction false} NothingJoined(separator: string, parts: seq<string>)
    ensures Join(separator, NonBlank(parts)) == "" <==> NonBlank(parts) == []
  {
    if parts != [] {
      NothingJoined(separator, parts[1..]);
      if Strip(parts[0]) == "" {
        assert [] + NonBlank(parts[1..]) == NonBlank(parts[1..]);
      } else {
        assert NonBlank(parts)[0] == Strip(parts[0]);
        assert Strip(parts[0])[0] == Join(separator, NonBlank(parts))[0];
      }
    }
  }

  // The words of a string, as in Python's str.split without arguments.
  function Words(s: string): seq<string> {
    WordsFrom(s, "")
  }

  function WordsFrom(s: string, current: string): seq<string>
    decreases |s|
  {
    if s == "" then (if current == "" then [] else [current])
    else if IsSpace(s[0]) then (if current == "" then [] else [current]) + WordsFrom(s[1..], "")
    else WordsFrom(s[1..], current + [s[0]])
  }

  // " ".join(s.split()): runs of whitespace collapse to one blank.
  function Collapse(s: string): string {
    Join(" ", Words(s))
  }

  /** Words end at whitespace and nowhere else. */
  lemma {:induction false} WordsMean(a: string, space: char, b: string, word: string)
    requires IsSpace(space) && word != "" && NoSpace(word)
    ensures Words(a + [space] + b) == Words(a) + Words(b)
    ensures Words("") == [] && Words(word) == [word]
  {
    WordsEndAt(a, space, b, "");
    OneWord(word, "");
    assert "" + word == word;
  }

  ghost predicate NoSpace(s: string) {
    forall k | 0 <= k < |s| :: !IsSpace(s[k])
  }

  lemma {:induction false} WordsEndAt(a: string, space: char, b: string, current: string)
    requires IsSpace(space)
    ensures WordsFrom(a + [space] + b, current) == WordsFrom(a, current) + WordsFrom(b, "")
    decreases |a|
  {
    if a == "" {
      assert (a + [space] + b)[1..] == b;
    } else {
      assert (a + [space] + b)[1..] == a[1..] + [space] + b;
      WordsEndAt(a[1..], space, b, if IsSpace(a[0]) then "" else current + [a[0]]);
    }
  }

  lemma {:induction false} OneWord(word: string, current: string)
    requires NoSpace(word) && current + word != ""
    ensures WordsFrom(word, current) == [current + word]
    decreases |word|
  {
    if word == "" {
      assert current + word == current;
    } else {
      assert current + [word[0]] + word[1..] == current + word;
      OneWord(word[1..], current + [word[0]]);
    }
  }

  ghost predicate IsWord(word: string) {
    word != "" && NoSpace(word)
  }

  lemma {:induction false} WordsAreWords(s: string, current: string)
    requires NoSpace(current)
    ensures forall w | w in WordsFrom(s, current) :: IsWord(w)
    ensures WordsFrom(s, current) == [] <==> current == "" && AllSpace(s)
    decreases |s|
  {
    if s != "" {
      var rest := s[1..];
      assert forall k | 0 <= k < |rest| :: rest[k] == s[k + 1];
      WordsAreWords(rest, if IsSpace(s[0]) then "" else current + [s[0]]);
      assert AllSpace(s) <==> IsSpace(s[0]) && AllSpace(rest);
    }
  }

  lemma {:induction false} WordsOfJoined(words: seq<string>)
    requires forall w | w in words :: IsWord(w)
    ensures Words(Join(" ", words)) == words && Stripped(Join(" ", words))
  {
    if |words| == 1 {
      assert IsWord(words[0]);
      WordsMean("", ' ', "", words[0]);
    } else if words != [] {
      var rest := Join(" ", words[1..]);
      assert IsWord(words[0]) && IsWord(words[1]);
      WordsOfJoined(words[1..]);
      WordsMean(words[0], ' ', rest, words[0]);
      assert rest[0] == words[1][0];
      JoinedEnd(words[0], rest);
    }
  }

  lemma JoinedEnd(word: string, rest: string)
    requires IsWord(word) && rest != "" && Stripped(rest)
    ensures Stripped(word + " " + rest)
  {
    var all := word + " " + rest;
    assert all[0] == word[0] && all[|all| - 1] == rest[|rest| - 1];
  }

  /** Collapsing keeps the words and leaves no whitespace but single blanks between them, so texts
      collapse alike exactly when they have the same words. */
  lemma {:induction false} CollapseMeans(s: string, t: string)
    ensures Words(Collapse(s)) == Words(s) && Stripped(Collapse(s))
    ensures Collapse(s) == Collapse(t) <==> Words(s) == Words(t)
    ensures Collapse(s) == "" <==> AllSpace(s)
  {
    WordsAreWords(s, "");
    WordsAreWords(t, "");
    WordsOfJoined(Words(s));
    WordsOfJoined(Words(t));
    WordsAreWords("", "");
    if Collapse(s) == "" { assert Words(s) == Words(""); }
  }

  // Python's str.splitlines; a final line break does not open another line.
  function SplitLines(s: string): seq<string> {
    LinesFrom(s, "")
  }

  function LinesFrom(s: string, current: string): seq<string>
    decreases |s|
  {
    if s == "" then (if current == "" then [] else [current])
    else if |s| >= 2 && s[0] == '\r' && s[1] == '\n' then [current] + LinesFrom(s[2..], "")
    else if IsLineBreak(s[0]) then [current] + LinesFrom(s[1..], "")
    else LinesFrom(s[1..], current + [s[0]])
  }

  /** A line ends at a line break, a carriage return and a line feed being one, and nowhere else. */
  lemma {:induction false} LinesMean(line: string, breaks: string, rest: string)
    requires SingleLine(line)
    requires breaks == "\r\n" || (|breaks| == 1 && IsLineBreak(breaks[0]) && !(breaks == "\r" && rest != "" && rest[0] == '\n'))
    ensures SplitLines(line + breaks + rest) == [line] + SplitLines(rest)
    ensures SplitLines(line) == if line == "" then [] else [line]
  {
    LineEndsAt(line, breaks, rest, "");
    LastLine(line, "");
    assert "" + line == line;
  }

  lemma {:induction false} LineEndsAt(line: string, breaks: string, rest: string, current: string)
    requires SingleLine(line)
    requires breaks == "\r\n" || (|breaks| == 1 && IsLineBreak(breaks[0]) && !(breaks == "\r" && rest != "" && rest[0] == '\n'))
    ensures LinesFrom(line + breaks + rest, current) == [current + line] + LinesFrom(rest, "")
    decreases |line|
  {
    var s := line + breaks + rest;
    if line == "" {
      assert s == breaks + rest && current + line == current;
      assert s[|breaks|..] == rest;
    } else {
      assert s[0] == line[0] && s[1..] == line[1..] + breaks + rest;
      assert forall k | 0 <= k < |line[1..]| :: line[1..][k] == line[k + 1];
      LineEndsAt(line[1..], breaks, rest, current + [line[0]]);
      assert current + [line[0]] + line[1..] == current + line;
    }
  }

  lemma {:induction false} LastLine(line: string, current: string)
    requires SingleLine(line)
    ensures LinesFrom(line, current) == if current + line == "" then [] else [current + line]
    decreases |line|
  {
    if line == "" {
      assert current + line == current;
    } else {
      assert forall k | 0 <= k < |line[1..]| :: line[1..][k] == line[k + 1];
      LastLine(line[1..], current + [line[0]]);
      assert current + [line[0]] + line[1..] == current + line;
    }
  }

  predicate SingleLine(s: string) {
    forall k | 0 <= k < |s| :: !IsLineBreak(s[k])
  }

  // A number in decimal.
  function Digits(n: nat): (s: string)
    ensures s != ""
  {
    var digit := [('0' as int + n % 10) as char];
    if n < 10 then digit else Digits(n / 10) + digit
  }

  // Decimal digits determine the number, so ids generated from numbers are pairwise distinct.
  lemma {:induction false} DigitsInjective(m: nat, n: nat)
    ensures Digits(m) == Digits(n) ==> m == n
    decreases m
  {
    if Digits(m) == Digits(n) {
      assert Digits(m)[|Digits(m)| - 1] == ('0' as int + m % 10) as char;
      assert Digits(n)[|Digits(n)| - 1] == ('0' as int + n % 10) as char;
      assert m % 10 == n % 10;
      if m >= 10 && n >= 10 {
        DigitsPrefix(m);
        DigitsPrefix(n);
        DigitsInjective(m / 10, n / 10);
      } else if m >= 10 {
        DigitsPrefix(m);
      } else if n >= 10 {
        DigitsPrefix(n);
      }
    }
  }

  lemma DigitsPrefix(n: nat)
    requires n >= 10
    ensures |Digits(n)| >= 2 && Digits(n)[..|Digits(n)| - 1] == Digits(n / 10)
  {
  }
}
