/** The string operations the parsers of this project use, as Go's strings package defines them. */
module Text {
  import opened Wrappers
  import opened Decimal

  predicate HasPrefix(s: string, prefix: string) {
    |prefix| <= |s| && s[..|prefix|] == prefix
  }

  predicate HasSuffix(s: string, suffix: string) {
    |suffix| <= |s| && s[|s| - |suffix|..] == suffix
  }

  function CutPrefix(s: string, prefix: string): Option<string> {
    if HasPrefix(s, prefix) then Some(s[|prefix|..]) else None
  }

  predicate IsSpace(c: char) {
    || c in {' ', '\t', '\n', '\r', '\U{000B}', '\U{000C}', '\U{0085}', '\U{00A0}', '\U{1680}'}
    || '\U{2000}' <= c <= '\U{200A}'
    || c in {'\U{2028}', '\U{2029}', '\U{202F}', '\U{205F}', '\U{3000}'}
  }

  function TrimLeft(s: string, cut: char -> bool): string {
    if s != "" && cut(s[0]) then TrimLeft(s[1..], cut) else s
  }

  function TrimRight(s: string, cut: char -> bool): string {
    if s != "" && cut(s[|s| - 1]) then TrimRight(s[..|s| - 1], cut) else s
  }

  function Trim(s: string, cut: char -> bool): string {
    TrimRight(TrimLeft(s, cut), cut)
  }

  function TrimSpace(s: string): string { Trim(s, IsSpace) }

  /** strings.Split(s, "\n"): never empty, and the pieces hold no newline. */
  function Lines(s: string): (lines: seq<string>)
    ensures lines != []
    decreases |s|
  {
    if s == "" then [""]
    else if s[0] == '\n' then [""] + Lines(s[1..])
    else
      var rest := Lines(s[1..]);
      [[s[0]] + rest[0]] + rest[1..]
  }

  /** Trimming every digit leaves nothing exactly when there is nothing but digits. */
  lemma {:induction false} TrimDigitsEmpty(s: string)
    ensures Trim(s, IsDigit) == "" <==> AllDigits(s)
  {
    TrimLeftDigits(s);
    var t := TrimLeft(s, IsDigit);
    if t != "" {
      TrimRightKeepsHead(t);
    }
  }

  lemma {:induction false} TrimLeftDigits(s: string)
    ensures TrimLeft(s, IsDigit) == "" <==> AllDigits(s)
    ensures TrimLeft(s, IsDigit) != "" ==> !IsDigit(TrimLeft(s, IsDigit)[0])
  {
    if s != "" && IsDigit(s[0]) {
      TrimLeftDigits(s[1..]);
      assert s == [s[0]] + s[1..];
    }
  }

  lemma {:induction false} TrimRightKeepsHead(s: string)
    requires s != "" && !IsDigit(s[0])
    ensures TrimRight(s, IsDigit) != ""
  {
    if IsDigit(s[|s| - 1]) {
      TrimRightKeepsHead(s[..|s| - 1]);
    }
  }

  lemma {:induction false} OneLine(s: string)
    requires '\n' !in s
    ensures Lines(s) == [s]
  {
    if s != "" {
      OneLine(s[1..]);
      assert s == [s[0]] + s[1..];
    }
  }

  predicate All(s: string, p: char -> bool) {
    forall i :: 0 <= i < |s| ==> p(s[i])
  }

  /** Trimming takes away a run of such characters at each end, and all of it. */
  lemma TrimExact(s: string, cut: char -> bool) returns (a: string, b: string)
    ensures s == a + Trim(s, cut) + b && All(a, cut) && All(b, cut)
    ensures var t := Trim(s, cut); t != "" ==> !cut(t[0]) && !cut(t[|t| - 1])
  {
    a := TrimLeftExact(s, cut);
    b := TrimRightExact(TrimLeft(s, cut), cut);
    var left, t := TrimLeft(s, cut), Trim(s, cut);
    assert t != "" ==> t[0] == left[0];
    assert s == a + (t + b);
  }

  lemma {:induction false} TrimLeftExact(s: string, cut: char -> bool) returns (a: string)
    ensures s == a + TrimLeft(s, cut) && All(a, cut)
    ensures var t := TrimLeft(s, cut); t != "" ==> !cut(t[0])
  {
    a := "";
    if s != "" && cut(s[0]) {
      a := TrimLeftExact(s[1..], cut);
      a := [s[0]] + a;
    }
  }

  lemma {:induction false} TrimRightExact(s: string, cut: char -> bool) returns (b: string)
    ensures s == TrimRight(s, cut) + b && All(b, cut)
    ensures var t := TrimRight(s, cut); t != "" ==> !cut(t[|t| - 1])
  {
    b := "";
    if s != "" && cut(s[|s| - 1]) {
      b := TrimRightExact(s[..|s| - 1], cut);
      b := b + [s[|s| - 1]];
      assert s == s[..|s| - 1] + [s[|s| - 1]];
    }
  }

  function JoinLines(lines: seq<string>): string
    requires lines != []
  {
    if |lines| == 1 then lines[0] else lines[0] + "\n" + JoinLines(lines[1..])
  }

  ghost predicate NoNewlines(lines: seq<string>) {
    forall i :: 0 <= i < |lines| ==> '\n' !in lines[i]
  }

  /** Splitting and joining are inverse: the lines of a text are its pieces between newlines. */
  lemma {:induction false} LinesJoin(s: string)
    ensures NoNewlines(Lines(s)) && JoinLines(Lines(s)) == s
  {
    if s != "" {
      LinesJoin(s[1..]);
      var rest := Lines(s[1..]);
      if s[0] == '\n' {
        assert Lines(s)[1..] == rest;
        assert s == "" + "\n" + s[1..];
      } else {
        assert Lines(s)[1..] == rest[1..];
        assert s == [s[0]] + s[1..];
        if |rest| > 1 {
          var tail := JoinLines(rest[1..]);
          assert [s[0]] + (rest[0] + "\n" + tail) == [s[0]] + rest[0] + "\n" + tail;
        }
      }
    }
  }

  lemma {:induction false} JoinedLines(lines: seq<string>)
    requires lines != [] && NoNewlines(lines)
    ensures Lines(JoinLines(lines)) == lines
  {
    if |lines| == 1 {
      OneLine(lines[0]);
    } else {
      JoinedLines(lines[1..]);
      FirstLine(lines[0], JoinLines(lines[1..]));
      assert lines == [lines[0]] + lines[1..];
    }
  }

  lemma {:induction false} FirstLine(line: string, rest: string)
    requires '\n' !in line
    ensures Lines(line + "\n" + rest) == [line] + Lines(rest)
  {
    var s := line + "\n" + rest;
    if line == "" {
      assert s[1..] == rest;
    } else {
      FirstLine(line[1..], rest);
      assert s[1..] == line[1..] + "\n" + rest;
      assert line == [line[0]] + line[1..];
    }
  }
}
