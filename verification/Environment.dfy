/** The environment file of a configuration revision: one KEY='value' line per entry,
    with backslashes and quotes escaped. */
module Environment {
  import opened Artifacts

  datatype Entry = Entry(key: string, value: string)

  // ---------- Library functions on strings ----------

  /** str::replace of one character. */
  function Replace(s: string, c: char, text: string): string {
    if s == "" then "" else (if s[0] == c then text else [s[0]]) + Replace(s[1..], c, text)
  }

  /** The first position of `c`, or the length. */
  function IndexOf(s: string, c: char): (i: nat)
    ensures i <= |s| && c !in s[..i] && (i < |s| ==> s[i] == c)
  {
    if s == "" || s[0] == c then 0
    else
      var i := IndexOf(s[1..], c);
      assert s[..i + 1] == [s[0]] + s[1..][..i];
      i + 1
  }

  function StripReturn(s: string): string {
    if s != "" && s[|s| - 1] == '\r' then s[..|s| - 1] else s
  }

  /** str::lines: a carriage return counts as part of the line end only before a newline. */
  function Lines(s: string): seq<string>
    decreases |s|
  {
    var i := IndexOf(s, '\n');
    if s == "" then []
    else if i == |s| then [s]
    else [StripReturn(s[..i])] + Lines(s[i + 1..])
  }

  // ---------- Printing ----------

  /** What the printer does to a value: two replacements in sequence. */
  function Escape(value: string): string {
    Replace(Replace(value, '\\', "\\\\"), '\'', "\\'")
  }

  /** One character at a time. */
  function EscapeChar(c: char): string {
    if c == '\\' then "\\\\" else if c == '\'' then "\\'" else [c]
  }

  function EscapeEach(value: string): string {
    if value == "" then "" else EscapeChar(value[0]) + EscapeEach(value[1..])
  }

  function PrintLine(e: Entry): string {
    e.key + "='" + Escape(e.value) + "'"
  }

  function Print(entries: seq<Entry>): string {
    if entries == [] then "" else PrintLine(entries[0]) + "\n" + Print(entries[1..])
  }

  /** serialize_environment */
  method Serialize(entries: seq<Entry>) returns (result: string)
    ensures result == Print(entries)
  {
    result := "";
    for i := 0 to |entries|
      invariant result + Print(entries[i..]) == Print(entries)
    {
      var e := entries[i];
      assert entries[i..][1..] == entries[i + 1..];
      ghost var before := result;
      result := result + e.key;
      result := result + "='";
      result := result + Replace(Replace(e.value, '\\', "\\\\"), '\'', "\\'");
      result := result + "'\n";
      assert result == before + (PrintLine(e) + "\n");
      assert before + (PrintLine(e) + "\n" + Print(entries[i + 1..])) == result + Print(entries[i + 1..]);
    }
    assert entries[|entries|..] == [];
    assert result + "" == result;
  }

  // ---------- Parsing ----------

  /** The text that an escaped text stands for; `escaped` says that a backslash was just read. */
  function Unescape(inner: string, escaped: bool): Option<string> {
    if inner == "" then
      if escaped then None else Some("")
    else if escaped then
      if inner[0] == '\\' || inner[0] == '\'' then Prepend([inner[0]], Unescape(inner[1..], false)) else None
    else if inner[0] == '\\' then Unescape(inner[1..], true)
    else Prepend([inner[0]], Unescape(inner[1..], false))
  }

  function Prepend(s: string, rest: Option<string>): Option<string> {
    if rest.Some? then Some(s + rest.value) else None
  }

  function ParseLine(line: string): Option<Entry> {
    var i := IndexOf(line, '=');
    if i == |line| then None
    else
      var quoted := line[i + 1..];
      if |quoted| < 2 || quoted[0] != '\'' || quoted[|quoted| - 1] != '\'' then None
      else
        var value := Unescape(quoted[1..|quoted| - 1], false);
        if value.Some? then Some(Entry(line[..i], value.value)) else None
  }

  function ParseLines(lines: seq<string>): Option<seq<Entry>> {
    if lines == [] then Some([])
    else
      var entries := ParseLines(lines[..|lines| - 1]);
      var e := ParseLine(lines[|lines| - 1]);
      if entries.Some? && e.Some? then Some(entries.value + [e.value]) else None
  }

  function Parse(contents: string): Option<seq<Entry>> {
    ParseLines(Lines(contents))
  }

  function Keys(entries: seq<Entry>): seq<string> {
    seq(|entries|, i requires 0 <= i < |entries| => entries[i].key)
  }

  /** The character loop with its escape flag. */
  method ReadValue(inner: string) returns (r: Option<string>)
    ensures r == Unescape(inner, false)
  {
    var value, escaped := "", false;
    assert inner[0..] == inner;
    assert forall rest: string :: "" + rest == rest;
    for i := 0 to |inner|
      invariant Unescape(inner, false) == Prepend(value, Unescape(inner[i..], escaped))
    {
      var c := inner[i];
      ghost var rest := Unescape(inner[i + 1..], false);
      assert inner[i..][1..] == inner[i + 1..];
      if escaped {
        if c != '\\' && c != '\'' {
          return None;
        }
        assert rest.Some? ==> value + ([c] + rest.value) == (value + [c]) + rest.value;
        value := value + [c];
        escaped := false;
      } else if c == '\\' {
        escaped := true;
      } else {
        assert rest.Some? ==> value + ([c] + rest.value) == (value + [c]) + rest.value;
        value := value + [c];
      }
    }
    assert inner[|inner|..] == "";
    r := if escaped then None else Some(value);
    assert value + "" == value;
  }

  method ReadLine(line: string) returns (r: Option<Entry>)
    ensures r == ParseLine(line)
  {
    r := None;
    var i := IndexOf(line, '=');
    if i < |line| {
      var quoted := line[i + 1..];
      if |quoted| >= 2 && quoted[0] == '\'' && quoted[|quoted| - 1] == '\'' {
        var value := ReadValue(quoted[1..|quoted| - 1]);
        if value.Some? {
          r := Some(Entry(line[..i], value.value));
        }
      }
    }
  }

  /** read_environment: the entries, if every line parses and the keys are the expected ones. */
  method ReadEnvironment(contents: string, expected: seq<string>) returns (r: Option<seq<Entry>>)
    ensures r.Some? <==> Parse(contents).Some? && Keys(Parse(contents).value) == expected
    ensures r.Some? ==> r == Parse(contents)
  {
    var lines, result := Lines(contents), [];
    for i := 0 to |lines|
      invariant ParseLines(lines[..i]) == Some(result)
    {
      assert lines[..i + 1][..i] == lines[..i];
      var e := ReadLine(lines[i]);
      if e.None? {
        BadLineFails(lines, i);
        return None;
      }
      result := result + [e.value];
    }
    assert lines[..|lines|] == lines;
    r := if Keys(result) == expected then Some(result) else None;
  }

  lemma {:induction false} BadLineFails(lines: seq<string>, i: nat)
    requires i < |lines| && ParseLine(lines[i]).None?
    ensures ParseLines(lines).None?
  {
    if i < |lines| - 1 {
      BadLineFails(lines[..|lines| - 1], i);
    }
  }

  // ---------- The two replacements are one escape ----------

  lemma {:induction false} ReplaceConcat(a: string, b: string, c: char, text: string)
    ensures Replace(a + b, c, text) == Replace(a, c, text) + Replace(b, c, text)
  {
    if a == "" {
      assert a + b == b;
    } else {
      assert (a + b)[1..] == a[1..] + b;
      ReplaceConcat(a[1..], b, c, text);
    }
  }

  /** Doubling backslashes and then escaping quotes treats every character on its own. */
  lemma {:induction false} EscapeIsPerCharacter(value: string)
    ensures Escape(value) == EscapeEach(value)
  {
    if value != "" {
      var first := if value[0] == '\\' then "\\\\" else [value[0]];
      EscapeIsPerCharacter(value[1..]);
      ReplaceConcat(first, Replace(value[1..], '\\', "\\\\"), '\'', "\\'");
      assert Replace(first, '\'', "\\'") == EscapeChar(value[0]) by {
        if value[0] == '\\' {
          assert first[1..] == "\\" && first[1..][1..] == "";
        } else {
          assert first[1..] == "";
        }
      }
    }
  }

  lemma {:induction false} UnescapeUndoesEscape(value: string)
    ensures Unescape(EscapeEach(value), false) == Some(value)
  {
    if value != "" {
      var rest := EscapeEach(value[1..]);
      UnescapeUndoesEscape(value[1..]);
      var text := EscapeEach(value);
      if value[0] == '\\' || value[0] == '\'' {
        assert text[0] == '\\' && text[1..][0] == value[0] && text[1..][1..] == rest;
      } else {
        assert text[0] == value[0] && text[1..] == rest;
      }
      assert [value[0]] + value[1..] == value;
    }
  }

  lemma {:induction false} EscapeAddsNoNewline(value: string)
    requires '\n' !in value
    ensures '\n' !in EscapeEach(value)
  {
    if value != "" {
      EscapeAddsNoNewline(value[1..]);
    }
  }

  // ---------- Round trips ----------

  /** What a line can carry. */
  predicate Printable(e: Entry) {
    '=' !in e.key && '\n' !in e.key && '\n' !in e.value
  }

  predicate AllPrintable(entries: seq<Entry>) {
    forall i :: 0 <= i < |entries| ==> Printable(entries[i])
  }

  lemma FirstIndex(a: string, c: char, b: string)
    requires c !in a
    ensures IndexOf(a + [c] + b, c) == |a|
  {
    var s := a + [c] + b;
    var i := IndexOf(s, c);
    assert s[|a|] == c && forall k :: 0 <= k < |a| ==> s[k] == a[k];
    assert forall k :: 0 <= k < i ==> s[k] in s[..i];
  }

  lemma LineRoundTrip(e: Entry)
    requires Printable(e)
    ensures ParseLine(PrintLine(e)) == Some(e)
  {
    EscapeIsPerCharacter(e.value);
    UnescapeUndoesEscape(e.value);
    var text, line := Escape(e.value), PrintLine(e);
    var quoted := "'" + text + "'";
    assert line == e.key + ['='] + quoted;
    FirstIndex(e.key, '=', quoted);
    assert line[|e.key| + 1..] == quoted && line[..|e.key|] == e.key;
    assert quoted[1..|quoted| - 1] == text;
  }

  /** A printed line survives as one line: it holds no newline and ends in a quote. */
  lemma LineIsWhole(e: Entry)
    requires Printable(e)
    ensures '\n' !in PrintLine(e) && StripReturn(PrintLine(e)) == PrintLine(e)
  {
    EscapeIsPerCharacter(e.value);
    EscapeAddsNoNewline(e.value);
  }

  function PrintedLines(entries: seq<Entry>): seq<string> {
    seq(|entries|, i requires 0 <= i < |entries| => PrintLine(entries[i]))
  }

  lemma LinesStep(line: string, rest: string)
    requires '\n' !in line
    ensures Lines(line + "\n" + rest) == [StripReturn(line)] + Lines(rest)
  {
    var all := line + ['\n'] + rest;
    assert all == line + "\n" + rest;
    FirstIndex(line, '\n', rest);
    assert all[..|line|] == line && all[|line| + 1..] == rest;
  }

  /** A line ends at a newline, without the carriage return before it. */
  lemma LineEnds(line: string, rest: string)
    requires '\n' !in line
    ensures Lines(line + "\r" + "\n" + rest) == [line] + Lines(rest)
  {
    LinesStep(line + "\r", rest);
    assert (line + "\r")[..|line|] == line;
  }

  /** Nothing else is taken from a line, and a last line without a newline is whole. */
  lemma LinesKeepTheRest(line: string, rest: string)
    requires '\n' !in line
    ensures (line == "" || line[|line| - 1] != '\r') ==> Lines(line + "\n" + rest) == [line] + Lines(rest)
    ensures line != "" ==> Lines(line) == [line]
  {
    LinesStep(line, rest);
    assert forall k :: 0 <= k < |line| ==> line[k] in line;
  }

  lemma {:induction false} LinesOfPrint(entries: seq<Entry>)
    requires AllPrintable(entries)
    ensures Lines(Print(entries)) == PrintedLines(entries)
  {
    if entries != [] {
      LineIsWhole(entries[0]);
      LinesStep(PrintLine(entries[0]), Print(entries[1..]));
      LinesOfPrint(entries[1..]);
    }
  }

  lemma {:induction false} ParseEach(lines: seq<string>, entries: seq<Entry>)
    requires |lines| == |entries| && forall i :: 0 <= i < |lines| ==> ParseLine(lines[i]) == Some(entries[i])
    ensures ParseLines(lines) == Some(entries)
  {
    if lines != [] {
      var n := |lines| - 1;
      ParseEach(lines[..n], entries[..n]);
      assert entries[..n] + [entries[n]] == entries;
    }
  }

  lemma ParsePrintedLines(entries: seq<Entry>)
    requires AllPrintable(entries)
    ensures ParseLines(PrintedLines(entries)) == Some(entries)
  {
    forall i | 0 <= i < |entries|
      ensures ParseLine(PrintedLines(entries)[i]) == Some(entries[i])
    {
      LineRoundTrip(entries[i]);
    }
    ParseEach(PrintedLines(entries), entries);
  }

  lemma {:induction false} LinesHaveNoNewline(s: string)
    ensures forall i :: 0 <= i < |Lines(s)| ==> '\n' !in Lines(s)[i]
    decreases |s|
  {
    var i := IndexOf(s, '\n');
    if s != "" && i < |s| {
      LinesHaveNoNewline(s[i + 1..]);
    } else if s != "" {
      assert s[..i] == s;
    }
  }

  lemma {:induction false} UnescapeKeepsCharacters(inner: string, escaped: bool)
    requires '\n' !in inner && Unescape(inner, escaped).Some?
    ensures '\n' !in Unescape(inner, escaped).value
  {
    if inner != "" {
      UnescapeKeepsCharacters(inner[1..], !escaped && inner[0] == '\\');
    }
  }

  lemma ParsedLineIsPrintable(line: string)
    requires '\n' !in line && ParseLine(line).Some?
    ensures Printable(ParseLine(line).value)
  {
    var i := IndexOf(line, '=');
    var quoted := line[i + 1..];
    UnescapeKeepsCharacters(quoted[1..|quoted| - 1], false);
  }

  lemma {:induction false} ParsedIsPrintable(lines: seq<string>)
    requires (forall i :: 0 <= i < |lines| ==> '\n' !in lines[i]) && ParseLines(lines).Some?
    ensures AllPrintable(ParseLines(lines).value)
  {
    if lines != [] {
      ParsedIsPrintable(lines[..|lines| - 1]);
      ParsedLineIsPrintable(lines[|lines| - 1]);
    }
  }

  /** The round trip, exactly: printing and reading back returns the same entries if and
      only if no key holds an equals sign or a newline and no value holds a newline. */
  lemma PrintParseIff(entries: seq<Entry>)
    ensures Parse(Print(entries)) == Some(entries) <==> AllPrintable(entries)
  {
    if AllPrintable(entries) {
      LinesOfPrint(entries);
      ParsePrintedLines(entries);
    }
    if Parse(Print(entries)) == Some(entries) {
      LinesHaveNoNewline(Print(entries));
      ParsedIsPrintable(Lines(Print(entries)));
    }
  }

  /** Every accepted file: printing what was read and reading it again changes nothing,
      even where the file used unescaped quotes or carriage returns. */
  lemma ParsePrintParse(contents: string)
    requires Parse(contents).Some?
    ensures Parse(Print(Parse(contents).value)) == Parse(contents)
  {
    LinesHaveNoNewline(contents);
    ParsedIsPrintable(Lines(contents));
    PrintParseIff(Parse(contents).value);
  }

  /** Writing a revision and loading it with its own keys. */
  method WriteAndRead(entries: seq<Entry>) returns (r: Option<seq<Entry>>)
    requires AllPrintable(entries)
    ensures r == Some(entries)
  {
    var contents := Serialize(entries);
    PrintParseIff(entries);
    r := ReadEnvironment(contents, Keys(entries));
  }
}
