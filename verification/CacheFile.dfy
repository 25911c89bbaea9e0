/** The cache file: how the encoded estimates are laid out in it and how they are read back. */
module CacheFile {

  const DATA_WINDOW_SIZE: nat := 100
  const OPEN_BRACKET := "[\n"
  const CLOSE_BRACKET := "\n]"
  const COMMA_SEPARATOR := "\n,\n"

  function Join(parts: seq<string>): string {
    if parts == [] then ""
    else if |parts| == 1 then parts[0]
    else parts[0] + COMMA_SEPARATOR + Join(parts[1..])
  }

  function Layout(entries: seq<string>): string {
    OPEN_BRACKET + Join(entries) + CLOSE_BRACKET
  }

  lemma {:induction false} JoinAppend(a: seq<string>, b: seq<string>)
    requires a != [] && b != []
    ensures Join(a + b) == Join(a) + COMMA_SEPARATOR + Join(b)
  {
    assert (a + b)[0] == a[0];
    if |a| == 1 {
      assert (a + b)[1..] == b;
    } else {
      assert (a + b)[1..] == a[1..] + b;
      JoinAppend(a[1..], b);
    }
  }

  /** The text of the file: brackets on lines of their own, a line for each entry, and a line with a comma
      between two of them. */
  lemma LayoutInText(entry: string, more: seq<string>)
    ensures Layout([]) == "[\n" + "" + "\n]"
    ensures Layout([entry]) == "[\n" + entry + "\n]"
    ensures more != [] ==> Layout([entry] + more) == "[\n" + entry + "\n,\n" + Layout(more)[2..]
  {
    assert ([entry] + more)[1..] == more;
  }

  /** Writes the entries window by window; the file does not depend on the size of the window. */
  method WriteToFile(entries: seq<string>, window: nat := DATA_WINDOW_SIZE) returns (file: string)
    requires window >= 1
    ensures file == Layout(entries)
  {
    file := OPEN_BRACKET;
    var i := 0;
    while i < |entries|
      invariant i <= |entries| || i - window < |entries|
      invariant i == 0 ==> file == OPEN_BRACKET
      invariant 0 < i < |entries| ==> file == OPEN_BRACKET + Join(entries[..i]) + COMMA_SEPARATOR
      invariant i > 0 && i >= |entries| ==> file == OPEN_BRACKET + Join(entries)
    {
      var end := if i + window < |entries| then i + window else |entries|;
      ghost var before := file;
      file := file + Join(entries[i..end]);
      assert entries[..end] == entries[..i] + entries[i..end];
      if i > 0 {
        JoinAppend(entries[..i], entries[i..end]);
      }
      assert file == OPEN_BRACKET + Join(entries[..end]);
      if i + window < |entries| {
        file := file + COMMA_SEPARATOR;
      } else {
        assert entries[..end] == entries;
      }
      i := i + window;
    }
    file := file + CLOSE_BRACKET;
  }

  // ----- Reading -----

  /** The pieces of a text between its newlines. */
  function Lines(text: string): (lines: seq<string>)
    ensures lines != []
  {
    if text == "" then [""]
    else
      var rest := Lines(text[1..]);
      if text[0] == '\n' then [""] + rest else [[text[0]] + rest[0]] + rest[1..]
  }

  predicate IsNotADataDelimiter(line: string) {
    line !in {"[", "]", ",", "\n"}
  }

  /** The lines that the reader decodes.  It is up to the stream library whether the reader ever sees the
      empty line between two newlines. */
  function DataLines(lines: seq<string>, seesEmpty: bool): seq<string> {
    if lines == [] then []
    else if IsNotADataDelimiter(lines[0]) && (lines[0] != "" || seesEmpty) then
      [lines[0]] + DataLines(lines[1..], seesEmpty)
    else
      DataLines(lines[1..], seesEmpty)
  }

  function GetCachedData(file: string, seesEmpty: bool): seq<string> {
    DataLines(Lines(file), seesEmpty)
  }

  lemma {:induction false} LinesSplit(line: string, text: string)
    requires '\n' !in line
    ensures Lines(line + "\n" + text) == [line] + Lines(text)
  {
    var whole := line + "\n" + text;
    if line == "" {
      assert whole[1..] == text;
    } else {
      LinesSplit(line[1..], text);
      assert whole[1..] == line[1..] + "\n" + text;
      assert line == [line[0]] + line[1..];
    }
  }

  lemma {:induction false} LinesOfOne(line: string)
    requires '\n' !in line
    ensures Lines(line) == [line]
  {
    if line == "" {
    } else {
      LinesOfOne(line[1..]);
      assert line == [line[0]] + line[1..];
    }
  }

  predicate IsDataLine(line: string, seesEmpty: bool) {
    '\n' !in line && IsNotADataDelimiter(line) && (line != "" || seesEmpty)
  }

  lemma {:induction false} EntriesAreRead(entries: seq<string>, seesEmpty: bool)
    requires entries != [] && forall e :: e in entries ==> IsDataLine(e, seesEmpty)
    ensures DataLines(Lines(Join(entries) + CLOSE_BRACKET), seesEmpty) == entries
  {
    var e := entries[0];
    assert e in entries && IsDataLine(e, seesEmpty);
    if |entries| == 1 {
      assert Join(entries) + CLOSE_BRACKET == e + "\n" + "]";
      LinesSplit(e, "]");
      LinesOfOne("]");
      assert DataLines(["]"], seesEmpty) == [];
      assert ([e] + ["]"])[1..] == ["]"];
      assert entries == [e];
    } else {
      var rest := Join(entries[1..]) + CLOSE_BRACKET;
      assert Join(entries) + CLOSE_BRACKET == e + "\n" + ("," + "\n" + rest);
      LinesSplit(e, "," + "\n" + rest);
      LinesSplit(",", rest);
      EntriesAreRead(entries[1..], seesEmpty);
      assert ([e] + Lines("," + "\n" + rest))[1..] == [","] + Lines(rest);
      assert ([","] + Lines(rest))[1..] == Lines(rest);
      assert entries == [e] + entries[1..];
    }
  }

  lemma {:induction false} LinesHaveNoNewline(text: string)
    ensures forall line :: line in Lines(text) ==> '\n' !in line
  {
    if text == "" {
    } else {
      LinesHaveNoNewline(text[1..]);
    }
  }

  lemma {:induction false} DataLinesAreData(lines: seq<string>, seesEmpty: bool)
    ensures forall line :: line in DataLines(lines, seesEmpty) ==>
              line in lines && IsNotADataDelimiter(line) && (line != "" || seesEmpty)
  {
    if lines == [] {
    } else {
      DataLinesAreData(lines[1..], seesEmpty);
    }
  }

  /** The file of no entries has an empty line between its brackets. */
  lemma EmptyFile(seesEmpty: bool)
    ensures GetCachedData(Layout([]), seesEmpty) == if seesEmpty then [""] else []
  {
    assert Layout([]) == "[" + "\n" + ("" + "\n" + "]");
    LinesSplit("[", "" + "\n" + "]");
    LinesSplit("", "]");
    LinesOfOne("]");
    assert Lines(Layout([])) == ["["] + (["" ] + ["]"]);
    DataLinesAppend(["["], [""] + ["]"], seesEmpty);
    DataLinesAppend([""], ["]"], seesEmpty);
    assert DataLines(["["], seesEmpty) == [] && DataLines(["]"], seesEmpty) == [];
    assert [""][1..] == [];
    assert DataLines([""], seesEmpty) == if seesEmpty then [""] else [];
  }

  lemma {:induction false} DataLinesAppend(a: seq<string>, b: seq<string>, seesEmpty: bool)
    ensures DataLines(a + b, seesEmpty) == DataLines(a, seesEmpty) + DataLines(b, seesEmpty)
  {
    if a == [] {
      assert a + b == b;
    } else {
      assert (a + b)[1..] == a[1..] + b;
      DataLinesAppend(a[1..], b, seesEmpty);
    }
  }

  lemma EntriesOfLayout(entries: seq<string>, seesEmpty: bool)
    requires entries != [] && forall e :: e in entries ==> IsDataLine(e, seesEmpty)
    ensures GetCachedData(Layout(entries), seesEmpty) == entries
  {
    var rest := Join(entries) + CLOSE_BRACKET;
    assert Layout(entries) == "[" + "\n" + rest;
    LinesSplit("[", rest);
    DataLinesAppend(["["], Lines(rest), seesEmpty);
    assert ["["][1..] == [];
    assert DataLines(["["], seesEmpty) == [];
    EntriesAreRead(entries, seesEmpty);
  }

  /** Reading back what was written gives the entries exactly when every entry is a line of its own that
      is not mistaken for a bracket or a comma, and, if there are none, when empty lines are not seen:
      an empty line is no delimiter to the reader, but an entry, which it cannot decode. */
  lemma RoundTrip(entries: seq<string>, seesEmpty: bool)
    ensures GetCachedData(Layout(entries), seesEmpty) == entries <==>
            if entries == [] then !seesEmpty else forall e :: e in entries ==> IsDataLine(e, seesEmpty)
  {
    if entries == [] {
      EmptyFile(seesEmpty);
    } else if forall e :: e in entries ==> IsDataLine(e, seesEmpty) {
      EntriesOfLayout(entries, seesEmpty);
    } else {
      LinesHaveNoNewline(Layout(entries));
      DataLinesAreData(Lines(Layout(entries)), seesEmpty);
    }
  }
}
