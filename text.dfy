/**
 * The Ruby string operations the dstat translator relies on, restricted to the
 * inputs it gives them: `String#delete!`, `String#gsub(/\s/, '_')`,
 * `String#split(",")` and `CSV.parse_line` on a line from which every
 * double quote has already been removed.
 */
module Text {
  import opened Wrappers

  /** Ruby's `\s` class: space, tab, line feed, vertical tab, form feed, carriage return. */
  predicate IsWhitespace(c: char) {
    c == ' ' || c == '\t' || c == '\n' || c == '\U{0B}' || c == '\U{0C}' || c == '\r'
  }

  /** `line.delete!("\"")`: the line with its double quotes taken out. */
  function DeleteQuotes(s: string): (r: string)
    ensures |r| <= |s|
  {
    if s == [] then []
    else if s[0] == '"' then DeleteQuotes(s[1..])
    else [s[0]] + DeleteQuotes(s[1..])
  }

  /** Only double quotes go: none is left, every other character keeps its count, and a quote-free line is unchanged. */
  lemma {:induction false} DeleteQuotesRemovesOnlyQuotes(s: string)
    ensures '"' !in DeleteQuotes(s)
    ensures forall c :: c != '"' ==> multiset(DeleteQuotes(s))[c] == multiset(s)[c]
    ensures '"' !in s ==> DeleteQuotes(s) == s
  {
    if s != [] {
      DeleteQuotesRemovesOnlyQuotes(s[1..]);
      assert s == [s[0]] + s[1..];
    }
  }

  /** Deleting quotes works piecewise, so the surviving characters keep their order. */
  lemma {:induction false} DeleteQuotesAppend(a: string, b: string)
    ensures DeleteQuotes(a + b) == DeleteQuotes(a) + DeleteQuotes(b)
  {
    if a == [] {
      assert a + b == b;
    } else {
      assert (a + b)[0] == a[0] && (a + b)[1..] == a[1..] + b;
      DeleteQuotesAppend(a[1..], b);
    }
  }

  /** `s.gsub(/\s/, '_')`: each whitespace character becomes exactly one underscore. */
  function ReplaceWhitespace(s: string): (r: string)
    ensures |r| == |s|
    ensures forall i :: 0 <= i < |r| ==> !IsWhitespace(r[i])
    ensures forall i :: 0 <= i < |s| && !IsWhitespace(s[i]) ==> r[i] == s[i]
    ensures forall i :: 0 <= i < |s| && IsWhitespace(s[i]) ==> r[i] == '_'
  {
    if s == [] then [] else [if IsWhitespace(s[0]) then '_' else s[0]] + ReplaceWhitespace(s[1..])
  }

  /** Whitespace replacement works piecewise. */
  lemma ReplaceWhitespaceAppend(a: string, b: string)
    ensures ReplaceWhitespace(a + b) == ReplaceWhitespace(a) + ReplaceWhitespace(b)
  {
    var r := ReplaceWhitespace(a + b);
    assert forall i :: 0 <= i < |a| ==> (a + b)[i] == a[i];
    assert forall i :: |a| <= i < |a| + |b| ==> (a + b)[i] == b[i - |a|];
  }

  /** The fields between the occurrences of `sep`: k separators give k + 1 fields. */
  function Split(s: string, sep: char): (r: seq<string>)
    ensures |r| >= 1
  {
    if s == [] then [""]
    else
      var rest := Split(s[1..], sep);
      if s[0] == sep then [""] + rest else [[s[0]] + rest[0]] + rest[1..]
  }

  /** No field contains the separator. */
  lemma {:induction false} SplitFieldsExcludeSeparator(s: string, sep: char)
    ensures forall i :: 0 <= i < |Split(s, sep)| ==> sep !in Split(s, sep)[i]
  {
    if s != [] {
      SplitFieldsExcludeSeparator(s[1..], sep);
    }
  }

  /** The fields put back together with `sep` between neighbours. */
  function Join(fields: seq<string>, sep: char): string
  {
    if |fields| == 0 then ""
    else if |fields| == 1 then fields[0]
    else fields[0] + [sep] + Join(fields[1..], sep)
  }

  /** Splitting loses nothing: the fields rejoin to the original text. */
  lemma {:induction false} JoinSplit(s: string, sep: char)
    ensures Join(Split(s, sep), sep) == s
  {
    if s != [] {
      var rest := Split(s[1..], sep);
      JoinSplit(s[1..], sep);
      if s[0] == sep {
        assert ([""] + rest)[1..] == rest;
      } else {
        assert ([[s[0]] + rest[0]] + rest[1..])[1..] == rest[1..];
        if |rest| > 1 {
          assert Join(rest, sep) == rest[0] + [sep] + Join(rest[1..], sep);
        }
      }
    }
  }

  /** A separator-free prefix is glued onto the first field of what follows it. */
  lemma {:induction false} SplitSeparatorFree(a: string, b: string, sep: char)
    requires sep !in a
    ensures Split(a + b, sep) == [a + Split(b, sep)[0]] + Split(b, sep)[1..]
  {
    if a == [] {
      var r := Split(b, sep);
      assert a + b == b && a + r[0] == r[0] && r == [r[0]] + r[1..];
    } else {
      assert (a + b)[0] == a[0] && (a + b)[1..] == a[1..] + b;
      SplitSeparatorFree(a[1..], b, sep);
      assert [a[0]] + (a[1..] + Split(b, sep)[0]) == a + Split(b, sep)[0];
    }
  }

  /** Fields free of the separator are recovered exactly from their join. */
  lemma {:induction false} SplitJoin(fields: seq<string>, sep: char)
    requires |fields| >= 1
    requires forall i :: 0 <= i < |fields| ==> sep !in fields[i]
    ensures Split(Join(fields, sep), sep) == fields
  {
    if |fields| == 1 {
      SplitSeparatorFree(fields[0], "", sep);
      assert fields[0] + "" == fields[0];
      assert fields == [fields[0]];
    } else {
      SplitJoin(fields[1..], sep);
      var tail := Join(fields[1..], sep);
      assert Join(fields, sep) == fields[0] + ([sep] + tail);
      SplitSeparatorFree(fields[0], [sep] + tail, sep);
      assert ([sep] + tail)[0] == sep && ([sep] + tail)[1..] == tail;
      assert Split([sep] + tail, sep) == [""] + fields[1..];
      assert fields[0] + "" == fields[0];
      assert fields == [fields[0]] + fields[1..];
    }
  }

  /** A character that is not the separator and is in no field is not in the joined text. */
  lemma {:induction false} JoinExcludes(fields: seq<string>, sep: char, c: char)
    requires c != sep
    requires forall i :: 0 <= i < |fields| ==> c !in fields[i]
    ensures c !in Join(fields, sep)
  {
    if |fields| > 1 {
      JoinExcludes(fields[1..], sep, c);
    }
  }

  /** `CSV.parse_line` on a quote-free line: comma-separated cells, an empty cell read as nil. */
  function ParseCsvLine(s: string): (r: seq<Option<string>>)
    ensures |r| == |Split(s, ',')| >= 1
    ensures forall i :: 0 <= i < |r| ==> r[i] != Some("")
  {
    var fields := Split(s, ',');
    seq(|fields|, i requires 0 <= i < |fields| => if fields[i] == "" then None else Some(fields[i]))
  }

  /** The text of each cell, with nil read back as the empty string. */
  function CellTexts(cells: seq<Option<string>>): (r: seq<string>)
    ensures |r| == |cells|
  {
    seq(|cells|, i requires 0 <= i < |cells| => if cells[i].Some? then cells[i].value else "")
  }

  /** The cells `CSV.parse_line` reads, put back with commas, give the line again. */
  lemma CsvCellsRejoin(s: string)
    ensures Join(CellTexts(ParseCsvLine(s)), ',') == s
  {
    assert CellTexts(ParseCsvLine(s)) == Split(s, ',');
    JoinSplit(s, ',');
  }

  /** Comma-free cells joined with commas are read back by `CSV.parse_line`, an empty cell as nil. */
  lemma CsvParseJoin(fields: seq<string>)
    requires |fields| >= 1
    requires forall i :: 0 <= i < |fields| ==> ',' !in fields[i]
    ensures |ParseCsvLine(Join(fields, ','))| == |fields|
    ensures forall i :: 0 <= i < |fields| ==>
      ParseCsvLine(Join(fields, ','))[i] == (if fields[i] == "" then None else Some(fields[i]))
  {
    SplitJoin(fields, ',');
  }

  /** The trailing empty fields removed; everything before the last non-empty field kept. */
  function DropTrailingEmpty(fields: seq<string>): (r: seq<string>)
    ensures |r| <= |fields| && r == fields[..|r|]
    ensures |r| > 0 ==> r[|r| - 1] != ""
    ensures forall i :: |r| <= i < |fields| ==> fields[i] == ""
  {
    if |fields| == 0 then []
    else if fields[|fields| - 1] == "" then DropTrailingEmpty(fields[..|fields| - 1])
    else fields
  }

  /** `String#split(",")`: empty interior fields are kept as "", trailing ones are dropped. */
  function SplitDroppingTrailing(s: string, sep: char): (r: seq<string>)
    ensures |r| <= |Split(s, sep)| && r == Split(s, sep)[..|r|]
    ensures |r| > 0 ==> r[|r| - 1] != ""
    ensures forall i :: 0 <= i < |r| ==> sep !in r[i]
  {
    SplitFieldsExcludeSeparator(s, sep);
    DropTrailingEmpty(Split(s, sep))
  }

  /** Separator-free fields whose last one is non-empty are read back by `String#split`. */
  lemma SplitDroppingTrailingJoin(fields: seq<string>, sep: char)
    requires |fields| >= 1 && fields[|fields| - 1] != ""
    requires forall i :: 0 <= i < |fields| ==> sep !in fields[i]
    ensures SplitDroppingTrailing(Join(fields, sep), sep) == fields
  {
    SplitJoin(fields, sep);
  }
}
