/**
 * The dstat input object: it keeps the host name and the two header rows in
 * fields, and `CreateDstatEvent` walks the sampler's output lines, deleting
 * quotes in place, storing headers from lines 5 and 6 and pairing line 7 with them.
 */
module SampleInput {
  import opened Wrappers
  import opened Text
  import opened KeyMap
  import opened Dstat

  class Sample {
    /** `@host`, looked up once when the plugin registers. */
    const host: string
    /** `@first_keys`: the forward-filled category header, nil until a line 5 is seen. */
    var firstKeys: Option<seq<string>>
    /** `@second_keys`: the sub-metric header, nil until a line 6 is seen. */
    var secondKeys: Option<seq<string>>

    constructor (host: string)
      ensures this.host == host && firstKeys == None && secondKeys == None
    {
      this.host := host;
      firstKeys := None;
      secondKeys := None;
    }

    /** The header state the object carries from one call to the next. */
    function Stored(): Headers
      reads this
    {
      Headers(firstKeys, secondKeys)
    }

    /** Line 5: parse the cells, forward-fill the blank ones and normalise whitespace in the rest. */
    method StoreCategoryHeader(line: string)
      modifies this`firstKeys
      ensures firstKeys == Some(CategoryHeader(line))
    {
      var cells := ParseCsvLine(line);
      var keys: seq<string> := [];
      var preKey := "";
      assert cells[0..] == cells;
      for index := 0 to |cells|
        invariant |keys| == index
        invariant keys + FillCategories(cells[index..], preKey) == FillCategories(cells, "")
      {
        var key := cells[index];
        var filled := if key.None? || key.value == "" then preKey else ReplaceWhitespace(key.value);
        FillSuffix(cells, index, preKey);
        assert keys + ([filled] + FillCategories(cells[index + 1..], filled)) ==
          (keys + [filled]) + FillCategories(cells[index + 1..], filled);
        keys := keys + [filled];
        preKey := filled;
      }
      assert cells[|cells|..] == [];
      assert keys + [] == keys;
      firstKeys := Some(keys);
    }

    /** Line 7: one event per cell whose column resolves, in column order. */
    method EmitEvents(line: string) returns (r: Result<seq<Event>, TranslateError>)
      ensures r == RowEvents(Stored(), line, host)
    {
      var values := ParseCsvLine(line);
      // The row has at least one cell, so the first index into a nil header raises.
      if firstKeys.None? || secondKeys.None? {
        return Failure(NilHeader);
      }
      var first, second := firstKeys.value, secondKeys.value;
      var events: seq<Event> := [];
      for index := 0 to |values|
        invariant events == PairRow(first, second, values[..index], host)
      {
        assert values[..index + 1][..index] == values[..index];
        var key := ResolveKey(KeyAt(first, index), KeyAt(second, index));
        if key.Some? {
          events := events + [Event(key.value, values[index], host)];
        }
      }
      assert values[..|values|] == values;
      return Success(events);
    }

    /** The `case line_number` dispatch for one non-empty, quote-free line. */
    method HandleLine(line: string, lineNumber: nat) returns (r: Result<seq<Event>, TranslateError>)
      modifies this`firstKeys, this`secondKeys
      ensures ProcessLine(old(Stored()), line, lineNumber, host) ==
        match r
        case Success(events) => Success((Stored(), events))
        case Failure(e) => Failure(e)
      ensures r.Failure? ==> Stored() == old(Stored())
    {
      r := Success([]);
      if line == "" {
        return;
      }
      if lineNumber == CategoryLine {
        StoreCategoryHeader(line);
      } else if lineNumber == SubMetricLine {
        secondKeys := Some(SplitDroppingTrailing(line, ','));
      } else if lineNumber == ValueLine {
        r := EmitEvents(line);
      }
    }

    /**
     * `create_dstat_event(lines)`: the events of the value row, or the error raised
     * when it meets a nil header. Every line visited loses its quotes in place;
     * after an error the lines past the value row are left as they were.
     */
    method CreateDstatEvent(lines: array<string>) returns (r: Result<seq<Event>, TranslateError>)
      modifies this`firstKeys, this`secondKeys, lines
      ensures Translation(Stored(), r) == Translate(old(Stored()), old(lines[..]), host)
      ensures forall k :: 0 <= k < lines.Length && (r.Success? || k <= ValueLine) ==>
        lines[k] == DeleteQuotes(old(lines[k]))
      ensures forall k :: r.Failure? && ValueLine < k < lines.Length ==> lines[k] == old(lines[k])
    {
      ghost var input := lines[..];
      ghost var start := Stored();
      var events: seq<Event> := [];
      var lineNumber := 0;
      while lineNumber < lines.Length
        invariant 0 <= lineNumber <= lines.Length
        invariant Fold(start, input[..lineNumber], host) == Translation(Stored(), Success(events))
        invariant lines[..] == Stripped(input, lineNumber)
      {
        ghost var before := Stored();
        lines[lineNumber] := DeleteQuotes(lines[lineNumber]);
        assert lines[..] == Stripped(input, lineNumber + 1);
        var row := HandleLine(lines[lineNumber], lineNumber);
        if row.Failure? {
          r := Failure(row.error);
          FoldNextFails(start, input, lineNumber, host, before, events);
          return;
        }
        FoldNext(start, input, lineNumber, host, before, events, Stored(), row.value);
        events := events + row.value;
        lineNumber := lineNumber + 1;
      }
      r := Success(events);
      FoldAll(start, input, host);
    }
  }

  /** The line array once its first `n` lines have lost their quotes in place; the rest are untouched. */
  ghost function Stripped(input: seq<string>, n: nat): (r: seq<string>)
    requires n <= |input|
    ensures |r| == |input|
    ensures forall k :: 0 <= k < n ==> r[k] == DeleteQuotes(input[k])
    ensures forall k :: n <= k < |input| ==> r[k] == input[k]
  {
    seq(|input|, k requires 0 <= k < |input| => if k < n then DeleteQuotes(input[k]) else input[k])
  }
}
