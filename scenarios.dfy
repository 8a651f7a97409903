/**
 * Worked inputs for the translator: a category row with gaps, a category
 * with spaces, and a full single-sample dump of the CPU columns. Each row is
 * written as its cells joined with commas.
 *
 * The example values are parameters fixed by `requires` rather than literals
 * in the statements. The solver then reaches the results through the general
 * round-trip lemmas (`CsvParseJoin`, `SplitDroppingTrailingJoin`) instead of
 * unrolling the recursive string functions character by character.
 */
module Scenarios {
  import opened Wrappers
  import opened Text
  import opened KeyMap
  import opened Dstat

  /** Spaces in a category become underscores, one for one. */
  lemma TotalCpuUsageNormalised(category: string)
    requires category == "total cpu usage"
    ensures ReplaceWhitespace(category) == "total_cpu_usage"
  {
    var r := ReplaceWhitespace(category);
    assert forall i :: 0 <= i < 15 && i != 5 && i != 9 ==> r[i] == category[i];
    assert r[5] == '_' && r[9] == '_';
  }

  /** The cells of `cpu,,,mem,`: each gap takes the category on its left. */
  lemma GappedCategoryFill(cells: seq<Option<string>>)
    requires cells == [Some("cpu"), None, None, Some("mem"), None]
    ensures FillCategories(cells, "") == ["cpu", "cpu", "cpu", "mem", "mem"]
  {
    assert ReplaceWhitespace("cpu") == "cpu" && ReplaceWhitespace("mem") == "mem";
    FillKeepsNonBlank(cells, "", 0);
    FillKeepsNonBlank(cells, "", 3);
    FillFromNearest(cells, "", 0, 1);
    FillFromNearest(cells, "", 0, 2);
    FillFromNearest(cells, "", 3, 4);
  }

  /** `cpu,,,mem,` as a category header: the empty cells are nil and take the category on their left. */
  lemma GappedCategoryHeader(fields: seq<string>)
    requires fields == ["cpu", "", "", "mem", ""]
    ensures CategoryHeader(Join(fields, ',')) == ["cpu", "cpu", "cpu", "mem", "mem"]
  {
    CsvParseJoin(fields);
    var cells := ParseCsvLine(Join(fields, ','));
    assert cells == [Some("cpu"), None, None, Some("mem"), None];
    GappedCategoryFill(cells);
  }

  /** The category cells of the CPU dump: one normalised category copied into all six columns. */
  lemma CpuCategoryFill(cells: seq<Option<string>>)
    requires cells == [Some("total cpu usage"), None, None, None, None, None]
    ensures FillCategories(cells, "") == seq(6, _ => "total_cpu_usage")
  {
    FillSpreadsGroup(cells, "");
    TotalCpuUsageNormalised(cells[0].value);
  }

  /** Each CPU column resolves to its `cpu-` stat. */
  lemma CpuColumnsResolve(first: seq<string>, second: seq<string>, stats: seq<string>)
    requires first == seq(6, _ => "total_cpu_usage")
    requires second == ["usr", "sys", "idl", "wai", "hiq", "siq"]
    requires stats == ["cpu-usr", "cpu-sys", "cpu-idl", "cpu-wai", "cpu-hiq", "cpu-siq"]
    ensures forall i :: 0 <= i < 6 ==> ResolveKey(KeyAt(first, i), KeyAt(second, i)) == Some(stats[i])
  {
    EntriesResolve();
    forall i | 0 <= i < 6
      ensures ResolveKey(KeyAt(first, i), KeyAt(second, i)) == Some(stats[i])
    {
      assert (first[i], second[i], stats[i]) == Entries[3 + i];
    }
  }

  /** All six CPU columns resolve, so the row gives six events in column order. */
  lemma CpuPairing(first: seq<string>, second: seq<string>, values: seq<Option<string>>)
    requires first == seq(6, _ => "total_cpu_usage")
    requires second == ["usr", "sys", "idl", "wai", "hiq", "siq"]
    requires values == [Some("10"), Some("5"), Some("80"), Some("2"), Some("1"), Some("2")]
    ensures PairRow(first, second, values, "h1")
      == [Event("cpu-usr", Some("10"), "h1"), Event("cpu-sys", Some("5"), "h1"),
          Event("cpu-idl", Some("80"), "h1"), Event("cpu-wai", Some("2"), "h1"),
          Event("cpu-hiq", Some("1"), "h1"), Event("cpu-siq", Some("2"), "h1")]
  {
    var stats := ["cpu-usr", "cpu-sys", "cpu-idl", "cpu-wai", "cpu-hiq", "cpu-siq"];
    CpuColumnsResolve(first, second, stats);
    FullyResolvedRow(first, second, values, "h1");
    var events := PairRow(first, second, values, "h1");
    assert forall k :: 0 <= k < 6 ==> events[k] == Event(stats[k], values[k], "h1");
  }

  /** The category row of the CPU dump: one normalised category over all six columns. */
  lemma CpuCategoryRow(categories: seq<string>)
    requires categories == ["total cpu usage", "", "", "", "", ""]
    ensures '"' !in Join(categories, ',') && Join(categories, ',') != ""
    ensures CategoryHeader(Join(categories, ',')) == seq(6, _ => "total_cpu_usage")
  {
    JoinExcludes(categories, ',', '"');
    CsvParseJoin(categories);
    var cells := ParseCsvLine(Join(categories, ','));
    assert cells == [Some("total cpu usage"), None, None, None, None, None];
    CpuCategoryFill(cells);
  }

  /** The sub-metric row of the CPU dump. */
  lemma CpuSubMetricRow(subMetrics: seq<string>)
    requires subMetrics == ["usr", "sys", "idl", "wai", "hiq", "siq"]
    ensures '"' !in Join(subMetrics, ',') && Join(subMetrics, ',') != ""
    ensures SubMetricHeader(Join(subMetrics, ',')) == subMetrics
  {
    JoinExcludes(subMetrics, ',', '"');
    SplitDroppingTrailingJoin(subMetrics, ',');
  }

  /** The value row of the CPU dump, cell by cell. */
  lemma CpuValueRow(values: seq<string>)
    requires values == ["10", "5", "80", "2", "1", "2"]
    ensures '"' !in Join(values, ',') && Join(values, ',') != ""
    ensures ParseCsvLine(Join(values, ',')) == [Some("10"), Some("5"), Some("80"), Some("2"), Some("1"), Some("2")]
  {
    JoinExcludes(values, ',', '"');
    CsvParseJoin(values);
  }

  /** The three rows of the CPU dump give the headers and cells the pairing works on. */
  lemma CpuDumpRows(lines: seq<string>, categories: seq<string>, subMetrics: seq<string>, values: seq<string>)
    requires categories == ["total cpu usage", "", "", "", "", ""]
    requires subMetrics == ["usr", "sys", "idl", "wai", "hiq", "siq"]
    requires values == ["10", "5", "80", "2", "1", "2"]
    requires |lines| == 8
    requires lines[CategoryLine] == Join(categories, ',')
    requires lines[SubMetricLine] == Join(subMetrics, ',')
    requires lines[ValueLine] == Join(values, ',')
    ensures Fold(Headers(None, None), lines, "h1").outcome
      == Success(PairRow(seq(6, _ => "total_cpu_usage"), subMetrics,
                         [Some("10"), Some("5"), Some("80"), Some("2"), Some("1"), Some("2")], "h1"))
  {
    CpuCategoryRow(categories);
    CpuSubMetricRow(subMetrics);
    CpuValueRow(values);
    FullDumpEvents(Headers(None, None), lines, "h1");
  }

  /**
   * A whole dump with the CPU columns: whatever the banner lines 0-4 say, the rows
   * `total cpu usage,,,,,`, `usr,sys,idl,wai,hiq,siq` and `10,5,80,2,1,2` at positions
   * 5, 6 and 7 give six CPU events for host h1, in column order.
   */
  lemma CpuScenario(lines: seq<string>)
    requires |lines| == 8
    requires lines[CategoryLine] == Join(["total cpu usage", "", "", "", "", ""], ',')
    requires lines[SubMetricLine] == Join(["usr", "sys", "idl", "wai", "hiq", "siq"], ',')
    requires lines[ValueLine] == Join(["10", "5", "80", "2", "1", "2"], ',')
    ensures Fold(Headers(None, None), lines, "h1").outcome
      == Success([Event("cpu-usr", Some("10"), "h1"), Event("cpu-sys", Some("5"), "h1"),
                  Event("cpu-idl", Some("80"), "h1"), Event("cpu-wai", Some("2"), "h1"),
                  Event("cpu-hiq", Some("1"), "h1"), Event("cpu-siq", Some("2"), "h1")])
  {
    CpuDumpRows(lines, ["total cpu usage", "", "", "", "", ""], ["usr", "sys", "idl", "wai", "hiq", "siq"],
                ["10", "5", "80", "2", "1", "2"]);
    CpuPairing(seq(6, _ => "total_cpu_usage"), ["usr", "sys", "idl", "wai", "hiq", "siq"],
               [Some("10"), Some("5"), Some("80"), Some("2"), Some("1"), Some("2")]);
  }
}
