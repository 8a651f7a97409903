/** `resolve_key`: the fixed two-level table from a (category, sub-metric) column to a stat name. */
module KeyMap {
  import opened Wrappers

  /** Category, then sub-metric, then the canonical stat name: ten categories. */
  const Table: map<string, map<string, string>> := map[
    "load_avg" := map["1m" := "loadavg-short", "5m" := "loadavg-middle", "15m" := "loadavg-long"],
    "total_cpu_usage" := map["usr" := "cpu-usr", "sys" := "cpu-sys", "idl" := "cpu-idl",
                             "wai" := "cpu-wai", "hiq" := "cpu-hiq", "siq" := "cpu-siq"],
    "net/total" := map["recv" := "net-recv", "send" := "net-send"],
    "/" := map["used" := "disk-used", "free" := "disk-free"],
    "memory_usage" := map["used" := "mem-used", "buff" := "mem-buff", "cach" := "mem-cach", "free" := "mem-free"],
    "dsk/total" := map["read" := "dsk-read", "writ" := "dsk-writ"],
    "paging" := map["in" := "paging-in", "out" := "paging-out"],
    "system" := map["int" := "sys-int", "csw" := "sys-csw"],
    "swap" := map["used" := "swap-used", "free" := "swap-free"],
    "procs" := map["run" := "procs-run", "blk" := "procs-blk", "new" := "procs-new"]
  ]

  /** The same table written out as a list of (category, sub-metric, stat) rows. */
  const Entries: seq<(string, string, string)> := [
    ("load_avg", "1m", "loadavg-short"), ("load_avg", "5m", "loadavg-middle"), ("load_avg", "15m", "loadavg-long"),
    ("total_cpu_usage", "usr", "cpu-usr"), ("total_cpu_usage", "sys", "cpu-sys"), ("total_cpu_usage", "idl", "cpu-idl"),
    ("total_cpu_usage", "wai", "cpu-wai"), ("total_cpu_usage", "hiq", "cpu-hiq"), ("total_cpu_usage", "siq", "cpu-siq"),
    ("net/total", "recv", "net-recv"), ("net/total", "send", "net-send"),
    ("/", "used", "disk-used"), ("/", "free", "disk-free"),
    ("memory_usage", "used", "mem-used"), ("memory_usage", "buff", "mem-buff"),
    ("memory_usage", "cach", "mem-cach"), ("memory_usage", "free", "mem-free"),
    ("dsk/total", "read", "dsk-read"), ("dsk/total", "writ", "dsk-writ"),
    ("paging", "in", "paging-in"), ("paging", "out", "paging-out"),
    ("system", "int", "sys-int"), ("system", "csw", "sys-csw"),
    ("swap", "used", "swap-used"), ("swap", "free", "swap-free"),
    ("procs", "run", "procs-run"), ("procs", "blk", "procs-blk"), ("procs", "new", "procs-new")
  ]

  /**
   * `key_map[first_key] ? key_map[first_key][second_key] : nil`: a name only when the
   * category is in the table and the sub-metric is listed under it; nil in, nil out.
   */
  function ResolveKey(first: Option<string>, second: Option<string>): (r: Option<string>)
    ensures first.None? || second.None? ==> r.None?
  {
    if first.Some? && first.value in Table && second.Some? && second.value in Table[first.value]
    then Some(Table[first.value][second.value])
    else None
  }

  /** Every row of the list is a lookup the table answers. */
  lemma EntriesResolve()
    ensures forall i :: 0 <= i < |Entries| ==> ResolveKey(Some(Entries[i].0), Some(Entries[i].1)) == Some(Entries[i].2)
  {
  }

  /** Every lookup the table answers is a row of the list. */
  lemma ResolvedIsEntry(category: string, subMetric: string)
    requires ResolveKey(Some(category), Some(subMetric)).Some?
    ensures (category, subMetric, ResolveKey(Some(category), Some(subMetric)).value) in Entries
  {
    TenCategories();
    assert category in Table.Keys;
    if category in {"load_avg", "total_cpu_usage", "net/total", "/", "memory_usage"} {
      ResolvedIsEarlyEntry(category, subMetric);
    } else {
      ResolvedIsLateEntry(category, subMetric);
    }
  }

  /** The rows of the first five categories. */
  lemma ResolvedIsEarlyEntry(category: string, subMetric: string)
    requires category in {"load_avg", "total_cpu_usage", "net/total", "/", "memory_usage"}
    requires subMetric in Table[category]
    ensures (category, subMetric, Table[category][subMetric]) in Entries
  {
    if category == "load_avg" {
      assert subMetric in {"1m", "5m", "15m"};
    } else if category == "total_cpu_usage" {
      assert subMetric in {"usr", "sys", "idl", "wai", "hiq", "siq"};
    } else if category == "net/total" {
      assert subMetric in {"recv", "send"};
    } else if category == "/" {
      assert subMetric in {"used", "free"};
    } else {
      assert subMetric in {"used", "buff", "cach", "free"};
    }
  }

  /** The rows of the last five categories. */
  lemma ResolvedIsLateEntry(category: string, subMetric: string)
    requires category in {"dsk/total", "paging", "system", "swap", "procs"}
    requires subMetric in Table[category]
    ensures (category, subMetric, Table[category][subMetric]) in Entries
  {
    if category == "dsk/total" {
      assert subMetric in {"read", "writ"};
    } else if category == "paging" {
      assert subMetric in {"in", "out"};
    } else if category == "system" {
      assert subMetric in {"int", "csw"};
    } else if category == "swap" {
      assert subMetric in {"used", "free"};
    } else {
      assert subMetric in {"run", "blk", "new"};
    }
  }

  /** Both directions at once, nil inputs included: a name comes back exactly for a listed row. */
  lemma ResolveKeyIffEntry(first: Option<string>, second: Option<string>, stat: string)
    ensures ResolveKey(first, second) == Some(stat) <==>
      first.Some? && second.Some? && (first.value, second.value, stat) in Entries
  {
    EntriesResolve();
    if ResolveKey(first, second).Some? {
      ResolvedIsEntry(first.value, second.value);
    }
  }

  /** The ten categories of the table. */
  lemma TenCategories()
    ensures Table.Keys == {"load_avg", "total_cpu_usage", "net/total", "/", "memory_usage",
                           "dsk/total", "paging", "system", "swap", "procs"}
  {
  }

  /** No two columns share a stat name. */
  lemma StatNamesDistinct()
    ensures forall i, j :: 0 <= i < j < |Entries| ==> Entries[i].2 != Entries[j].2
  {
  }

  /** Sample lookups. */
  lemma ResolveKeyExamples()
    ensures ResolveKey(Some("swap"), Some("used")) == Some("swap-used")
    ensures ResolveKey(Some("total_cpu_usage"), Some("siq")) == Some("cpu-siq")
    ensures ResolveKey(Some("swap"), Some("bogus")) == None
    ensures ResolveKey(Some("bogus"), Some("used")) == None
  {
  }
}
