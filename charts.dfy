/**
  The chart helpers of the report views (construction/views.py): the cyclic
  colour palette, the run of calendar months a chart covers, and the choice
  of unique worksheet titles for the charts of the Excel report.
 */
module Charts {
  import opened Seqs
  import opened Text

  /** CHART_COLORS. */
  const ChartColors: seq<string> := ["#e53935", "#43a047", "#8e24aa", "#1e88e5", "#fb8c00"]

  /**
    _palette(count): count colours taken from CHART_COLORS in turn, starting
    over after the last; none for a count of zero or less.
   */
  method Palette(count: int) returns (colors: seq<string>)
    ensures |colors| == if count <= 0 then 0 else count
    ensures forall i :: 0 <= i < |colors| ==> colors[i] == ChartColors[i % |ChartColors|]
    ensures forall i :: 0 <= i < |colors| - |ChartColors| ==> colors[i + |ChartColors|] == colors[i]
    ensures forall i, j :: 0 <= i < j < |colors| && j < |ChartColors| ==> colors[i] != colors[j]
  {
    if count <= 0 {
      return [];
    }
    colors := [];
    for idx := 0 to count
      invariant |colors| == idx
      invariant forall i :: 0 <= i < idx ==> colors[i] == ChartColors[i % |ChartColors|]
    {
      colors := colors + [ChartColors[idx % |ChartColors|]];
    }
  }

  datatype YearMonth = YearMonth(year: int, month: int)

  /** Months counted from January of year 0, so that consecutive months differ by one. */
  function MonthIndex(ym: YearMonth): int
  {
    ym.year * 12 + (ym.month - 1)
  }

  /** The calendar month after ym. */
  function NextMonth(ym: YearMonth): YearMonth
  {
    if ym.month == 12 then YearMonth(ym.year + 1, 1) else YearMonth(ym.year, ym.month + 1)
  }

  /** A valid month is determined by its index, and the next month's index is one more. */
  lemma MonthIndexStep(a: YearMonth, b: YearMonth)
    requires 1 <= a.month <= 12 && 1 <= b.month <= 12
    ensures MonthIndex(a) == MonthIndex(b) ==> a == b
    ensures MonthIndex(b) == MonthIndex(a) + 1 ==> b == NextMonth(a)
  {
    if MonthIndex(a) == MonthIndex(b) || MonthIndex(b) == MonthIndex(a) + 1 {
      if a.year < b.year - 1 || a.year > b.year {
        assert false;
      }
    }
  }

  /**
    _month_sequence(count): the count months ending with the anchor month
    (the current one), oldest first, one calendar month apart.
   */
  method MonthSequence(anchor: YearMonth, count: int) returns (months: seq<YearMonth>)
    requires 1 <= anchor.month <= 12
    ensures |months| == if count <= 0 then 0 else count
    ensures forall i :: 0 <= i < |months| ==> 1 <= months[i].month <= 12
    ensures forall i :: 0 <= i < |months| ==> MonthIndex(months[i]) == MonthIndex(anchor) - (|months| - 1 - i)
    ensures forall i :: 0 <= i < |months| - 1 ==> months[i + 1] == NextMonth(months[i])
    ensures |months| > 0 ==> months[|months| - 1] == anchor
  {
    var descending: seq<YearMonth> := [];
    var year, month := anchor.year, anchor.month;
    var n := if count <= 0 then 0 else count;
    for k := 0 to n
      invariant |descending| == k && 1 <= month <= 12
      invariant MonthIndex(YearMonth(year, month)) == MonthIndex(anchor) - k
      invariant forall i :: 0 <= i < k ==>
        1 <= descending[i].month <= 12 && MonthIndex(descending[i]) == MonthIndex(anchor) - i
    {
      descending := descending + [YearMonth(year, month)];
      month := month - 1;
      if month == 0 {
        month := 12;
        year := year - 1;
      }
    }
    months := Reverse(descending);
    forall i | 0 <= i < |months| - 1 ensures months[i + 1] == NextMonth(months[i]) {
      MonthIndexStep(months[i], months[i + 1]);
    }
    if n > 0 {
      MonthIndexStep(months[n - 1], anchor);
    }
  }

  /** f"Chart {index}". */
  function ChartBase(index: nat): string
  {
    "Chart " + NatToString(index)
  }

  /** The title tried with a given suffix: the base itself first, then f"{base_title} {suffix}". */
  function Title(base: string, suffix: nat): string
  {
    if suffix <= 1 then base else base + " " + NatToString(suffix)
  }

  /** Different suffixes from 1 upwards give different titles. */
  lemma TitleInjective(base: string, a: nat, b: nat)
    requires 1 <= a && 1 <= b && Title(base, a) == Title(base, b)
    ensures a == b
  {
    if a > 1 && b > 1 {
      var ta, tb := Title(base, a), Title(base, b);
      assert NatToString(a) == ta[|base| + 1..];
      assert NatToString(b) == tb[|base| + 1..];
      NatToStringInjective(a, b);
    }
  }

  /** title[:31]. */
  function Truncate31(s: string): string
  {
    if |s| <= 31 then s else s[..31]
  }

  /**
    The first free title for a chart: the loop over suffixes, from the bare
    base up, stops at the first title not already taken.
   */
  method FreeTitle(base: string, taken: set<string>) returns (title: string, suffix: nat)
    ensures suffix >= 1 && title == Title(base, suffix) && title !in taken
    ensures forall k :: 1 <= k < suffix ==> Title(base, k) in taken
  {
    title := base;
    suffix := 1;
    ghost var tried: set<string> := {};
    while title in taken
      invariant suffix >= 1 && title == Title(base, suffix)
      invariant tried <= taken
      invariant forall k :: 1 <= k < suffix ==> Title(base, k) in tried
      invariant forall t :: t in tried ==> exists k :: 1 <= k < suffix && t == Title(base, k)
      decreases |taken - tried|
    {
      if title in tried {
        var k :| 1 <= k < suffix && title == Title(base, k);
        TitleInjective(base, k, suffix);
      }
      assert taken - (tried + {title}) < taken - tried;
      forall k | 1 <= k < suffix + 1 ensures Title(base, k) in tried + {title} {
        if k < suffix {
          assert Title(base, k) in tried;
        }
      }
      tried := tried + {title};
      suffix := suffix + 1;
      title := Title(base, suffix);
    }
  }

  /** The title the chart at position i (chart number i + 1) tries with suffix k. */
  function ChartTitle(i: nat, k: nat): string
  {
    Title(ChartBase(i + 1), k)
  }

  /**
    Each chart took the first suffix that was free: every smaller suffix gave
    the title of an existing sheet or of an earlier chart's sheet.
   */
  ghost predicate FirstFree(existing: set<string>, titles: seq<string>, suffixes: seq<nat>)
    requires |suffixes| == |titles|
  {
    forall i, k :: 0 <= i < |titles| && 1 <= k < suffixes[i] ==>
      ChartTitle(i, k) in existing || ChartTitle(i, k) in titles[..i]
  }

  /**
    What holds of the first charts' titles: chart i took the first free
    suffix, its sheet title is the chosen one cut to 31 characters, and the
    chosen title was neither an existing sheet nor an earlier chart's.
   */
  ghost predicate Placed(existing: set<string>, titles: seq<string>, chosen: seq<string>, suffixes: seq<nat>)
  {
    |titles| == |chosen| == |suffixes|
    && (forall i :: 0 <= i < |titles| ==>
         suffixes[i] >= 1 && chosen[i] == Title(ChartBase(i + 1), suffixes[i]) && titles[i] == Truncate31(chosen[i]))
    && (forall i :: 0 <= i < |titles| ==> chosen[i] !in existing)
    && (forall i, j :: 0 <= j < i < |titles| ==> chosen[i] != titles[j])
    && FirstFree(existing, titles, suffixes)
  }

  lemma FirstFreeStep(existing: set<string>, titles: seq<string>, suffixes: seq<nat>, sheet: string, suffix: nat)
    requires |suffixes| == |titles| && FirstFree(existing, titles, suffixes)
    requires forall k :: 1 <= k < suffix ==> ChartTitle(|titles|, k) in existing || ChartTitle(|titles|, k) in titles
    ensures FirstFree(existing, titles + [sheet], suffixes + [suffix])
  {
    var n := |titles|;
    var titles', suffixes' := titles + [sheet], suffixes + [suffix];
    forall i, k | 0 <= i < n + 1 && 1 <= k < suffixes'[i]
      ensures ChartTitle(i, k) in existing || ChartTitle(i, k) in titles'[..i]
    {
      if i < n {
        assert titles'[..i] == titles[..i] && suffixes'[i] == suffixes[i];
      } else {
        assert titles'[..i] == titles;
      }
    }
  }

  lemma PlacedStep(existing: set<string>, titles: seq<string>, chosen: seq<string>, suffixes: seq<nat>,
                   title: string, suffix: nat)
    requires Placed(existing, titles, chosen, suffixes)
    requires suffix >= 1 && title == Title(ChartBase(|titles| + 1), suffix)
    requires title !in existing && title !in titles
    requires forall k :: 1 <= k < suffix ==> ChartTitle(|titles|, k) in existing || ChartTitle(|titles|, k) in titles
    ensures Placed(existing, titles + [Truncate31(title)], chosen + [title], suffixes + [suffix])
  {
    FirstFreeStep(existing, titles, suffixes, Truncate31(title), suffix);
    var n := |titles|;
    var titles', chosen', suffixes' := titles + [Truncate31(title)], chosen + [title], suffixes + [suffix];
    forall i | 0 <= i < n + 1
      ensures suffixes'[i] >= 1 && chosen'[i] == Title(ChartBase(i + 1), suffixes'[i])
      ensures titles'[i] == Truncate31(chosen'[i]) && chosen'[i] !in existing
    {
      if i < n {
        assert suffixes'[i] == suffixes[i] && chosen'[i] == chosen[i] && titles'[i] == titles[i];
      }
    }
    forall i, j | 0 <= j < i < n + 1 ensures chosen'[i] != titles'[j] {
      assert titles'[j] == titles[j];
      if i < n {
        assert chosen'[i] == chosen[i];
      } else {
        assert titles[j] in titles;
      }
    }
  }

  /**
    The worksheet titles build_excel_report gives its charts: chart i is
    titled "Chart i", or "Chart i 2", "Chart i 3", ... when that is taken,
    cut to 31 characters, and each title joins the taken ones.
   */
  method ChartSheetTitles(existing: set<string>, count: nat)
    returns (titles: seq<string>, chosen: seq<string>, suffixes: seq<nat>)
    ensures |titles| == count
    ensures Placed(existing, titles, chosen, suffixes)
  {
    var taken := existing;
    titles, chosen, suffixes := [], [], [];
    for index := 1 to count + 1
      invariant |titles| == index - 1
      invariant forall t :: t in taken <==> t in existing || t in titles
      invariant Placed(existing, titles, chosen, suffixes)
    {
      var title, suffix := FreeTitle(ChartBase(index), taken);
      forall k | 1 <= k < suffix ensures ChartTitle(|titles|, k) in existing || ChartTitle(|titles|, k) in titles {
        assert ChartTitle(|titles|, k) == Title(ChartBase(index), k);
      }
      PlacedStep(existing, titles, chosen, suffixes, title, suffix);
      var sheetTitle := Truncate31(title);
      titles, chosen, suffixes := titles + [sheetTitle], chosen + [title], suffixes + [suffix];
      taken := taken + {sheetTitle};
    }
  }

  /** A chart whose bare "Chart i" is neither an existing sheet nor an earlier chart's gets exactly that title. */
  lemma BareTitleWhenFree(existing: set<string>, titles: seq<string>, chosen: seq<string>, suffixes: seq<nat>, i: nat)
    requires Placed(existing, titles, chosen, suffixes) && i < |titles|
    requires ChartBase(i + 1) !in existing && ChartBase(i + 1) !in titles[..i]
    ensures suffixes[i] == 1 && chosen[i] == ChartBase(i + 1)
  {
    assert ChartTitle(i, 1) == ChartBase(i + 1);
  }

  /** When no chosen title is longer than 31 characters, the chart sheets get distinct new titles. */
  lemma ShortTitlesAreUnique(existing: set<string>, titles: seq<string>, chosen: seq<string>, suffixes: seq<nat>)
    requires Placed(existing, titles, chosen, suffixes)
    requires forall i :: 0 <= i < |chosen| ==> |chosen[i]| <= 31
    ensures forall i :: 0 <= i < |titles| ==> titles[i] !in existing && titles[i] == chosen[i]
    ensures forall i, j :: 0 <= j < i < |titles| ==> titles[i] != titles[j]
  {
  }
}
