/**
 * The series drop-down: one option per series, labelled with its year
 * range. The current year is a parameter instead of a clock reading.
 */
module SeriesSelect {
  import opened Wrappers
  import opened JsValues
  import opened SeriesAdapter

  const PresentWord: string := "Present"

  predicate EndsWithPresent(caption: string)
  {
    |caption| >= |PresentWord| && caption[|caption| - |PresentWord|..] == PresentWord
  }

  /**
   * `"<start>-Present"` when the series runs into the current year or
   * beyond, `"<start>-<end>"` otherwise.
   */
  function FormatYearRange(series: VehicleSeries, currentYear: int): (caption: string)
    ensures var prefix := NumberToString(series.startYear) + "-";
            |prefix| <= |caption| && caption[..|prefix|] == prefix
    ensures EndsWithPresent(caption) <==> series.endYear >= currentYear
    ensures series.endYear >= currentYear ==>
              caption[|NumberToString(series.startYear)| + 1..] == PresentWord
    ensures series.endYear < currentYear ==>
              caption[|NumberToString(series.startYear)| + 1..] == NumberToString(series.endYear)
  {
    var prefix := NumberToString(series.startYear) + "-";
    if series.endYear >= currentYear then
      prefix + PresentWord
    else
      var caption := prefix + NumberToString(series.endYear);
      assert caption[|caption| - 1] == NumberToString(series.endYear)[|NumberToString(series.endYear)| - 1];
      caption
  }

  /** A year range read back from a caption: the start year and, unless open-ended, the end year. */
  datatype YearRange = YearRange(startYear: nat, endYear: Option<nat>)

  /**
   * Reads a caption with non-negative years back: digits, '-', then either
   * "Present" or digits.
   */
  function ParseYearRange(caption: string): Option<YearRange>
  {
    var k := IndexOf(caption, '-');
    if k == |caption| || !IsDigits(caption[..k]) then None
    else
      var rest := caption[k + 1..];
      if rest == PresentWord then Some(YearRange(ParseDigits(caption[..k]), None))
      else if IsDigits(rest) then Some(YearRange(ParseDigits(caption[..k]), Some(ParseDigits(rest))))
      else None
  }

  /**
   * For non-negative years the caption determines the series' years: the
   * start year always, and the end year whenever the series has ended.
   */
  lemma YearRangeRoundTrip(series: VehicleSeries, currentYear: int)
    requires series.startYear >= 0
    requires series.endYear < currentYear ==> series.endYear >= 0
    ensures ParseYearRange(FormatYearRange(series, currentYear)) ==
              Some(YearRange(series.startYear,
                             if series.endYear >= currentYear then None else Some(series.endYear)))
  {
    var start := NumberToString(series.startYear);
    var caption := FormatYearRange(series, currentYear);
    var rest := if series.endYear >= currentYear then PresentWord else NumberToString(series.endYear);
    assert caption == start + "-" + rest;
    assert IndexOf(caption, '-') == |start| by {
      assert caption[|start|] == '-';
      forall i | 0 <= i < |start| ensures caption[i] != '-' {
        assert caption[i] == start[i];
      }
      IndexOfFirst(caption, '-', |start|);
    }
    assert caption[..|start|] == start;
    assert caption[|start| + 1..] == rest;
    NatToStringRoundTrip(series.startYear);
    if series.endYear < currentYear {
      NatToStringRoundTrip(series.endYear);
      assert rest != PresentWord by {
        assert IsDigit(rest[0]);
      }
    }
  }

  /** The first occurrence of `c` is at `k` when `s[k] == c` and no earlier character is `c`. */
  lemma IndexOfFirst(s: string, c: char, k: nat)
    requires k < |s| && s[k] == c
    requires forall i :: 0 <= i < k ==> s[i] != c
    ensures IndexOf(s, c) == k
  {
  }

  /** Two series that have both ended before the current year share a caption only when they share their years. */
  lemma ClosedLabelsDistinguishYears(a: VehicleSeries, b: VehicleSeries, currentYear: int)
    requires 0 <= a.endYear < currentYear && 0 <= b.endYear < currentYear
    requires a.startYear >= 0 && b.startYear >= 0
    requires FormatYearRange(a, currentYear) == FormatYearRange(b, currentYear)
    ensures a.startYear == b.startYear && a.endYear == b.endYear
  {
    YearRangeRoundTrip(a, currentYear);
    YearRangeRoundTrip(b, currentYear);
  }

  /** One entry of the drop-down: React key, submitted value and visible caption. */
  datatype SelectItem = SelectItem(key: string, value: string, caption: string)

  /** `vehicleSeries.map(series => <SelectItem key={id} value={id}>caption</SelectItem>)`. */
  function SeriesOptions(vehicleSeries: seq<VehicleSeries>, currentYear: int): (items: seq<SelectItem>)
    ensures |items| == |vehicleSeries|
    ensures forall i :: 0 <= i < |items| ==>
              items[i].key == items[i].value == vehicleSeries[i].id &&
              items[i].caption == FormatYearRange(vehicleSeries[i], currentYear)
  {
    seq(|vehicleSeries|, i requires 0 <= i < |vehicleSeries| =>
      SelectItem(vehicleSeries[i].id, vehicleSeries[i].id, FormatYearRange(vehicleSeries[i], currentYear)))
  }

  /** No two series in the list share an id. */
  predicate DistinctIds(vehicleSeries: seq<VehicleSeries>)
  {
    forall j, k :: 0 <= j < k < |vehicleSeries| ==> vehicleSeries[j].id != vehicleSeries[k].id
  }

  /** Looking up the id of the series at `i` finds a series with that id, and with distinct ids that very series. */
  lemma FindById(vehicleSeries: seq<VehicleSeries>, i: nat)
    requires i < |vehicleSeries|
    ensures var id := vehicleSeries[i].id;
            var found := Find(vehicleSeries, (s: VehicleSeries) => s.id == id);
            found.Some? && found.value.id == id &&
            (DistinctIds(vehicleSeries) ==> found.value == vehicleSeries[i])
  {
    var id := vehicleSeries[i].id;
    var p := (s: VehicleSeries) => s.id == id;
    assert p(vehicleSeries[i]);
    var found := Find(vehicleSeries, p);
    if DistinctIds(vehicleSeries) {
      var k :| 0 <= k < |vehicleSeries| && vehicleSeries[k] == found.value && p(vehicleSeries[k]) &&
               forall j :: 0 <= j < k ==> !p(vehicleSeries[j]);
      assert k == i;
    }
  }

  /**
   * Choosing an option hands back an id that the selector's `find` resolves
   * to a series with that id; when ids are distinct, to the very series the
   * option was made from.
   */
  lemma OptionValueIdentifiesSeries(vehicleSeries: seq<VehicleSeries>, currentYear: int, i: nat)
    requires i < |vehicleSeries|
    ensures var chosen := SeriesOptions(vehicleSeries, currentYear)[i].value;
            var found := Find(vehicleSeries, (s: VehicleSeries) => s.id == chosen);
            found.Some? && found.value.id == chosen &&
            (DistinctIds(vehicleSeries) ==> found.value == vehicleSeries[i])
  {
    assert SeriesOptions(vehicleSeries, currentYear)[i].value == vehicleSeries[i].id;
    FindById(vehicleSeries, i);
  }
}
