/** The gauges that attribute UNKNOWN findings to causes and all findings to lifecycle sources. */
module Telemetry {
  import opened Types
  import opened Text
  import opened Sums

  /** A series is named by its resource-type label and its cause or source label. */
  type Series = map<(string, string), int>

  function NormalizeLabel(value: string, fallback: string): string {
    var lowered := ToLower(TrimSpace(value));
    if lowered == "" then fallback else lowered
  }

  function TypeLabel(kind: string): string {
    NormalizeLabel(kind, "unknown")
  }

  predicate IsUpper(c: char) {
    'A' <= c <= 'Z'
  }

  /** The texts differ at most in the case of letters. */
  predicate SameButCase(a: string, b: string) {
    && |a| == |b|
    && forall i :: 0 <= i < |a| ==>
                     || a[i] == b[i]
                     || (IsUpper(a[i]) && b[i] as int == a[i] as int + 32)
                     || (IsUpper(b[i]) && a[i] as int == b[i] as int + 32)
  }

  /** A type without a name is shown under one. */
  function NameShown(kind: string): string {
    if TrimSpace(kind) == "" then "unknown" else TrimSpace(kind)
  }

  /** Two types share their series exactly if their names are the same but for case and surrounding
      white space. */
  lemma SharedLabel(a: string, b: string)
    ensures TypeLabel(a) == TypeLabel(b) <==> SameButCase(NameShown(a), NameShown(b))
  {
    var x, y := NameShown(a), NameShown(b);
    assert ToLower("unknown") == "unknown";
    assert TypeLabel(a) == ToLower(x) && TypeLabel(b) == ToLower(y);
    if ToLower(x) == ToLower(y) {
      forall i | 0 <= i < |x|
        ensures x[i] == y[i] || (IsUpper(x[i]) && y[i] as int == x[i] as int + 32) ||
                (IsUpper(y[i]) && x[i] as int == y[i] as int + 32)
      {
        assert ToLower(x)[i] == ToLower(y)[i];
      }
    }
  }

  /** A type keeps its own name exactly if that is not blank, has no surrounding white space and no upper
      case. */
  lemma OwnLabel(kind: string)
    ensures TypeLabel(kind) == kind <==>
            kind != "" && TrimSpace(kind) == kind && forall i :: 0 <= i < |kind| ==> !IsUpper(kind[i])
  {
    var k := TrimSpaceShape(kind);
    var trimmed := TrimSpace(kind);
    if TypeLabel(kind) == kind && trimmed == "" {
      TrimFixed("unknown");
      assert false;
    }
    if trimmed == kind && forall i :: 0 <= i < |kind| ==> !IsUpper(kind[i]) {
      assert ToLower(kind) == kind;
    }
    if TypeLabel(kind) == kind {
      assert kind == ToLower(trimmed);
      forall i | 0 <= i < |kind| ensures !IsUpper(kind[i]) {
        assert kind[i] == LowerChar(trimmed[i]);
      }
    }
  }

  /** The values of the series that carry the given type label. */
  function SeriesOf(series: Series, typeLabel: string): map<string, int> {
    map key | key in series && key.0 == typeLabel :: key.1 := series[key]
  }

  predicate OnlyKnown(series: Series, known: seq<string>) {
    forall key :: key in series ==> key.1 in known
  }

  ghost predicate SameElsewhere(before: Series, after: Series, typeLabel: string) {
    forall key: (string, string) :: key.0 != typeLabel ==>
                     (key in before <==> key in after) && (key in before ==> before[key] == after[key])
  }

  /** The count an accumulating map holds under `key`. */
  function CountAt(counts: map<string, int>, key: string): int {
    if key in counts then counts[key] else 0
  }

  /** `normalized` tallies what has been taken from `counts`, of which `todo` is left. */
  ghost predicate Tallied(counts: map<string, int>, todo: map<string, int>, normalized: map<string, int>,
                          known: seq<string>, fallback: string)
  {
    && (forall k :: k in todo ==> k in counts && todo[k] == counts[k])
    && (forall k :: k in normalized ==> k in known)
    && (forall k :: k in known && k != fallback ==>
                      CountAt(normalized, k) + CountAt(todo, k) == CountAt(counts, k))
    && Sum(normalized) + Sum(todo) == Sum(counts)
  }

  function AddCount(counts: map<string, int>, name: string, n: int): map<string, int> {
    counts[name := CountAt(counts, name) + n]
  }

  lemma TallyStep(counts: map<string, int>, todo: map<string, int>, normalized: map<string, int>,
                  known: seq<string>, fallback: string, key: string)
    requires fallback in known && key in todo && Tallied(counts, todo, normalized, known, fallback)
    ensures var cause := if key in known then key else fallback;
            Tallied(counts, todo - {key}, AddCount(normalized, cause, todo[key]), known, fallback)
  {
    var cause := if key in known then key else fallback;
    SumPick(todo, key);
    SumUpdate(normalized, cause, CountAt(normalized, cause) + todo[key]);
  }

  lemma TallyStarts(counts: map<string, int>, known: seq<string>, fallback: string)
    ensures Tallied(counts, counts, map[], known, fallback)
  {
  }

  /** Counts moved under the names a gauge may carry: an unknown name goes to the fallback. */
  method NormalizeCounts(counts: map<string, int>, known: seq<string>, fallback: string)
    returns (normalized: map<string, int>)
    requires fallback in known
    ensures Tallied(counts, map[], normalized, known, fallback)
  {
    normalized := map[];
    var todo := counts;
    TallyStarts(counts, known, fallback);
    while todo != map[]
      invariant Tallied(counts, todo, normalized, known, fallback)
      decreases |todo|
    {
      var key :| key in todo;
      TallyStep(counts, todo, normalized, known, fallback, key);
      var cause := if key in known then key else fallback;
      normalized := AddCount(normalized, cause, todo[key]);
      todo := todo - {key};
    }
  }

  /** Clears every known series of the type, then sets those that have a count. */
  method SetSeries(before: Series, typeLabel: string, counts: map<string, int>, known: seq<string>)
    returns (series: Series)
    requires forall k :: k in counts ==> k in known
    ensures SameElsewhere(before, series, typeLabel)
    ensures forall k :: k in known ==> (typeLabel, k) in series && series[(typeLabel, k)] == CountAt(counts, k)
    ensures OnlyKnown(before, known) ==> OnlyKnown(series, known)
  {
    series := before;
    for i := 0 to |known|
      invariant SameElsewhere(before, series, typeLabel)
      invariant forall j :: 0 <= j < i ==> (typeLabel, known[j]) in series && series[(typeLabel, known[j])] == 0
      invariant OnlyKnown(before, known) ==> OnlyKnown(series, known)
    {
      series := series[(typeLabel, known[i]) := 0];
    }
    var todo := counts.Keys;
    while todo != {}
      invariant todo <= counts.Keys
      invariant SameElsewhere(before, series, typeLabel)
      invariant forall k :: k in known ==> (typeLabel, k) in series &&
                                           series[(typeLabel, k)] == if k in counts && k !in todo then counts[k] else 0
      invariant OnlyKnown(before, known) ==> OnlyKnown(series, known)
    {
      var k :| k in todo;
      todo := todo - {k};
      series := series[(typeLabel, k) := counts[k]];
    }
  }

  /** The status series of one type, which are always set together. */
  datatype StatusCounts = StatusCounts(total: int, red: int, yellow: int, green: int, unknown: int)

  class Gauges {
    var detectionResources: map<string, StatusCounts>
    var complianceRatio: map<string, real>
    var unknownResources: Series
    var lifecycleResources: Series

    ghost predicate Valid()
      reads this
    {
      OnlyKnown(unknownResources, KNOWN_CAUSES) && OnlyKnown(lifecycleResources, KNOWN_SOURCES)
    }

    constructor ()
      ensures Valid()
    {
      detectionResources := map[];
      complianceRatio := map[];
      unknownResources := map[];
      lifecycleResources := map[];
    }

    /** The latest summary of the type, status by status, and the share of GREEN resources. */
    method RecordDetectionSummary(kind: string, summary: ScanSummary)
      modifies `detectionResources, `complianceRatio
      ensures detectionResources ==
              old(detectionResources)[TypeLabel(kind) :=
                StatusCounts(summary.totalResources, summary.redCount, summary.yellowCount, summary.greenCount,
                             summary.unknownCount)]
      ensures complianceRatio ==
              old(complianceRatio)[TypeLabel(kind) :=
                if summary.totalResources == 0 then 0.0
                else summary.greenCount as real / summary.totalResources as real]
    {
      var counts := StatusCounts(summary.totalResources, 0, 0, 0, 0);
      counts := counts.(red := summary.redCount);
      counts := counts.(yellow := summary.yellowCount);
      counts := counts.(green := summary.greenCount);
      counts := counts.(unknown := summary.unknownCount);
      detectionResources := detectionResources[TypeLabel(kind) := counts];
      var ratio := 0.0;
      if summary.totalResources > 0 {
        ratio := summary.greenCount as real / summary.totalResources as real;
      }
      complianceRatio := complianceRatio[TypeLabel(kind) := ratio];
    }

    /** Whatever the gauges held before, the type's cause series now sum to the unknown counts and its
        source series to the source counts, and no other type name is touched. */
    method RecordDetectionBreakdown(kind: string, unknownCounts: map<string, int>, sourceCounts: map<string, int>)
      requires Valid()
      modifies `unknownResources, `lifecycleResources
      ensures Valid()
      ensures Recorded(old(unknownResources), unknownResources, TypeLabel(kind), unknownCounts, KNOWN_CAUSES,
                       UNATTRIBUTED)
      ensures Recorded(old(lifecycleResources), lifecycleResources, TypeLabel(kind), sourceCounts, KNOWN_SOURCES,
                       SOURCE_UNKNOWN)
    {
      unknownResources := RecordSeries(unknownResources, TypeLabel(kind), unknownCounts, KNOWN_CAUSES, UNATTRIBUTED);
      lifecycleResources := RecordSeries(lifecycleResources, TypeLabel(kind), sourceCounts, KNOWN_SOURCES,
                                         SOURCE_UNKNOWN);
    }
  }

  /** What recording counts under a type label means: the label's series are exactly the known names,
      each at its count, with unknown names under the fallback, so that nothing is lost; the series of
      other labels are as before. */
  ghost predicate Recorded(before: Series, after: Series, typeLabel: string, counts: map<string, int>,
                           known: seq<string>, fallback: string)
  {
    && SameElsewhere(before, after, typeLabel)
    && SeriesOf(after, typeLabel).Keys == (set k | k in known)
    && Sum(SeriesOf(after, typeLabel)) == Sum(counts)
    && forall k :: k in known && k != fallback ==> SeriesOf(after, typeLabel)[k] == CountAt(counts, k)
  }

  method RecordSeries(before: Series, typeLabel: string, counts: map<string, int>, known: seq<string>, fallback: string)
    returns (series: Series)
    requires fallback in known && OnlyKnown(before, known)
    ensures OnlyKnown(series, known)
    ensures Recorded(before, series, typeLabel, counts, known, fallback)
  {
    var normalized := NormalizeCounts(counts, known, fallback);
    series := SetSeries(before, typeLabel, normalized, known);
    SeriesSum(series, typeLabel, normalized, known);
  }

  lemma SeriesSum(series: Series, typeLabel: string, counts: map<string, int>, known: seq<string>)
    requires forall k :: k in counts ==> k in known
    requires OnlyKnown(series, known)
    requires forall k :: k in known ==> (typeLabel, k) in series && series[(typeLabel, k)] == CountAt(counts, k)
    ensures SeriesOf(series, typeLabel).Keys == set k | k in known
    ensures forall k :: k in known ==> SeriesOf(series, typeLabel)[k] == CountAt(counts, k)
    ensures Sum(SeriesOf(series, typeLabel)) == Sum(counts)
  {
    var s := SeriesOf(series, typeLabel);
    forall k | k in known ensures k in s && s[k] == CountAt(counts, k) {
      assert (typeLabel, k) in series && (typeLabel, k).1 == k;
    }
    SumWithZeros(counts, s);
  }

  // ---------------------------------------------------------------------------------------------
  // From observed labels to the series shown

  function CountLabel(labels: seq<string>, name: string): nat {
    if labels == [] then 0
    else CountLabel(labels[..|labels| - 1], name) + if labels[|labels| - 1] == name then 1 else 0
  }

  /** `counts` says how often each name was observed. */
  ghost predicate Tallies(counts: map<string, int>, labels: seq<string>) {
    (forall k :: CountAt(counts, k) == CountLabel(labels, k)) && Sum(counts) == |labels|
  }

  lemma TallyOneMore(counts: map<string, int>, labels: seq<string>, name: string)
    requires Tallies(counts, labels)
    ensures Tallies(AddCount(counts, name, 1), labels + [name])
  {
    var more := AddCount(counts, name, 1);
    assert (labels + [name])[..|labels|] == labels;
    SumUpdate(counts, name, CountAt(counts, name) + 1);
    forall k ensures CountAt(more, k) == CountLabel(labels + [name], k) {
      assert CountAt(counts, k) == CountLabel(labels, k);
    }
  }

  /** The series a name is shown under. */
  function ShownAs(name: string, known: seq<string>, fallback: string): string {
    if name in known then name else fallback
  }

  function CountShown(labels: seq<string>, known: seq<string>, fallback: string, series: string): nat {
    if labels == [] then 0
    else CountShown(labels[..|labels| - 1], known, fallback, series) +
         if ShownAs(labels[|labels| - 1], known, fallback) == series then 1 else 0
  }

  function ShownCounts(labels: seq<string>, known: seq<string>, fallback: string): map<string, int> {
    map k | k in known :: CountShown(labels, known, fallback, k)
  }

  /** The type's series are the known names, each at the number of labels shown under it, the fallback
      included; they sum to the number of labels; other type labels are as before. */
  ghost predicate Shows(before: Series, after: Series, typeLabel: string, labels: seq<string>, known: seq<string>,
                        fallback: string)
  {
    && SameElsewhere(before, after, typeLabel)
    && SeriesOf(after, typeLabel) == ShownCounts(labels, known, fallback)
    && Sum(SeriesOf(after, typeLabel)) == |labels|
  }

  lemma {:induction false} ShownCountsSum(labels: seq<string>, known: seq<string>, fallback: string)
    requires fallback in known
    ensures Sum(ShownCounts(labels, known, fallback)) == |labels|
  {
    var counts := ShownCounts(labels, known, fallback);
    if labels == [] {
      SumOfZeros(counts);
    } else {
      var n := |labels| - 1;
      var rest, shown := ShownCounts(labels[..n], known, fallback), ShownAs(labels[n], known, fallback);
      ShownCountsSum(labels[..n], known, fallback);
      assert counts == rest[shown := rest[shown] + 1];
      SumUpdate(rest, shown, rest[shown] + 1);
    }
  }

  lemma {:induction false} KnownLabelsShowThemselves(labels: seq<string>, known: seq<string>, fallback: string,
                                                     k: string)
    requires k in known && k != fallback
    ensures CountShown(labels, known, fallback, k) == CountLabel(labels, k)
  {
    if labels != [] {
      KnownLabelsShowThemselves(labels[..|labels| - 1], known, fallback, k);
    }
  }

  /** Recording a tally of labels shows exactly those labels: what the known names leave over is under
      the fallback. */
  lemma RecordedShows(before: Series, after: Series, typeLabel: string, counts: map<string, int>, labels: seq<string>,
                      known: seq<string>, fallback: string)
    requires fallback in known && Tallies(counts, labels)
    requires Recorded(before, after, typeLabel, counts, known, fallback)
    ensures Shows(before, after, typeLabel, labels, known, fallback)
  {
    var shown, expected := SeriesOf(after, typeLabel), ShownCounts(labels, known, fallback);
    ShownCountsSum(labels, known, fallback);
    SumPick(shown, fallback);
    SumPick(expected, fallback);
    forall k | k in known && k != fallback ensures shown[k] == expected[k] {
      KnownLabelsShowThemselves(labels, known, fallback, k);
    }
    assert shown - {fallback} == expected - {fallback};
  }
}
