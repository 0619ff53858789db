/** The snapshot builder: findings by type, and the statistics computed over them. */
module SnapshotBuilder {
  import opened Types
  import opened Sums

  type FindingsByType = map<string, seq<Finding>>

  datatype StatBucket = StatBucket(total: int, red: int, yellow: int, green: int, unknown: int, compliance: real)

  const EMPTY_BUCKET := StatBucket(0, 0, 0, 0, 0, 0.0)

  datatype Summary = Summary(
    overall: StatBucket,
    byResourceType: map<string, StatBucket>,
    byService: map<string, StatBucket>,
    byCloudProvider: map<string, StatBucket>)

  const EMPTY_SUMMARY := Summary(EMPTY_BUCKET, map[], map[], map[])

  datatype Snapshot = Snapshot(id: string, findingsByType: FindingsByType, summary: Summary)

  // ---------------------------------------------------------------------------------------------
  // Counting findings

  datatype Group = Everything | Served | OfService(service: string) | OfProvider(provider: string)

  /** What a counter counts: the findings of a group, of one status or of any. */
  datatype What = What(group: Group, status: Option<Status>)

  predicate Counts(f: Finding, w: What) {
    && (match w.group
        case Everything => true
        case Served => f.service != ""
        case OfService(s) => f.service == s && s != ""
        case OfProvider(c) => f.cloudProvider == c)
    && (w.status.Some? ==> f.status == w.status.value)
  }

  function Count(findings: seq<Finding>, w: What): nat {
    if findings == [] then 0
    else Count(findings[..|findings| - 1], w) + if Counts(findings[|findings| - 1], w) then 1 else 0
  }

  ghost function CountAll(m: FindingsByType, w: What): int {
    Sum(map k | k in m :: Count(m[k], w))
  }

  const ALL := What(Everything, None)

  lemma CountOne(findings: seq<Finding>, f: Finding, w: What)
    ensures Count(findings + [f], w) == Count(findings, w) + if Counts(f, w) then 1 else 0
  {
    assert (findings + [f])[..|findings|] == findings;
  }

  lemma {:induction false} CountAppend(a: seq<Finding>, b: seq<Finding>, w: What)
    ensures Count(a + b, w) == Count(a, w) + Count(b, w)
  {
    if b == [] {
      assert a + b == a;
    } else {
      CountAppend(a, b[..|b| - 1], w);
      assert a + b == a + b[..|b| - 1] + [b[|b| - 1]];
      CountOne(a + b[..|b| - 1], b[|b| - 1], w);
    }
  }

  lemma {:induction false} CountEverything(findings: seq<Finding>)
    ensures Count(findings, ALL) == |findings|
  {
    if findings != [] {
      CountEverything(findings[..|findings| - 1]);
    }
  }

  lemma {:induction false} CountMonotone(findings: seq<Finding>, g: Group, status: Status)
    ensures Count(findings, What(g, Some(status))) <= Count(findings, What(g, None))
  {
    if findings != [] {
      CountMonotone(findings[..|findings| - 1], g, status);
    }
  }

  /** When all statuses are known, the four status counts of a group sum to its total. */
  lemma {:induction false} StatusesPartition(findings: seq<Finding>, g: Group)
    requires forall f :: f in findings ==> !f.status.Other?
    ensures Count(findings, What(g, None)) ==
            Count(findings, What(g, Some(Red))) + Count(findings, What(g, Some(Yellow))) +
            Count(findings, What(g, Some(Green))) + Count(findings, What(g, Some(Unknown)))
  {
    if findings != [] {
      StatusesPartition(findings[..|findings| - 1], g);
    }
  }

  /** All findings, the types visited in the given order. */
  function Concat(m: FindingsByType, order: seq<string>): seq<Finding>
    requires forall k :: k in order ==> k in m
  {
    if order == [] then [] else Concat(m, order[..|order| - 1]) + m[order[|order| - 1]]
  }

  /** `order` visits each type of `m` exactly once. */
  ghost predicate Visits(m: FindingsByType, order: seq<string>) {
    && (forall k :: k in order <==> k in m)
    && (forall i, j :: 0 <= i < j < |order| ==> order[i] != order[j])
  }

  /** `order` has visited each type but those still to do. */
  ghost predicate Visited(m: FindingsByType, order: seq<string>, todo: set<string>) {
    && (forall k :: k in order <==> k in m && k !in todo)
    && (forall i, j :: 0 <= i < j < |order| ==> order[i] != order[j])
  }

  lemma VisitOne(m: FindingsByType, order: seq<string>, todo: set<string>, kind: string)
    requires Visited(m, order, todo) && kind in todo && kind in m
    ensures Visited(m, order + [kind], todo - {kind})
    ensures Concat(m, order + [kind]) == Concat(m, order) + m[kind]
  {
    assert (order + [kind])[..|order|] == order;
    forall i, j | 0 <= i < j < |order + [kind]| ensures (order + [kind])[i] != (order + [kind])[j] {
      assert i < |order| && order[i] in order;
    }
  }

  lemma VisitsRest(m: FindingsByType, order: seq<string>)
    requires Visits(m, order) && order != []
    ensures Visits(m - {order[|order| - 1]}, order[..|order| - 1])
  {
    var n := |order| - 1;
    forall k ensures k in order[..n] <==> k in m - {order[n]} {
      if k in order && k != order[n] {
        var i :| 0 <= i < |order| && order[i] == k;
        assert order[..n][i] == k;
      }
    }
  }

  lemma {:induction false} ConcatRest(m: FindingsByType, rest: FindingsByType, order: seq<string>)
    requires forall k :: k in order ==> k in m && k in rest && m[k] == rest[k]
    ensures Concat(m, order) == Concat(rest, order)
  {
    if order != [] {
      ConcatRest(m, rest, order[..|order| - 1]);
    }
  }

  lemma CountPick(m: FindingsByType, w: What, k: string)
    requires k in m
    ensures CountAll(m, w) == Count(m[k], w) + CountAll(m - {k}, w)
  {
    var all := map j | j in m :: Count(m[j], w);
    SumPick(all, k);
    assert all - {k} == map j | j in m - {k} :: Count((m - {k})[j], w);
  }

  /** Counting in any order of the types is counting type by type. */
  lemma {:induction false} CountConcat(m: FindingsByType, order: seq<string>, w: What)
    requires Visits(m, order)
    ensures Count(Concat(m, order), w) == CountAll(m, w)
    decreases |order|
  {
    if order == [] {
      assert m == map[];
    } else {
      var n := |order| - 1;
      VisitsRest(m, order);
      CountConcat(m - {order[n]}, order[..n], w);
      ConcatRest(m, m - {order[n]}, order[..n]);
      CountAppend(Concat(m, order[..n]), m[order[n]], w);
      CountPick(m, w, order[n]);
    }
  }

  // ---------------------------------------------------------------------------------------------
  // Buckets

  function IncrementStatus(b: StatBucket, status: Status): StatBucket {
    match status
    case Red => b.(red := b.red + 1)
    case Yellow => b.(yellow := b.yellow + 1)
    case Green => b.(green := b.green + 1)
    case Unknown => b.(unknown := b.unknown + 1)
    case Other(_) => b
  }

  function CompliancePercentage(b: StatBucket): real {
    if b.total == 0 then 0.0 else b.green as real / b.total as real * 100.0
  }

  function At(buckets: map<string, StatBucket>, key: string): StatBucket {
    if key in buckets then buckets[key] else EMPTY_BUCKET
  }

  function Totals(buckets: map<string, StatBucket>): map<string, int> {
    map k | k in buckets :: buckets[k].total
  }

  /** `b` became `c` by counting the findings of the group. */
  ghost predicate Grew(b: StatBucket, c: StatBucket, findings: seq<Finding>, g: Group) {
    && c.total == b.total + Count(findings, What(g, None))
    && c.red == b.red + Count(findings, What(g, Some(Red)))
    && c.yellow == b.yellow + Count(findings, What(g, Some(Yellow)))
    && c.green == b.green + Count(findings, What(g, Some(Green)))
    && c.unknown == b.unknown + Count(findings, What(g, Some(Unknown)))
  }

  /** One grouping grew, bucket by bucket; it has a bucket for a key exactly when it had one before or
      some finding belongs there. */
  ghost predicate GroupGrew(a: map<string, StatBucket>, b: map<string, StatBucket>, findings: seq<Finding>,
                            group: string -> Group)
  {
    && (forall k :: Grew(At(a, k), At(b, k), findings, group(k)))
    && (forall k :: k in b <==> k in a || Count(findings, What(group(k), None)) > 0)
  }

  /** `t` is `s` after observing `findings`, whatever order they came in. */
  ghost predicate Tally(s: Summary, t: Summary, findings: seq<Finding>) {
    && Grew(s.overall, t.overall, findings, Everything)
    && GroupGrew(s.byService, t.byService, findings, OfServiceGroup)
    && GroupGrew(s.byCloudProvider, t.byCloudProvider, findings, OfProviderGroup)
    && Sum(Totals(t.byService)) == Sum(Totals(s.byService)) + Count(findings, What(Served, None))
    && Sum(Totals(t.byCloudProvider)) == Sum(Totals(s.byCloudProvider)) + Count(findings, ALL)
  }

  function OfServiceGroup(k: string): Group {
    OfService(k)
  }

  function OfProviderGroup(k: string): Group {
    OfProvider(k)
  }

  /** A bucket after one more finding of its group. */
  function Bump(b: StatBucket, status: Status): StatBucket {
    IncrementStatus(b.(total := b.total + 1), status)
  }

  function Observe(s: Summary, f: Finding): Summary {
    s.(overall := Bump(s.overall, f.status),
    byService :=
      if f.service == "" then s.byService
      else s.byService[f.service := Bump(At(s.byService, f.service), f.status)],
    byCloudProvider := s.byCloudProvider[f.cloudProvider := Bump(At(s.byCloudProvider, f.cloudProvider), f.status)])
  }

  lemma GrewStep(b: StatBucket, c: StatBucket, findings: seq<Finding>, g: Group, f: Finding)
    requires Grew(b, c, findings, g)
    ensures Grew(b, if Counts(f, What(g, None)) then Bump(c, f.status) else c, findings + [f], g)
    ensures Count(findings + [f], What(g, None)) ==
        Count(findings, What(g, None)) + if Counts(f, What(g, None)) then 1 else 0
  {
    CountOne(findings, f, What(g, None));
    CountOne(findings, f, What(g, Some(Red)));
    CountOne(findings, f, What(g, Some(Yellow)));
    CountOne(findings, f, What(g, Some(Green)));
    CountOne(findings, f, What(g, Some(Unknown)));
  }

  lemma GroupStep(a: map<string, StatBucket>, b: map<string, StatBucket>, findings: seq<Finding>,
                  group: string -> Group, f: Finding, key: string)
    requires GroupGrew(a, b, findings, group)
    requires forall k :: Counts(f, What(group(k), None)) <==> k == key
    ensures GroupGrew(a, b[key := Bump(At(b, key), f.status)], findings + [f], group)
    ensures Sum(Totals(b[key := Bump(At(b, key), f.status)])) == Sum(Totals(b)) + 1
  {
    var c := b[key := Bump(At(b, key), f.status)];
    forall k
      ensures Grew(At(a, k), At(c, k), findings + [f], group(k))
      ensures k in c <==> k in a || Count(findings + [f], What(group(k), None)) > 0
    {
      BucketStep(a, b, findings, group(k), f, key, k);
    }
    BumpAddsOne(b, key, f.status);
  }

  lemma BucketStep(a: map<string, StatBucket>, b: map<string, StatBucket>, findings: seq<Finding>, g: Group,
                   f: Finding, key: string, k: string)
    requires Grew(At(a, k), At(b, k), findings, g)
    requires k in b <==> k in a || Count(findings, What(g, None)) > 0
    requires Counts(f, What(g, None)) <==> k == key
    ensures var c := b[key := Bump(At(b, key), f.status)];
            && Grew(At(a, k), At(c, k), findings + [f], g)
            && (k in c <==> k in a || Count(findings + [f], What(g, None)) > 0)
  {
    GrewStep(At(a, k), At(b, k), findings, g, f);
  }

  lemma BumpAddsOne(b: map<string, StatBucket>, key: string, status: Status)
    ensures Sum(Totals(b[key := Bump(At(b, key), status)])) == Sum(Totals(b)) + 1
  {
    var c := b[key := Bump(At(b, key), status)];
    SumUpdate(Totals(b), key, c[key].total);
    assert Totals(c) == Totals(b)[key := c[key].total];
  }

  lemma GroupSkip(a: map<string, StatBucket>, b: map<string, StatBucket>, findings: seq<Finding>,
                  group: string -> Group, f: Finding)
    requires GroupGrew(a, b, findings, group)
    requires forall k :: !Counts(f, What(group(k), None))
    ensures GroupGrew(a, b, findings + [f], group)
  {
    forall k
      ensures Grew(At(a, k), At(b, k), findings + [f], group(k))
      ensures k in b <==> k in a || Count(findings + [f], What(group(k), None)) > 0
    {
      GrewStep(At(a, k), At(b, k), findings, group(k), f);
    }
  }

  lemma TallyStep(s: Summary, t: Summary, findings: seq<Finding>, f: Finding)
    requires Tally(s, t, findings)
    ensures Tally(s, Observe(t, f), findings + [f])
  {
    GrewStep(s.overall, t.overall, findings, Everything, f);
    GroupStep(s.byCloudProvider, t.byCloudProvider, findings, OfProviderGroup, f, f.cloudProvider);
    if f.service == "" {
      GroupSkip(s.byService, t.byService, findings, OfServiceGroup, f);
    } else {
      GroupStep(s.byService, t.byService, findings, OfServiceGroup, f, f.service);
    }
    CountOne(findings, f, What(Served, None));
    CountOne(findings, f, ALL);
  }

  function ObserveAll(s: Summary, findings: seq<Finding>): Summary {
    if findings == [] then s else Observe(ObserveAll(s, findings[..|findings| - 1]), findings[|findings| - 1])
  }

  lemma {:induction false} ObserveAppend(s: Summary, a: seq<Finding>, types: map<string, StatBucket>, b: seq<Finding>)
    ensures ObserveAll(ObserveAll(s, a).(byResourceType := types), b) == ObserveAll(s, a + b).(byResourceType := types)
  {
    if b == [] {
      assert a + b == a;
    } else {
      ObserveAppend(s, a, types, b[..|b| - 1]);
      assert (a + b)[..|a + b| - 1] == a + b[..|b| - 1];
    }
  }

  lemma TallyNothing(s: Summary)
    ensures Tally(s, s, [])
  {
  }

  lemma {:induction false} ObserveAllTallies(s: Summary, findings: seq<Finding>)
    ensures Tally(s, ObserveAll(s, findings), findings)
  {
    if findings == [] {
      TallyNothing(s);
    } else {
      var n := |findings| - 1;
      var before := ObserveAll(s, findings[..n]);
      ObserveAllTallies(s, findings[..n]);
      TallyLast(s, before, ObserveAll(s, findings), findings);
    }
  }

  lemma TallyLast(s: Summary, t: Summary, u: Summary, findings: seq<Finding>)
    requires findings != [] && Tally(s, t, findings[..|findings| - 1])
    requires u == Observe(t, findings[|findings| - 1])
    ensures Tally(s, u, findings)
  {
    var init, last := findings[..|findings| - 1], findings[|findings| - 1];
    assert findings == init + [last];
    TallyStep(s, t, init, last);
  }

  lemma {:induction false} ObserveAllKeeps(s: Summary, findings: seq<Finding>)
    ensures ObserveAll(s, findings).byResourceType == s.byResourceType
    ensures ObserveAll(s, findings).overall.compliance == s.overall.compliance
  {
    if findings != [] {
      ObserveAllKeeps(s, findings[..|findings| - 1]);
    }
  }

  function WithPercentages(buckets: map<string, StatBucket>): map<string, StatBucket> {
    map k | k in buckets :: buckets[k].(compliance := CompliancePercentage(buckets[k]))
  }

  method SetPercentages(buckets: map<string, StatBucket>) returns (r: map<string, StatBucket>)
    ensures r == WithPercentages(buckets)
  {
    r := buckets;
    var todo := buckets.Keys;
    while todo != {}
      invariant todo <= buckets.Keys == r.Keys
      invariant forall k :: k in buckets ==> r[k] == if k in todo then buckets[k] else WithPercentages(buckets)[k]
    {
      var k :| k in todo;
      todo := todo - {k};
      r := r[k := r[k].(compliance := CompliancePercentage(r[k]))];
    }
  }

  // ---------------------------------------------------------------------------------------------
  // What a finished summary says

  /** A bucket that counted exactly the findings of `m` in a group. */
  ghost predicate Counted(b: StatBucket, m: FindingsByType, g: Group) {
    && b.total == CountAll(m, What(g, None))
    && b.red == CountAll(m, What(g, Some(Red)))
    && b.yellow == CountAll(m, What(g, Some(Yellow)))
    && b.green == CountAll(m, What(g, Some(Green)))
    && b.unknown == CountAll(m, What(g, Some(Unknown)))
    && b.compliance == CompliancePercentage(b)
  }

  /** A grouping has a bucket for `k` exactly when some finding belongs there, and it counts those. */
  ghost predicate BucketSound(buckets: map<string, StatBucket>, m: FindingsByType, group: string -> Group, k: string) {
    && (k in buckets <==> CountAll(m, What(group(k), None)) > 0)
    && (k in buckets ==> Counted(buckets[k], m, group(k)))
  }

  /** The bucket of one type. */
  ghost predicate TypeCounted(b: StatBucket, findings: seq<Finding>) {
    Grew(EMPTY_BUCKET, b, findings, Everything) && b.compliance == CompliancePercentage(b)
  }

  ghost predicate TypesCounted(buckets: map<string, StatBucket>, m: FindingsByType, done: set<string>) {
    forall k :: k in done ==> k in m && k in buckets && TypeCounted(buckets[k], m[k])
  }

  /** The summary of a snapshot says what its findings say: overall, by type, by service and by
      provider, with no bucket missing and none in excess. */
  ghost predicate Reports(s: Summary, m: FindingsByType) {
    && Counted(s.overall, m, Everything)
    && s.byResourceType.Keys == m.Keys
    && TypesCounted(s.byResourceType, m, m.Keys)
    && (forall k :: BucketSound(s.byService, m, OfServiceGroup, k))
    && (forall k :: BucketSound(s.byCloudProvider, m, OfProviderGroup, k))
    && Sum(Totals(s.byService)) == CountAll(m, What(Served, None))
    && Sum(Totals(s.byCloudProvider)) == s.overall.total
  }

  /** The counted summary with its percentages filled in. */
  function Finished(counted: Summary): Summary {
    Summary(
      if counted.overall.total > 0 then counted.overall.(compliance := CompliancePercentage(counted.overall))
      else counted.overall,
      counted.byResourceType,
      WithPercentages(counted.byService),
      WithPercentages(counted.byCloudProvider))
  }

  // ---------------------------------------------------------------------------------------------
  // What a build adds to a summary

  /** `c` is `b` with the findings of the group counted on top. */
  ghost predicate Gained(b: StatBucket, c: StatBucket, m: FindingsByType, g: Group) {
    && c.total == b.total + CountAll(m, What(g, None))
    && c.red == b.red + CountAll(m, What(g, Some(Red)))
    && c.yellow == b.yellow + CountAll(m, What(g, Some(Yellow)))
    && c.green == b.green + CountAll(m, What(g, Some(Green)))
    && c.unknown == b.unknown + CountAll(m, What(g, Some(Unknown)))
  }

  ghost predicate GroupGained(a: map<string, StatBucket>, b: map<string, StatBucket>, m: FindingsByType,
                              group: string -> Group, k: string)
  {
    && (k in b <==> k in a || CountAll(m, What(group(k), None)) > 0)
    && Gained(At(a, k), At(b, k), m, group(k))
    && (k in b ==> b[k].compliance == CompliancePercentage(b[k]))
  }

  ghost predicate GroupingGained(a: map<string, StatBucket>, b: map<string, StatBucket>, m: FindingsByType,
                                 group: string -> Group)
  {
    forall k :: GroupGained(a, b, m, group, k)
  }

  /** The by-type buckets are those of `m`, besides older ones of other types. */
  ghost predicate TypesRenewed(a: map<string, StatBucket>, b: map<string, StatBucket>, m: FindingsByType) {
    && b.Keys == a.Keys + m.Keys
    && TypesCounted(b, m, m.Keys)
    && forall k :: k in a && k !in m ==> b[k] == a[k]
  }

  /** The same while the types `todo` are still to be counted. */
  ghost predicate TypesRenewedBut(a: map<string, StatBucket>, b: map<string, StatBucket>, m: FindingsByType,
                                  todo: set<string>)
  {
    && b.Keys == a.Keys + (m.Keys - todo)
    && TypesCounted(b, m, m.Keys - todo)
    && forall k :: k in a && (k in todo || k !in m) ==> b[k] == a[k]
  }

  /** What one build makes of the summary it finds: all counters but the by-type ones count on. */
  ghost predicate Accumulated(s: Summary, t: Summary, m: FindingsByType) {
    && Gained(s.overall, t.overall, m, Everything)
    && t.overall.compliance == (if t.overall.total > 0 then CompliancePercentage(t.overall) else s.overall.compliance)
    && GroupingGained(s.byService, t.byService, m, OfServiceGroup)
    && GroupingGained(s.byCloudProvider, t.byCloudProvider, m, OfProviderGroup)
    && TypesRenewed(s.byResourceType, t.byResourceType, m)
    && Sum(Totals(t.byService)) == Sum(Totals(s.byService)) + CountAll(m, What(Served, None))
    && Sum(Totals(t.byCloudProvider)) == Sum(Totals(s.byCloudProvider)) + CountAll(m, ALL)
  }

  lemma GainedFromGrew(b: StatBucket, c: StatBucket, m: FindingsByType, order: seq<string>, g: Group)
    requires Visits(m, order) && Grew(b, c, Concat(m, order), g)
    ensures Gained(b, c, m, g)
  {
    CountConcat(m, order, What(g, None));
    CountConcat(m, order, What(g, Some(Red)));
    CountConcat(m, order, What(g, Some(Yellow)));
    CountConcat(m, order, What(g, Some(Green)));
    CountConcat(m, order, What(g, Some(Unknown)));
  }

  lemma GainedInPercent(b: StatBucket, c: StatBucket, compliance: real, m: FindingsByType, g: Group)
    requires Gained(b, c, m, g)
    ensures Gained(b, c.(compliance := compliance), m, g)
  {
  }

  lemma BucketGains(a: map<string, StatBucket>, b: map<string, StatBucket>, m: FindingsByType, order: seq<string>,
                    group: string -> Group, k: string)
    requires Visits(m, order)
    requires Grew(At(a, k), At(b, k), Concat(m, order), group(k))
    requires k in b <==> k in a || Count(Concat(m, order), What(group(k), None)) > 0
    ensures GroupGained(a, WithPercentages(b), m, group, k)
  {
    GainedFromGrew(At(a, k), At(b, k), m, order, group(k));
    CountConcat(m, order, What(group(k), None));
    if k in b {
      GainedInPercent(At(a, k), b[k], CompliancePercentage(b[k]), m, group(k));
    }
  }

  lemma GroupGains(a: map<string, StatBucket>, b: map<string, StatBucket>, m: FindingsByType, order: seq<string>,
                   group: string -> Group)
    requires Visits(m, order) && GroupGrew(a, b, Concat(m, order), group)
    ensures GroupingGained(a, WithPercentages(b), m, group)
    ensures Totals(WithPercentages(b)) == Totals(b)
  {
    forall k ensures GroupGained(a, WithPercentages(b), m, group, k) {
      assert Grew(At(a, k), At(b, k), Concat(m, order), group(k));
      BucketGains(a, b, m, order, group, k);
    }
  }

  lemma OverallGains(s: Summary, counted: Summary, m: FindingsByType, order: seq<string>)
    requires Visits(m, order) && Grew(s.overall, counted.overall, Concat(m, order), Everything)
    requires counted.overall.compliance == s.overall.compliance
    ensures Gained(s.overall, Finished(counted).overall, m, Everything)
    ensures Finished(counted).overall.compliance ==
            if counted.overall.total > 0 then CompliancePercentage(Finished(counted).overall) else s.overall.compliance
  {
    GainedFromGrew(s.overall, counted.overall, m, order, Everything);
  }

  lemma TallyAccumulates(s: Summary, counted: Summary, m: FindingsByType, order: seq<string>)
    requires Visits(m, order) && Tally(s, counted, Concat(m, order))
    requires TypesRenewed(s.byResourceType, counted.byResourceType, m)
    requires counted.overall.compliance == s.overall.compliance
    ensures Accumulated(s, Finished(counted), m)
  {
    OverallGains(s, counted, m, order);
    GroupGains(s.byService, counted.byService, m, order, OfServiceGroup);
    GroupGains(s.byCloudProvider, counted.byCloudProvider, m, order, OfProviderGroup);
    CountConcat(m, order, What(Served, None));
    CountConcat(m, order, ALL);
  }

  lemma GainedFromNothing(b: map<string, StatBucket>, m: FindingsByType, group: string -> Group)
    requires GroupingGained(map[], b, m, group)
    ensures forall k :: BucketSound(b, m, group, k)
  {
    forall k ensures BucketSound(b, m, group, k) {
      assert GroupGained(map[], b, m, group, k);
    }
  }

  lemma OverallFromNothing(b: StatBucket, m: FindingsByType)
    requires Gained(EMPTY_BUCKET, b, m, Everything)
    requires b.compliance == if b.total > 0 then CompliancePercentage(b) else 0.0
    ensures Counted(b, m, Everything)
  {
    CountAllBounds(m, Everything);
  }

  lemma NothingTotals()
    ensures Sum(Totals(map[])) == 0
  {
    assert Totals(map[]) == map[];
  }

  /** The first build of a builder makes a summary that says what the findings say. */
  lemma FirstBuildReports(t: Summary, m: FindingsByType)
    requires Accumulated(EMPTY_SUMMARY, t, m)
    ensures Reports(t, m)
  {
    OverallFromNothing(t.overall, m);
    GainedFromNothing(t.byService, m, OfServiceGroup);
    GainedFromNothing(t.byCloudProvider, m, OfProviderGroup);
    NothingTotals();
  }

  /** A snapshot as the program holds it: an object that its builder and whoever was handed it share. */
  class SnapshotObject {
    var id: string
    var findingsByType: FindingsByType
    var summary: Summary

    constructor (id: string)
      ensures this.id == id && findingsByType == map[] && summary == EMPTY_SUMMARY
    {
      this.id := id;
      findingsByType := map[];
      summary := EMPTY_SUMMARY;
    }

    /** What the object says at present. */
    function Value(): Snapshot
      reads this
    {
      Snapshot(id, findingsByType, summary)
    }
  }

  class Builder {
    const snapshot: SnapshotObject

    constructor (id: string)
      ensures fresh(snapshot) && snapshot.Value() == Snapshot(id, map[], EMPTY_SUMMARY)
    {
      snapshot := new SnapshotObject(id);
    }

    method AddFindings(kind: string, findings: seq<Finding>)
      modifies snapshot`findingsByType
      ensures snapshot.findingsByType == old(snapshot.findingsByType)[kind := findings]
    {
      snapshot.findingsByType := snapshot.findingsByType[kind := findings];
    }

    method CountFinding(f: Finding)
      modifies snapshot`summary
      ensures snapshot.summary == Observe(old(snapshot.summary), f)
    {
      var summary := snapshot.summary;
      summary := summary.(overall := summary.overall.(total := summary.overall.total + 1));
      summary := summary.(overall := IncrementStatus(summary.overall, f.status));
      if f.service != "" {
        var bucket := At(summary.byService, f.service);
        bucket := bucket.(total := bucket.total + 1);
        summary := summary.(byService := summary.byService[f.service := IncrementStatus(bucket, f.status)]);
      }
      var bucket := At(summary.byCloudProvider, f.cloudProvider);
      bucket := bucket.(total := bucket.total + 1);
      bucket := IncrementStatus(bucket, f.status);
      summary := summary.(byCloudProvider := summary.byCloudProvider[f.cloudProvider := bucket]);
      snapshot.summary := summary;
    }

    /** The inner loop: the findings of one type. */
    method CountType(kind: string)
      requires kind in snapshot.findingsByType
      modifies snapshot`summary
      ensures && kind in snapshot.summary.byResourceType
              && TypeCounted(snapshot.summary.byResourceType[kind], snapshot.findingsByType[kind])
      ensures snapshot.summary == ObserveAll(old(snapshot.summary), snapshot.findingsByType[kind]).(
                         byResourceType := old(snapshot.summary.byResourceType)[
                           kind := snapshot.summary.byResourceType[kind]])
    {
      var findings := snapshot.findingsByType[kind];
      var typeStat := EMPTY_BUCKET;
      for i := 0 to |findings|
        invariant snapshot.summary == ObserveAll(old(snapshot.summary), findings[..i])
        invariant Grew(EMPTY_BUCKET, typeStat, findings[..i], Everything)
      {
        GrewStep(EMPTY_BUCKET, typeStat, findings[..i], Everything, findings[i]);
        assert findings[..i + 1] == findings[..i] + [findings[i]];
        CountFinding(findings[i]);
        typeStat := typeStat.(total := typeStat.total + 1);
        typeStat := IncrementStatus(typeStat, findings[i].status);
      }
      assert findings[..|findings|] == findings;
      ObserveAllKeeps(old(snapshot.summary), findings);
      typeStat := typeStat.(compliance := CompliancePercentage(typeStat));
      snapshot.summary := snapshot.summary.(byResourceType := snapshot.summary.byResourceType[kind := typeStat]);
    }

    /** The outer loop, over the types in any order the map iteration takes. */
    method CountTypes() returns (ghost order: seq<string>)
      modifies snapshot`summary
      ensures Visits(snapshot.findingsByType, order)
      ensures snapshot.summary ==
              ObserveAll(old(snapshot.summary), Concat(snapshot.findingsByType, order)).(
              byResourceType := snapshot.summary.byResourceType)
      ensures TypesRenewed(old(snapshot.summary.byResourceType), snapshot.summary.byResourceType,
                           snapshot.findingsByType)
    {
      order := [];
      var todo := snapshot.findingsByType.Keys;
      while todo != {}
        invariant todo <= snapshot.findingsByType.Keys && Visited(snapshot.findingsByType, order, todo)
        invariant snapshot.summary ==
              ObserveAll(old(snapshot.summary), Concat(snapshot.findingsByType, order)).(
              byResourceType := snapshot.summary.byResourceType)
        invariant TypesRenewedBut(old(snapshot.summary.byResourceType), snapshot.summary.byResourceType,
                                  snapshot.findingsByType, todo)
      {
        var kind :| kind in todo;
        ObserveAppend(old(snapshot.summary), Concat(snapshot.findingsByType, order), snapshot.summary.byResourceType,
                      snapshot.findingsByType[kind]);
        CountType(kind);
        VisitOne(snapshot.findingsByType, order, todo, kind);
        order := order + [kind];
        todo := todo - {kind};
      }
    }

    method CalculateStatistics() returns (ghost order: seq<string>, ghost counted: Summary)
      modifies snapshot`summary
      ensures Visits(snapshot.findingsByType, order)
      ensures Tally(old(snapshot.summary), counted, Concat(snapshot.findingsByType, order))
      ensures TypesRenewed(old(snapshot.summary).byResourceType, counted.byResourceType, snapshot.findingsByType)
      ensures counted.overall.compliance == old(snapshot.summary).overall.compliance
      ensures snapshot.summary == Finished(counted)
    {
      order := CountTypes();
      counted := snapshot.summary;
      ObserveAllTallies(old(snapshot.summary), Concat(snapshot.findingsByType, order));
      ObserveAllKeeps(old(snapshot.summary), Concat(snapshot.findingsByType, order));
      if snapshot.summary.overall.total > 0 {
        snapshot.summary := snapshot.summary.(overall := snapshot.summary.overall.(
        compliance := snapshot.summary.overall.green as real / snapshot.summary.overall.total as real * 100.0));
      }
      var services := SetPercentages(snapshot.summary.byService);
      var providers := SetPercentages(snapshot.summary.byCloudProvider);
      snapshot.summary := snapshot.summary.(byService := services, byCloudProvider := providers);
    }

    /** The first build of a builder reports its findings. Counters accumulate over builds, so a later one
        counts every finding again, and the validator then accepts the snapshot exactly if the counters
        stood at zero before. What is returned is the builder's own object. */
    method Build() returns (built: SnapshotObject)
      modifies snapshot`summary
      ensures built == snapshot
      ensures Accumulated(old(snapshot.summary), snapshot.summary, snapshot.findingsByType)
      ensures snapshot.summary.overall.total ==
              old(snapshot.summary).overall.total + CountAll(snapshot.findingsByType, ALL)
      ensures old(snapshot.summary) == EMPTY_SUMMARY ==> Reports(snapshot.summary, snapshot.findingsByType)
      ensures SummaryConsistent(snapshot.Value()) <==> old(snapshot.summary).overall.total == 0
    {
      ghost var before := snapshot.summary;
      ghost var order, counted := CalculateStatistics();
      TallyAccumulates(before, counted, snapshot.findingsByType, order);
      if before == EMPTY_SUMMARY {
        FirstBuildReports(snapshot.summary, snapshot.findingsByType);
      }
      AccumulatedIsConsistent(before.overall.total, snapshot.Value());
      return snapshot;
    }

    /** Build, on a builder that has not built before. */
    method BuildFirst() returns (built: SnapshotObject)
      requires snapshot.summary == EMPTY_SUMMARY
      modifies snapshot`summary
      ensures built == snapshot && Reports(snapshot.summary, snapshot.findingsByType)
    {
      built := Build();
    }

    /** Build, seen only through its grand total. */
    method BuildTotals() returns (built: SnapshotObject)
      modifies snapshot`summary
      ensures built == snapshot
      ensures snapshot.summary.overall.total ==
              old(snapshot.summary).overall.total + CountAll(snapshot.findingsByType, ALL)
      ensures SummaryConsistent(snapshot.Value()) <==> old(snapshot.summary).overall.total == 0
    {
      built := Build();
    }

    /** Building twice in a row doubles the counters, also those of the snapshot that the first build
        handed out: `between` is what it said until then. Afterwards it is accepted only if there are no
        findings at all. */
    method BuildTwice() returns (first: SnapshotObject, second: SnapshotObject, ghost between: Snapshot)
      requires snapshot.summary == EMPTY_SUMMARY
      modifies snapshot`summary
      ensures first == second == snapshot
      ensures SummaryConsistent(between)
      ensures between.id == first.id && between.findingsByType == first.findingsByType
      ensures first.summary.overall.total == 2 * between.summary.overall.total
      ensures SummaryConsistent(first.Value()) <==>
              forall k :: k in first.findingsByType ==> first.findingsByType[k] == []
    {
      first := BuildTotals();
      between := snapshot.Value();
      CountAllIsZero(snapshot.findingsByType);
      second := BuildTotals();
    }
  }

  // ---------------------------------------------------------------------------------------------
  // Consequences of reporting

  /** The check made before a snapshot is persisted: every type of the snapshot has a bucket of the
      right size, and the sizes sum to the overall total. */
  ghost predicate SummaryConsistent(snapshot: Snapshot) {
    && (forall k :: k in snapshot.findingsByType ==>
                      && k in snapshot.summary.byResourceType
                      && snapshot.summary.byResourceType[k].total == |snapshot.findingsByType[k]|)
    && Sum(map k | k in snapshot.findingsByType :: |snapshot.findingsByType[k]|) == snapshot.summary.overall.total
  }

  lemma SizesSum(m: FindingsByType)
    ensures Sum(map k | k in m :: |m[k]|) == CountAll(m, ALL)
  {
    forall k | k in m ensures Count(m[k], ALL) == |m[k]| {
      CountEverything(m[k]);
    }
    assert (map k | k in m :: |m[k]|) == map k | k in m :: Count(m[k], ALL);
  }

  /** Builder and validator agree, and the by-type totals sum to the grand total. */
  lemma ReportsAreConsistent(snapshot: Snapshot)
    requires Reports(snapshot.summary, snapshot.findingsByType)
    ensures SummaryConsistent(snapshot)
    ensures Sum(Totals(snapshot.summary.byResourceType)) == snapshot.summary.overall.total
  {
    var m := snapshot.findingsByType;
    SizesSum(m);
    forall k | k in m ensures snapshot.summary.byResourceType[k].total == |m[k]| {
      CountEverything(m[k]);
    }
    assert Totals(snapshot.summary.byResourceType) == map k | k in m :: |m[k]|;
  }

  lemma AccumulatedIsConsistent(before: int, snapshot: Snapshot)
    requires TypesCounted(snapshot.summary.byResourceType, snapshot.findingsByType, snapshot.findingsByType.Keys)
    requires snapshot.summary.overall.total == before + CountAll(snapshot.findingsByType, ALL)
    ensures SummaryConsistent(snapshot) <==> before == 0
  {
    var m := snapshot.findingsByType;
    SizesSum(m);
    forall k | k in m ensures snapshot.summary.byResourceType[k].total == |m[k]| {
      CountEverything(m[k]);
    }
  }

  lemma {:induction false} CountAllIsZero(m: FindingsByType)
    ensures CountAll(m, ALL) >= 0
    ensures CountAll(m, ALL) == 0 <==> forall k :: k in m ==> m[k] == []
    decreases |m|
  {
    if m != map[] {
      var k :| k in m;
      var rest := m - {k};
      CountAllIsZero(rest);
      CountPick(m, ALL, k);
      CountEverything(m[k]);
      assert forall j :: j in m ==> j == k || (j in rest && rest[j] == m[j]);
      assert forall j :: j in rest ==> j in m && rest[j] == m[j];
    }
  }

  ghost predicate KnownStatuses(m: FindingsByType) {
    forall k, f :: k in m && f in m[k] ==> !f.status.Other?
  }

  /** The percentage is the share of GREEN findings, and none when there are no findings. */
  predicate InPercent(b: StatBucket) {
    && (b.total == 0 ==> b.compliance == 0.0)
    && b.compliance * b.total as real == 100.0 * b.green as real
    && 0.0 <= b.compliance <= 100.0
  }

  /** The four counts of a bucket sum to its total, and its percentage is right. */
  predicate Balances(b: StatBucket) {
    b.red + b.yellow + b.green + b.unknown == b.total && InPercent(b)
  }

  /** A bucket that counts a group balances when all statuses are known; its percentage is right in any
      case. */
  lemma {:induction false} BucketsAreSound(b: StatBucket, m: FindingsByType, g: Group)
    requires Counted(b, m, g)
    ensures KnownStatuses(m) ==> Balances(b)
    ensures InPercent(b)
  {
    CountAllBounds(m, g);
    ShareInPercent(b);
  }

  lemma TypeBucketIsSound(b: StatBucket, findings: seq<Finding>)
    requires TypeCounted(b, findings)
    ensures (forall f :: f in findings ==> !f.status.Other?) ==> Balances(b)
    ensures InPercent(b)
  {
    if forall f :: f in findings ==> !f.status.Other? {
      StatusesPartition(findings, Everything);
    }
    CountMonotone(findings, Everything, Green);
    ShareInPercent(b);
  }

  /** A finished summary as a whole: with known statuses, the overall counts and every bucket of all
      three groupings balance. */
  lemma SummaryIsSound(s: Summary, m: FindingsByType)
    requires Reports(s, m) && KnownStatuses(m)
    ensures Balances(s.overall)
    ensures forall k :: k in s.byResourceType ==> Balances(s.byResourceType[k])
    ensures forall k :: k in s.byService ==> Balances(s.byService[k])
    ensures forall k :: k in s.byCloudProvider ==> Balances(s.byCloudProvider[k])
  {
    BucketsAreSound(s.overall, m, Everything);
    forall k | k in s.byResourceType ensures Balances(s.byResourceType[k]) {
      TypeBucketIsSound(s.byResourceType[k], m[k]);
    }
    forall k | k in s.byService ensures Balances(s.byService[k]) {
      assert BucketSound(s.byService, m, OfServiceGroup, k);
      BucketsAreSound(s.byService[k], m, OfService(k));
    }
    forall k | k in s.byCloudProvider ensures Balances(s.byCloudProvider[k]) {
      assert BucketSound(s.byCloudProvider, m, OfProviderGroup, k);
      BucketsAreSound(s.byCloudProvider[k], m, OfProvider(k));
    }
  }

  lemma ShareInPercent(b: StatBucket)
    requires 0 <= b.green <= b.total && b.compliance == CompliancePercentage(b)
    ensures InPercent(b)
  {
    if b.total > 0 {
      var share := b.green as real / b.total as real;
      assert share * b.total as real == b.green as real;
      assert 0.0 <= share <= 1.0;
    }
  }

  lemma {:induction false} CountAllBounds(m: FindingsByType, g: Group)
    ensures 0 <= CountAll(m, What(g, Some(Green))) <= CountAll(m, What(g, None))
    ensures KnownStatuses(m) ==>
              CountAll(m, What(g, None)) ==
              CountAll(m, What(g, Some(Red))) + CountAll(m, What(g, Some(Yellow))) +
              CountAll(m, What(g, Some(Green))) + CountAll(m, What(g, Some(Unknown)))
    decreases |m|
  {
    if m != map[] {
      var k :| k in m;
      CountAllBounds(m - {k}, g);
      CountPick(m, What(g, None), k);
      CountPick(m, What(g, Some(Red)), k);
      CountPick(m, What(g, Some(Yellow)), k);
      CountPick(m, What(g, Some(Green)), k);
      CountPick(m, What(g, Some(Unknown)), k);
      CountMonotone(m[k], g, Green);
      if forall f :: f in m[k] ==> !f.status.Other? {
        StatusesPartition(m[k], g);
      }
    }
  }
}
