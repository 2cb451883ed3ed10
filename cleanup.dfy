/** `dom cleanup`: finding orphaned resources, and deleting unattached volumes
    behind the dry-run, force and confirmation gates, one volume at a time. */
module Cleanup {
  import opened Base
  import opened Records

  /** Block storage costs $0.10 per GB per month: 10 cents. */
  const VolumeCentsPerGb := 10
  const SecondsPerDay := 86400

  // ---------------------------------------------------------------------------
  // Orphan predicates (`not x.get(...)`: a missing list and an empty one alike).

  predicate Unattached(v: Volume) { v.dropletIds == [] }
  predicate Unassigned(ip: FloatingIp) { ip.droplet.None? }
  predicate HasNoBackends(lb: LoadBalancer) { lb.dropletIds == [] }

  function UnattachedVolumes(vs: seq<Volume>): seq<Volume> { Filter(Unattached, vs) }
  function UnassignedIps(ips: seq<FloatingIp>): seq<FloatingIp> { Filter(Unassigned, ips) }
  function EmptyLoadBalancers(lbs: seq<LoadBalancer>): seq<LoadBalancer> { Filter(HasNoBackends, lbs) }

  /** The unattached volumes are exactly the listed volumes without droplet ids,
      and the selection keeps the listing's order: selecting from two listings
      one after the other is selecting from each in turn. */
  lemma UnattachedVolumesExact(vs: seq<Volume>, more: seq<Volume>)
    ensures forall v :: v in UnattachedVolumes(vs) <==> v in vs && v.dropletIds == []
    ensures UnattachedVolumes(vs + more) == UnattachedVolumes(vs) + UnattachedVolumes(more)
  {
    forall v | v in vs && v.dropletIds == [] ensures v in UnattachedVolumes(vs) {
      var i :| 0 <= i < |vs| && vs[i] == v;
    }
    FilterAppend(Unattached, vs, more);
  }

  /** Unassigned floating IPs are exactly those bound to no droplet; empty load
      balancers exactly those without backend droplets; both keep the listing's order. */
  lemma OrphanFiltersExact(ips: seq<FloatingIp>, moreIps: seq<FloatingIp>,
                           lbs: seq<LoadBalancer>, moreLbs: seq<LoadBalancer>)
    ensures forall ip :: ip in UnassignedIps(ips) <==> ip in ips && ip.droplet.None?
    ensures forall lb :: lb in EmptyLoadBalancers(lbs) <==> lb in lbs && lb.dropletIds == []
    ensures UnassignedIps(ips + moreIps) == UnassignedIps(ips) + UnassignedIps(moreIps)
    ensures EmptyLoadBalancers(lbs + moreLbs) == EmptyLoadBalancers(lbs) + EmptyLoadBalancers(moreLbs)
  {
    forall ip | ip in ips && ip.droplet.None? ensures ip in UnassignedIps(ips) {
      var i :| 0 <= i < |ips| && ips[i] == ip;
    }
    forall lb | lb in lbs && lb.dropletIds == [] ensures lb in EmptyLoadBalancers(lbs) {
      var i :| 0 <= i < |lbs| && lbs[i] == lb;
    }
    FilterAppend(Unassigned, ips, moreIps);
    FilterAppend(HasNoBackends, lbs, moreLbs);
  }

  // ---------------------------------------------------------------------------
  // Savings.

  function SizeOf(v: Volume): int { v.sizeGigabytes }

  /** The total size in GB of some volumes. */
  function Gigabytes(vs: seq<Volume>): int { Sum(Map(SizeOf, vs)) }

  lemma GigabytesSnoc(vs: seq<Volume>, v: Volume)
    ensures Gigabytes(vs + [v]) == Gigabytes(vs) + v.sizeGigabytes
  {
    assert Map(SizeOf, vs + [v]) == Map(SizeOf, vs) + [v.sizeGigabytes];
    SumAppend(Map(SizeOf, vs), [v.sizeGigabytes]);
  }

  /** The monthly cost line of one unattached volume. */
  datatype CostRow = CostRow(id: string, name: string, sizeGigabytes: nat, cents: int)

  function CostRowOf(v: Volume): CostRow {
    CostRow(v.id, v.name, v.sizeGigabytes, v.sizeGigabytes * VolumeCentsPerGb)
  }

  /** The "Unattached Volumes" table of `cleanup all` and the running
      `total_cost` beside it: one row per volume, in order, priced at 10 cents per
      GB, and a total that is the sum of the row prices. */
  method SavingsTable(unattached: seq<Volume>) returns (rows: seq<CostRow>, total: int)
    ensures rows == Map(CostRowOf, unattached)
    ensures total == VolumeCentsPerGb * Gigabytes(unattached)
    ensures total >= 0
  {
    rows, total := [], 0;
    var i := 0;
    while i < |unattached|
      invariant 0 <= i <= |unattached|
      invariant rows == Map(CostRowOf, unattached[..i])
      invariant total == VolumeCentsPerGb * Gigabytes(unattached[..i])
      invariant total >= 0
    {
      var v := unattached[i];
      var cost := v.sizeGigabytes * VolumeCentsPerGb;
      total := total + cost;
      rows := rows + [CostRow(v.id, v.name, v.sizeGigabytes, cost)];
      assert unattached[..i + 1] == unattached[..i] + [v];
      assert unattached[..i + 1][..i] == unattached[..i];
      GigabytesSnoc(unattached[..i], v);
      i := i + 1;
    }
    assert unattached[..i] == unattached;
  }

  // ---------------------------------------------------------------------------
  // `cleanup all`.

  datatype AllReport = AllReport(
    dryRunBanner: bool,
    unattached: seq<CostRow>,
    savings: int,
    snapshotsToReview: nat,            // the "Found N snapshots" line, when N > 0
    unassigned: seq<FloatingIp>,
    emptyLoadBalancers: seq<LoadBalancer>,
    issuesFound: bool)                 // when false, "No obvious cleanup opportunities found!"

  /** The volumes listing is not guarded, so its failure ends the command; the
      snapshot, floating-IP and load-balancer sections each swallow their own
      failure. Nothing is ever deleted, whatever `dryRun` says. */
  method CleanupAll(dryRun: bool, volumes: Listing<Volume>, snapshots: Listing<Snapshot>,
                    floatingIps: Listing<FloatingIp>, loadBalancers: Listing<LoadBalancer>)
    returns (r: Outcome<AllReport>)
    ensures volumes.ListFailed? <==> r == Crash
    ensures r.Done? ==> r.value.dryRunBanner == dryRun
    ensures r.Done? ==> r.value.unattached == Map(CostRowOf, UnattachedVolumes(volumes.items))
    ensures r.Done? ==> r.value.savings == VolumeCentsPerGb * Gigabytes(UnattachedVolumes(volumes.items))
    ensures r.Done? ==> r.value.snapshotsToReview == if snapshots.Listed? then |snapshots.items| else 0
    ensures r.Done? ==> r.value.unassigned == if floatingIps.Listed? then UnassignedIps(floatingIps.items) else []
    ensures r.Done? ==> r.value.emptyLoadBalancers
                        == (if loadBalancers.Listed? then EmptyLoadBalancers(loadBalancers.items) else [])
    ensures r.Done? ==> (r.value.issuesFound <==>
      r.value.unattached != [] || r.value.unassigned != [] || r.value.emptyLoadBalancers != [])
  {
    if volumes.ListFailed? {
      return Crash;
    }
    var issuesFound := false;
    var unattached := UnattachedVolumes(volumes.items);
    var rows, savings := [], 0;
    if unattached != [] {
      issuesFound := true;
      rows, savings := SavingsTable(unattached);
    }
    var review := 0;
    if snapshots.Listed? {
      review := |snapshots.items|;
    }
    var unassigned := [];
    if floatingIps.Listed? {
      unassigned := UnassignedIps(floatingIps.items);
      if unassigned != [] {
        issuesFound := true;
      }
    }
    var emptyLbs := [];
    if loadBalancers.Listed? {
      emptyLbs := EmptyLoadBalancers(loadBalancers.items);
      if emptyLbs != [] {
        issuesFound := true;
      }
    }
    r := Done(AllReport(dryRun, rows, savings, review, unassigned, emptyLbs, issuesFound));
  }

  // ---------------------------------------------------------------------------
  // `cleanup volumes`.

  /** Where the command stopped. */
  datatype VolumesStage = NothingUnattached | DryRunOnly | Declined | DeletesAttempted

  /** One call to the delete endpoint, and whether it raised (then reported as
      "Failed to delete", else "Deleted"). */
  datatype DeleteAttempt = DeleteAttempt(volumeId: string, name: string, failed: bool)

  datatype VolumesReport = VolumesReport(
    stage: VolumesStage,
    listed: seq<Volume>,               // the "Unattached Volumes" table
    prompted: bool,                    // whether the confirmation question was asked
    attempts: seq<DeleteAttempt>)

  /** `deleteRaises(k)` says whether the k-th delete call (counting from 0) raises;
      `confirmed` is the answer the confirmation prompt would get. */
  method CleanupVolumes(volumes: Listing<Volume>, dryRun: bool, force: bool, confirmed: bool,
                        deleteRaises: nat -> bool)
    returns (r: Outcome<VolumesReport>)
    ensures volumes.ListFailed? <==> r == Crash
    ensures r.Done? ==> var u := UnattachedVolumes(volumes.items); var rep := r.value;
      && (rep.stage == NothingUnattached <==> u == [])
      && (rep.listed == u)
      && (rep.stage == DryRunOnly <==> u != [] && dryRun)
      && (rep.prompted <==> u != [] && !dryRun && !force)
      && (rep.stage == Declined <==> u != [] && !dryRun && !force && !confirmed)
      && (rep.stage == DeletesAttempted <==> u != [] && !dryRun && (force || confirmed))
      && (rep.stage != DeletesAttempted ==> rep.attempts == [])
      && (rep.stage == DeletesAttempted ==> |rep.attempts| == |u|)
      && (rep.stage == DeletesAttempted ==> forall i :: 0 <= i < |u| ==>
            rep.attempts[i] == DeleteAttempt(u[i].id, u[i].name, deleteRaises(i)))
  {
    if volumes.ListFailed? {
      return Crash;
    }
    var unattached := UnattachedVolumes(volumes.items);
    if unattached == [] {
      return Done(VolumesReport(NothingUnattached, [], false, []));
    }
    if dryRun {
      return Done(VolumesReport(DryRunOnly, unattached, false, []));
    }
    if !force && !confirmed {
      return Done(VolumesReport(Declined, unattached, true, []));
    }
    var attempts := [];
    for i := 0 to |unattached|
      invariant |attempts| == i
      invariant forall k :: 0 <= k < i ==>
        attempts[k] == DeleteAttempt(unattached[k].id, unattached[k].name, deleteRaises(k))
    {
      // A raising delete is reported and the loop goes on with the next volume.
      var failed := deleteRaises(i);
      attempts := attempts + [DeleteAttempt(unattached[i].id, unattached[i].name, failed)];
    }
    r := Done(VolumesReport(DeletesAttempted, unattached, !force, attempts));
  }

  // ---------------------------------------------------------------------------
  // `cleanup snapshots`.

  // Times are seconds since 1970-01-01T00:00:00Z.

  /** The largest number of days a `timedelta` holds. */
  const MaxTimedeltaDays := 999999999
  /** The earliest and latest whole seconds a UTC `datetime` holds: the start of
      year 1 and the last second of year 9999. */
  const MinDatetime := -62135596800
  const MaxDatetime := 253402300799

  /** `datetime.now(utc) - timedelta(days=days)`: `days` days before `now`. */
  function Cutoff(now: int, days: int): (c: int)
    ensures days >= 0 ==> c <= now
    ensures days == 0 ==> c == now
  {
    now - days * SecondsPerDay
  }

  /** `timedelta(days=days)` raises `OverflowError` beyond its range of days, and
      the subtraction raises it when the cutoff falls outside the years 1 to 9999. */
  predicate CutoffOverflows(now: int, days: int) {
    || days < -MaxTimedeltaDays || days > MaxTimedeltaDays
    || Cutoff(now, days) < MinDatetime || Cutoff(now, days) > MaxDatetime
  }

  /** The default of 90 days never overflows at any time since 1970. */
  lemma DefaultCutoffInRange(now: int)
    requires 0 <= now <= MaxDatetime
    ensures !CutoffOverflows(now, 90)
  {
  }

  /** `--older-than 1000000` overflows at any time before 24264403200 seconds,
      late in the year 2738. */
  lemma MillionDaysOverflow(now: int)
    requires MinDatetime <= now < 24264403200
    ensures CutoffOverflows(now, 1000000)
    ensures !CutoffOverflows(24264403200, 1000000)
  {
  }

  /** The snapshots created strictly before `cutoff`, in listing order. */
  function SnapshotsBefore(snaps: seq<Snapshot>, cutoff: int): (r: seq<Snapshot>)
    ensures |r| <= |snaps|
  {
    if snaps == [] then []
    else SnapshotsBefore(snaps[..|snaps| - 1], cutoff)
         + (if snaps[|snaps| - 1].createdAt < cutoff then [snaps[|snaps| - 1]] else [])
  }

  /** A snapshot is selected iff it was created strictly before the cutoff; one
      created exactly `days` days before `now` is not. */
  lemma {:induction false} SnapshotsBeforeExact(snaps: seq<Snapshot>, now: int, days: int)
    ensures forall s :: s in SnapshotsBefore(snaps, Cutoff(now, days)) <==>
      s in snaps && s.createdAt < now - days * SecondsPerDay
    ensures forall s :: s in snaps && s.createdAt == now - days * SecondsPerDay ==>
      s !in SnapshotsBefore(snaps, Cutoff(now, days))
  {
    if snaps != [] {
      var init := snaps[..|snaps| - 1];
      SnapshotsBeforeExact(init, now, days);
      assert snaps == init + [snaps[|snaps| - 1]];
    }
  }

  datatype SnapshotsReport =
    | NoOldSnapshots
    | OldSnapshots(selected: seq<Snapshot>, dryRunNotice: bool)

  /** There is no delete path in this command: with or without `--execute` it
      only lists; `--execute` merely drops the dry-run notice. */
  method CleanupSnapshots(snapshots: Listing<Snapshot>, now: int, days: int, dryRun: bool)
    returns (r: Outcome<SnapshotsReport>)
    ensures r.Done? || r == Crash
    ensures r == Crash <==> snapshots.ListFailed? || CutoffOverflows(now, days)
    ensures r.Done? ==> var older := SnapshotsBefore(snapshots.items, Cutoff(now, days));
      (r.value == if older == [] then NoOldSnapshots else OldSnapshots(older, dryRun))
  {
    if snapshots.ListFailed? {
      return Crash;
    }
    if days < -MaxTimedeltaDays || days > MaxTimedeltaDays {
      return Crash;
    }
    var cutoff := now - days * SecondsPerDay;
    if cutoff < MinDatetime || cutoff > MaxDatetime {
      return Crash;
    }
    var snaps := snapshots.items;
    var older := [];
    for i := 0 to |snaps|
      invariant older == SnapshotsBefore(snaps[..i], cutoff)
    {
      assert snaps[..i + 1][..i] == snaps[..i];
      if snaps[i].createdAt < cutoff {
        older := older + [snaps[i]];
      }
    }
    assert snaps[..|snaps|] == snaps;
    if older == [] {
      return Done(NoOldSnapshots);
    }
    r := Done(OldSnapshots(older, dryRun));
  }
}
