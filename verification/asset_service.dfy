/** The asset service: checkout and check-in of assets, the monthly
    straight-line depreciation run and the visual audit that recovers lost
    assets. The store of assets and assignment records is a class whose two
    sequences the operations update in place. */
module AssetService {
  import opened Wrappers
  import opened Seqs

  datatype AssetType = Hardware | Software | License

  datatype AssetStatus = InStock | Assigned | Repair | Lost | Disposed

  datatype ReturnCondition = Good | Damaged

  /** A calendar day as the clock stamps it (an ISO `yyyy-mm-dd` string, never empty). */
  type Date = s: string | |s| > 0 witness "1970-01-01"

  datatype Asset = Asset(
    id: string,
    tagId: string,
    name: string,
    kind: AssetType,
    status: AssetStatus,
    locationId: string,
    purchaseDate: string,
    cost: real,
    salvageValue: real,
    depreciationYears: real,
    currentValue: real,
    assignedTo: Option<string>)

  /** A checkout record; it is open until `returnedAt` is stamped. */
  datatype Assignment = Assignment(
    id: string,
    assetId: string,
    userId: string,
    assignedAt: Date,
    expectedReturnDate: Option<string>,
    approvedBy: string,
    returnedAt: Option<Date>,
    returnCondition: Option<ReturnCondition>)
  {
    predicate IsOpen() { returnedAt.None? }
  }

  /** The errors the service throws. `InvalidState` is error E-ASSET-001:
      the asset is not IN_STOCK and cannot be checked out. */
  datatype AssetError = AssetNotFound | InvalidState(assetId: string, status: AssetStatus) | UserNotFound

  function HasId(id: string): Asset -> bool { (a: Asset) => a.id == id }

  function IsOpenFor(assetId: string): Assignment -> bool { (g: Assignment) => g.assetId == assetId && g.IsOpen() }

  /** The location an asset moves to when it is checked out to `userId`. */
  function UserLocation(userId: string): string { "user-loc-" + userId }

  const ReturnLocation: string := "warehouse-return-area"

  /** `currentUserId || 'system'`: a missing or empty current user approves as "system". */
  function Approver(currentUserId: Option<string>): (r: string)
    ensures r != ""
    ensures currentUserId.Some? && currentUserId.value != "" ==> r == currentUserId.value
    ensures !(currentUserId.Some? && currentUserId.value != "") ==> r == "system"
  {
    if currentUserId.Some? && currentUserId.value != "" then currentUserId.value else "system"
  }

  /** The status a returned asset takes: damaged goods go to repair. */
  function StatusAfterReturn(condition: ReturnCondition): (r: AssetStatus)
    ensures r == Repair <==> condition == Damaged
    ensures r == InStock <==> condition == Good
  {
    match condition
    case Damaged => Repair
    case Good => InStock
  }

  /** The store invariant the lifecycle keeps: asset ids are unique, an asset
      has an assignee exactly when it is ASSIGNED, an open assignment belongs
      to an ASSIGNED asset held by that assignment's user, and no asset has two
      open assignments. */
  ghost predicate Consistent(s: seq<Asset>, g: seq<Assignment>) {
    && (forall i, j :: 0 <= i < j < |s| ==> s[i].id != s[j].id)
    && (forall i :: 0 <= i < |s| ==> (s[i].status == Assigned <==> s[i].assignedTo.Some?))
    && (forall i, k :: 0 <= i < |s| && 0 <= k < |g| && g[k].IsOpen() && g[k].assetId == s[i].id ==>
          s[i].status == Assigned && s[i].assignedTo == Some(g[k].userId))
    && (forall k, l :: 0 <= k < l < |g| && g[k].IsOpen() && g[l].IsOpen() ==> g[k].assetId != g[l].assetId)
  }

  // ---------------------------------------------------------------------
  // Depreciation

  /** An asset the depreciation run processes: not disposed and still above salvage. */
  predicate Eligible(a: Asset) {
    a.status != Disposed && a.currentValue > a.salvageValue
  }

  /** The run divides by the depreciation horizon of every asset it processes. */
  predicate HorizonsPositive(s: seq<Asset>) {
    forall i :: 0 <= i < |s| && Eligible(s[i]) ==> s[i].depreciationYears > 0.0
  }

  function Min(x: real, y: real): real { if x <= y then x else y }

  /** Straight-line monthly depreciation: (cost - salvage) / (years * 12). */
  function Monthly(a: Asset): real
    requires a.depreciationYears > 0.0
  {
    (a.cost - a.salvageValue) / (a.depreciationYears * 12.0)
  }

  /** Over the whole horizon the monthly amounts add up to exactly cost minus
      salvage; the amount is positive when cost exceeds salvage and negative
      when cost is below salvage. */
  lemma MonthlySpreadsCost(a: Asset)
    requires a.depreciationYears > 0.0
    ensures Monthly(a) * (a.depreciationYears * 12.0) == a.cost - a.salvageValue
    ensures a.cost > a.salvageValue ==> Monthly(a) > 0.0
    ensures a.cost < a.salvageValue ==> Monthly(a) < 0.0
  {
  }

  /** What one run deducts from an asset: the monthly amount, cut back so that
      the value does not fall below salvage; nothing for an ineligible asset. */
  function Deduction(a: Asset): (d: real)
    requires Eligible(a) ==> a.depreciationYears > 0.0
    ensures Eligible(a) ==> d == Min(Monthly(a), a.currentValue - a.salvageValue)
    ensures !Eligible(a) ==> d == 0.0
  {
    if !Eligible(a) then 0.0
    else if a.currentValue - Monthly(a) < a.salvageValue then a.currentValue - a.salvageValue
    else Monthly(a)
  }

  /** The asset after one depreciation run. */
  function Depreciated(a: Asset): (r: Asset)
    requires Eligible(a) ==> a.depreciationYears > 0.0
    ensures r == a.(currentValue := r.currentValue)
    ensures !Eligible(a) ==> r == a
    ensures Eligible(a) ==> r.currentValue >= a.salvageValue
    ensures Eligible(a) && a.cost >= a.salvageValue ==> r.currentValue <= a.currentValue
    ensures Eligible(a) && a.cost > a.salvageValue ==> r.currentValue < a.currentValue
  {
    a.(currentValue := a.currentValue - Deduction(a))
  }

  /** Every asset of the store after one depreciation run. */
  function DepreciateAll(s: seq<Asset>): (r: seq<Asset>)
    requires HorizonsPositive(s)
    ensures |r| == |s|
    ensures forall i :: 0 <= i < |s| ==> r[i] == Depreciated(s[i])
  {
    if s == [] then [] else DepreciateAll(s[..|s| - 1]) + [Depreciated(s[|s| - 1])]
  }

  /** The number of assets a run processes. */
  function EligibleCount(s: seq<Asset>): (n: nat)
    ensures n <= |s|
  {
    if s == [] then 0 else EligibleCount(s[..|s| - 1]) + (if Eligible(s[|s| - 1]) then 1 else 0)
  }

  /** The total a run deducts, accumulated in store order. */
  function TotalDeduction(s: seq<Asset>): real
    requires HorizonsPositive(s)
  {
    if s == [] then 0.0 else TotalDeduction(s[..|s| - 1]) + Deduction(s[|s| - 1])
  }

  /** One step of a run: the counters grow by the asset's share, and the
      store, depreciated up to `i` and untouched from `i` on, becomes the store
      depreciated up to `i + 1` once the asset at `i` is depreciated. */
  lemma RunStep(s: seq<Asset>, i: nat)
    requires HorizonsPositive(s) && i < |s|
    ensures HorizonsPositive(s[..i]) && HorizonsPositive(s[..i + 1])
    ensures EligibleCount(s[..i + 1]) == EligibleCount(s[..i]) + if Eligible(s[i]) then 1 else 0
    ensures TotalDeduction(s[..i + 1]) == TotalDeduction(s[..i]) + Deduction(s[i])
    ensures (DepreciateAll(s[..i]) + s[i..])[i] == s[i]
    ensures (DepreciateAll(s[..i]) + s[i..])[i := Depreciated(s[i])] == DepreciateAll(s[..i + 1]) + s[i + 1..]
  {
    assert s[..i + 1][..i] == s[..i];
    var done := DepreciateAll(s[..i]);
    assert s[i..] == [s[i]] + s[i + 1..];
    assert (done + s[i..])[i := Depreciated(s[i])] == done + [Depreciated(s[i])] + s[i + 1..];
  }

  /** The run's loop, in store order: every eligible asset loses its clamped
      monthly amount, and the count and the running total grow with it. */
  method DepreciationRun(s: seq<Asset>) returns (r: seq<Asset>, count: nat, total: real)
    requires HorizonsPositive(s)
    ensures r == DepreciateAll(s)
    ensures count == EligibleCount(s)
    ensures total == TotalDeduction(s)
  {
    r, count, total := s, 0, 0.0;
    var i := 0;
    while i < |r|
      invariant 0 <= i <= |s|
      invariant r == DepreciateAll(s[..i]) + s[i..]
      invariant count == EligibleCount(s[..i])
      invariant total == TotalDeduction(s[..i])
    {
      RunStep(s, i);
      var asset := r[i];
      if asset.status != Disposed && asset.currentValue > asset.salvageValue {
        var deduction := Monthly(asset);
        if asset.currentValue - deduction < asset.salvageValue {
          deduction := asset.currentValue - asset.salvageValue;
        }
        r := r[i := asset.(currentValue := asset.currentValue - deduction)];
        total := total + deduction;
        count := count + 1;
      }
      i := i + 1;
    }
    assert s[..i] == s;
  }

  /** A run changes only current values, so it keeps the store invariant. */
  lemma DepreciationKeepsConsistent(s: seq<Asset>, g: seq<Assignment>)
    requires HorizonsPositive(s)
    ensures Consistent(s, g) ==> Consistent(DepreciateAll(s), g)
  {
  }

  /** The summed book value of the store. */
  function BookValue(s: seq<Asset>): (v: real)
    ensures (forall i :: 0 <= i < |s| ==> s[i].currentValue >= 0.0) ==> v >= 0.0
  {
    if s == [] then 0.0 else BookValue(s[..|s| - 1]) + s[|s| - 1].currentValue
  }

  /** The reported total is exactly the drop in the store's book value. */
  lemma {:induction false} TotalIsBookValueDrop(s: seq<Asset>)
    requires HorizonsPositive(s)
    ensures TotalDeduction(s) == BookValue(s) - BookValue(DepreciateAll(s))
  {
    if s != [] {
      var init := s[..|s| - 1];
      TotalIsBookValueDrop(init);
      assert DepreciateAll(s)[..|s| - 1] == DepreciateAll(init);
    }
  }

  /** With cost at least salvage, a run never raises a value, so its total is not negative. */
  lemma {:induction false} TotalNotNegative(s: seq<Asset>)
    requires HorizonsPositive(s)
    requires forall i :: 0 <= i < |s| ==> s[i].cost >= s[i].salvageValue
    ensures TotalDeduction(s) >= 0.0
  {
    if s != [] {
      TotalNotNegative(s[..|s| - 1]);
    }
  }

  /** A store in which no asset is eligible is left as it is, with count 0 and total 0. */
  lemma {:induction false} SettledStoreIsFixpoint(s: seq<Asset>)
    requires forall i :: 0 <= i < |s| ==> !Eligible(s[i])
    ensures HorizonsPositive(s)
    ensures EligibleCount(s) == 0 && TotalDeduction(s) == 0.0 && DepreciateAll(s) == s
  {
    if s != [] {
      SettledStoreIsFixpoint(s[..|s| - 1]);
    }
  }

  /** The asset after `n` consecutive runs. */
  function DepreciatedTimes(a: Asset, n: nat): (r: Asset)
    requires a.depreciationYears > 0.0
    ensures r == a.(currentValue := r.currentValue)
    decreases n
  {
    if n == 0 then a else DepreciatedTimes(Depreciated(a), n - 1)
  }

  /** The store after `n` consecutive runs, each the store the previous one
      left behind; position by position, every asset has had `n` runs. */
  function RunTimes(s: seq<Asset>, n: nat): (r: seq<Asset>)
    requires forall i :: 0 <= i < |s| ==> s[i].depreciationYears > 0.0
    ensures |r| == |s|
    ensures forall i :: 0 <= i < |s| ==> r[i] == DepreciatedTimes(s[i], n)
    decreases n
  {
    if n == 0 then s else RunTimes(DepreciateAll(s), n - 1)
  }

  /** An asset that `n` runs take out of the run: disposed, already at or
      below salvage, or close enough to salvage for `n` monthly amounts. */
  predicate SettlesWithin(a: Asset, n: nat)
    requires a.depreciationYears > 0.0
  {
    || a.status == Disposed
    || a.currentValue <= a.salvageValue
    || (a.cost > a.salvageValue && n as real * Monthly(a) >= a.currentValue - a.salvageValue)
  }

  /** When `n` runs settle every asset, the store after `n` runs has nothing
      left to process: a further run counts 0, deducts 0 and changes nothing. */
  lemma RunsSettleStore(s: seq<Asset>, n: nat)
    requires forall i :: 0 <= i < |s| ==> s[i].depreciationYears > 0.0 && SettlesWithin(s[i], n)
    ensures HorizonsPositive(RunTimes(s, n))
    ensures EligibleCount(RunTimes(s, n)) == 0 && TotalDeduction(RunTimes(s, n)) == 0.0
    ensures DepreciateAll(RunTimes(s, n)) == RunTimes(s, n)
  {
    var r := RunTimes(s, n);
    forall i | 0 <= i < |r|
      ensures !Eligible(r[i])
    {
      var a := s[i];
      if a.status == Disposed {
      } else if a.currentValue <= a.salvageValue {
        SalvageIsFixpoint(a, n);
      } else {
        RunsReachSalvage(a, n);
      }
    }
    SettledStoreIsFixpoint(r);
  }

  /** Repeated runs reach salvage: once `n` monthly amounts cover the distance
      to salvage, the value is exactly salvage and the asset is no longer
      processed. */
  lemma {:induction false} RunsReachSalvage(a: Asset, n: nat)
    requires a.depreciationYears > 0.0 && a.status != Disposed
    requires a.cost > a.salvageValue && a.currentValue >= a.salvageValue
    requires n as real * Monthly(a) >= a.currentValue - a.salvageValue
    ensures DepreciatedTimes(a, n).currentValue == a.salvageValue
    ensures !Eligible(DepreciatedTimes(a, n))
    decreases n
  {
    if a.currentValue == a.salvageValue {
      SalvageIsFixpoint(a, n);
    } else {
      assert n > 0;
      var b := Depreciated(a);
      assert Monthly(b) == Monthly(a);
      assert (n - 1) as real * Monthly(a) == n as real * Monthly(a) - Monthly(a);
      RunsReachSalvage(b, n - 1);
    }
  }

  /** An asset not above salvage stays as it is under any number of runs. */
  lemma {:induction false} SalvageIsFixpoint(a: Asset, n: nat)
    requires a.depreciationYears > 0.0 && a.currentValue <= a.salvageValue
    ensures DepreciatedTimes(a, n) == a
  {
    if n > 0 {
      SalvageIsFixpoint(Depreciated(a), n - 1);
    }
  }

  // ---------------------------------------------------------------------
  // The store

  class AssetStore {
    var assets: seq<Asset>
    var assignments: seq<Assignment>

    ghost predicate Valid()
      reads this
    {
      Consistent(assets, assignments)
    }

    constructor (initialAssets: seq<Asset>, initialAssignments: seq<Assignment>)
      ensures assets == initialAssets && assignments == initialAssignments
      ensures Consistent(initialAssets, initialAssignments) ==> Valid()
    {
      assets := initialAssets;
      assignments := initialAssignments;
    }

    /** A copy of all assets, in store order. */
    method GetAssets() returns (r: seq<Asset>)
      ensures r == assets
    {
      r := assets;
    }

    /** A copy of all assignment records, in store order. */
    method GetAssignments() returns (r: seq<Assignment>)
      ensures r == assignments
    {
      r := assignments;
    }

    /** Checkout. The asset must exist and be IN_STOCK and the user must be in
        the user directory `users`, checked in that order before anything
        changes; the asset then becomes ASSIGNED to the user at the user's
        location, and one open assignment is appended. `newId` and `today`
        stand for the clock-derived id and date. */
    method AssignAsset(assetId: string, userId: string, expectedReturn: Option<string>,
                       currentUserId: Option<string>, users: set<string>, newId: string, today: Date)
      returns (r: Outcome<AssetError>)
      modifies this
      ensures var found := FirstIndex(old(assets), HasId(assetId));
        && (found.None? ==> r == Fail(AssetNotFound))
        && (found.Some? && old(assets)[found.value].status != InStock ==>
              r == Fail(InvalidState(assetId, old(assets)[found.value].status)))
        && (found.Some? && old(assets)[found.value].status == InStock && userId !in users ==>
              r == Fail(UserNotFound))
        && (found.Some? && old(assets)[found.value].status == InStock && userId in users ==>
              && r == Pass
              && assets == old(assets)[found.value := old(assets)[found.value].(
                   status := Assigned, assignedTo := Some(userId), locationId := UserLocation(userId))]
              && assignments == old(assignments) +
                   [Assignment(newId, assetId, userId, today, expectedReturn, Approver(currentUserId), None, None)])
      ensures r.Fail? ==> assets == old(assets) && assignments == old(assignments)
      ensures old(Valid()) ==> Valid()
    {
      var found := FirstIndex(assets, HasId(assetId));
      if found.None? {
        return Fail(AssetNotFound);
      }
      var i := found.value;
      var asset := assets[i];
      if asset.status != InStock {
        return Fail(InvalidState(assetId, asset.status));
      }
      if userId !in users {
        return Fail(UserNotFound);
      }
      ghost var s0, g0 := assets, assignments;
      assets := assets[i := asset.(status := Assigned, assignedTo := Some(userId), locationId := UserLocation(userId))];
      var record := Assignment(newId, assetId, userId, today, expectedReturn, Approver(currentUserId), None, None);
      assignments := assignments + [record];
      if Consistent(s0, g0) {
        CheckoutKeepsConsistent(s0, g0, i, userId, record);
      }
      r := Pass;
    }

    /** Check-in of any existing asset, whatever its status: the first open
        assignment of the asset, if there is one, is stamped with `today` and
        the condition; the asset loses its assignee, moves to the returns area
        and becomes REPAIR when damaged, IN_STOCK otherwise. */
    method ReturnAsset(assetId: string, condition: ReturnCondition, today: Date) returns (r: Outcome<AssetError>)
      modifies this
      ensures var found := FirstIndex(old(assets), HasId(assetId));
        && (found.None? ==> r == Fail(AssetNotFound) && assets == old(assets) && assignments == old(assignments))
        && (found.Some? ==>
              && r == Pass
              && assets == old(assets)[found.value := old(assets)[found.value].(
                   assignedTo := None, status := StatusAfterReturn(condition), locationId := ReturnLocation)]
              && var open := FirstIndex(old(assignments), IsOpenFor(assetId));
                 assignments == if open.None? then old(assignments)
                   else old(assignments)[open.value := old(assignments)[open.value].(
                          returnedAt := Some(today), returnCondition := Some(condition))])
      ensures old(Valid()) ==> Valid()
    {
      var found := FirstIndex(assets, HasId(assetId));
      if found.None? {
        return Fail(AssetNotFound);
      }
      var i := found.value;
      ghost var s0, g0 := assets, assignments;
      var open := FirstIndex(assignments, IsOpenFor(assetId));
      if open.Some? {
        var k := open.value;
        assignments := assignments[k := assignments[k].(returnedAt := Some(today), returnCondition := Some(condition))];
      }
      assets := assets[i := assets[i].(assignedTo := None, status := StatusAfterReturn(condition), locationId := ReturnLocation)];
      if Consistent(s0, g0) {
        CheckinKeepsConsistent(s0, g0, i, condition, today);
      }
      r := Pass;
    }

    /** One depreciation run over the whole store: the assets become the
        depreciated store, and the run reports how many assets it processed
        and the total it deducted. */
    method RunDepreciation() returns (count: nat, total: real)
      requires HorizonsPositive(assets)
      modifies this
      ensures assignments == old(assignments)
      ensures assets == DepreciateAll(old(assets))
      ensures count == EligibleCount(old(assets))
      ensures total == TotalDeduction(old(assets))
      ensures old(Valid()) ==> Valid()
    {
      var next;
      next, count, total := DepreciationRun(assets);
      DepreciationKeepsConsistent(assets, assignments);
      assets := next;
    }

    /** The visual audit. The image is not inspected: the first two assets of
        the store count as detected, each detected LOST asset becomes
        IN_STOCK, and the audit reports the number detected and their tags in
        store order. */
    method PerformVisualAudit(imageData: string) returns (successCount: nat, tags: seq<string>)
      modifies this
      ensures assignments == old(assignments)
      ensures successCount == if |old(assets)| < 2 then |old(assets)| else 2
      ensures |tags| == successCount && forall k :: 0 <= k < successCount ==> tags[k] == old(assets)[k].tagId
      ensures |assets| == |old(assets)|
      ensures forall i :: 0 <= i < |assets| ==>
        assets[i] == if i < successCount && old(assets)[i].status == Lost then old(assets)[i].(status := InStock)
                     else old(assets)[i]
      ensures old(Valid()) ==> Valid()
    {
      var detected := if |assets| < 2 then |assets| else 2;
      ghost var before := assets;
      for k := 0 to detected
        invariant |assets| == |before| && assignments == old(assignments)
        invariant forall i :: 0 <= i < |assets| ==>
          assets[i] == if i < k && before[i].status == Lost then before[i].(status := InStock) else before[i]
      {
        if assets[k].status == Lost {
          assets := assets[k := assets[k].(status := InStock)];
        }
      }
      successCount := detected;
      tags := [];
      ghost var audited := assets;
      for k := 0 to detected
        invariant assets == audited && assignments == old(assignments)
        invariant |tags| == k && forall j :: 0 <= j < k ==> tags[j] == assets[j].tagId
      {
        tags := tags + [assets[k].tagId];
      }
      if Consistent(before, assignments) {
        assert Consistent(assets, assignments);
      }
    }
  }

  /** Checking out an IN_STOCK asset keeps the store consistent. */
  lemma CheckoutKeepsConsistent(s: seq<Asset>, g: seq<Assignment>, i: nat, userId: string, record: Assignment)
    requires Consistent(s, g) && i < |s| && s[i].status == InStock
    requires record.assetId == s[i].id && record.userId == userId && record.IsOpen()
    ensures Consistent(s[i := s[i].(status := Assigned, assignedTo := Some(userId), locationId := UserLocation(userId))],
                       g + [record])
  {
  }

  /** Checking in an asset keeps the store consistent. */
  lemma CheckinKeepsConsistent(s: seq<Asset>, g: seq<Assignment>, i: nat, condition: ReturnCondition, today: Date)
    requires Consistent(s, g) && i < |s|
    ensures var open := FirstIndex(g, IsOpenFor(s[i].id));
      Consistent(s[i := s[i].(assignedTo := None, status := StatusAfterReturn(condition), locationId := ReturnLocation)],
                 if open.None? then g
                 else g[open.value := g[open.value].(returnedAt := Some(today), returnCondition := Some(condition))])
  {
  }

  // ---------------------------------------------------------------------
  // The seeded store

  function SeedAssets(): (s: seq<Asset>)
    ensures forall i :: 0 <= i < |s| ==> s[i].depreciationYears > 0.0 && s[i].cost > s[i].salvageValue
  {
    [ Asset("asset-001", "AS-2025-001", "MacBook Pro 16\" (M3 Max)", Hardware, Assigned, "room-101", "2025-01-01",
            120000.0, 10000.0, 3.0, 110000.0, Some("uuid-002")),
      Asset("asset-002", "AS-2025-002", "Dell UltraSharp 27\" 4K", Hardware, InStock, "room-store-a", "2025-01-15",
            20000.0, 2000.0, 3.0, 19500.0, None),
      Asset("asset-003", "SW-2025-001", "JetBrains All Products Pack", License, Assigned, "digital", "2025-02-01",
            8000.0, 0.0, 1.0, 7500.0, Some("uuid-002")) ]
  }

  function SeedAssignments(): (g: seq<Assignment>)
    ensures forall k :: 0 <= k < |g| ==> g[k].IsOpen()
  {
    [ Assignment("assign-001", "asset-001", "uuid-002", "2025-01-05", Some("2027-01-05"), "uuid-001", None, None),
      Assignment("assign-002", "asset-003", "uuid-002", "2025-02-01", None, "uuid-000", None, None) ]
  }

  /** The seeded store satisfies the lifecycle invariant. */
  lemma SeedIsConsistent()
    ensures Consistent(SeedAssets(), SeedAssignments())
  {
  }

  /** asset-001 (cost 120000, salvage 10000, 3 years, value 110000) loses
      110000 / 36 in one run. */
  lemma SeedAssetOneRun()
    ensures Eligible(SeedAssets()[0])
    ensures Deduction(SeedAssets()[0]) == 27500.0 / 9.0
    ensures Depreciated(SeedAssets()[0]).currentValue == 110000.0 - 27500.0 / 9.0
  {
    var a := SeedAssets()[0];
    assert Monthly(a) == 110000.0 / 36.0;
  }
}
