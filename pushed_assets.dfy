/** The push history and the pushed-assets cache, seen from the dependency
    filter: the store is a log of `PushedAsset` rows queried by asset, by
    asset and environment (latest push), and appended to; the cache is a set
    of (asset, environment) keys from which entries are removed. */
module PushedAssets {
  import opened PublisherTypes

  predicate Matches(p: PushedAsset, assetId: AssetId, envId: EnvId) {
    p.assetId == assetId && p.environmentId == envId
  }

  /** `p` records a push of `assetId` to `envId` within bundle `bundleId`. */
  predicate IsTriple(p: PushedAsset, bundleId: BundleId, assetId: AssetId, envId: EnvId) {
    p.bundleId == bundleId && Matches(p, assetId, envId)
  }

  /** The later of a known latest date and one more date. */
  function Later(latest: Option<Date>, d: Date): Option<Date> {
    if latest.Some? && !Before(latest.value, d) then latest else Some(d)
  }

  /** The push date of the last push of `assetId` to `envId`, or `None`
      when it was never pushed there (`getLastPushForAsset` returning null). */
  function LastPush(records: seq<PushedAsset>, assetId: AssetId, envId: EnvId): Option<Date>
    decreases |records|
  {
    if records == [] then None
    else
      var latest := LastPush(records[..|records| - 1], assetId, envId);
      var p := records[|records| - 1];
      if Matches(p, assetId, envId) then Later(latest, p.pushDate) else latest
  }

  /** `LastPush` is `None` exactly when no row is for that asset and
      environment, and otherwise the date of such a row that no other such
      row is later than. */
  lemma {:induction false} LastPushIsLatest(records: seq<PushedAsset>, assetId: AssetId, envId: EnvId)
    ensures LastPush(records, assetId, envId).None? <==>
              forall i :: 0 <= i < |records| ==> !Matches(records[i], assetId, envId)
    ensures LastPush(records, assetId, envId).Some? ==>
              (exists i :: 0 <= i < |records| && Matches(records[i], assetId, envId)
                           && records[i].pushDate == LastPush(records, assetId, envId).value)
    ensures LastPush(records, assetId, envId).Some? ==>
              forall i :: 0 <= i < |records| && Matches(records[i], assetId, envId) ==>
                            records[i].pushDate <= LastPush(records, assetId, envId).value
    decreases |records|
  {
    if records != [] {
      var n := |records| - 1;
      var init := records[..n];
      LastPushIsLatest(init, assetId, envId);
      assert forall i :: 0 <= i < n ==> records[i] == init[i];
      var latest := LastPush(init, assetId, envId);
      if Matches(records[n], assetId, envId) && !(latest.Some? && !Before(latest.value, records[n].pushDate)) {
        assert LastPush(records, assetId, envId) == Some(records[n].pushDate);
      }
    }
  }

  /** `getPushedAssets(assetId)`: the rows of the history for one asset, in order. */
  function ForAsset(records: seq<PushedAsset>, assetId: AssetId): (r: seq<PushedAsset>)
    ensures forall p :: p in r <==> p in records && p.assetId == assetId
    decreases |records|
  {
    if records == [] then []
    else
      var rest := ForAsset(records[1..], assetId);
      if records[0].assetId == assetId then [records[0]] + rest else rest
  }

  /** Some row of `pushed` belongs to bundle `bundleId` and environment `envId`. */
  predicate InBundle(pushed: seq<PushedAsset>, bundleId: BundleId, envId: EnvId) {
    exists i :: 0 <= i < |pushed| && pushed[i].bundleId == bundleId && pushed[i].environmentId == envId
  }

  /** The scan over the asset's rows that sets `isAlreadyInPushedBunble`. */
  method IsAlreadyInBundle(pushed: seq<PushedAsset>, bundleId: BundleId, envId: EnvId) returns (found: bool)
    ensures found == InBundle(pushed, bundleId, envId)
  {
    found := false;
    var i := 0;
    while i < |pushed|
      invariant 0 <= i <= |pushed|
      invariant found <==> exists k :: 0 <= k < i && pushed[k].bundleId == bundleId && pushed[k].environmentId == envId
    {
      if pushed[i].bundleId == bundleId && pushed[i].environmentId == envId {
        found := true;
      }
      i := i + 1;
    }
  }

  /** The history holds at most one row for bundle, asset and environment. */
  predicate AtMostOnce(records: seq<PushedAsset>, bundleId: BundleId, assetId: AssetId, envId: EnvId) {
    forall i, j ::
      (0 <= i < |records| && 0 <= j < |records| &&
       IsTriple(records[i], bundleId, assetId, envId) && IsTriple(records[j], bundleId, assetId, envId)) ==> i == j
  }

  /** The push-history table behind `getLastPushForAsset`, `getPushedAssets`
      and `savePushedAsset`. */
  class PushedAssetsStore {
    var records: seq<PushedAsset>

    constructor (records: seq<PushedAsset>)
      ensures this.records == records
    {
      this.records := records;
    }

    method SavePushedAsset(p: PushedAsset)
      modifies this
      ensures records == old(records) + [p]
    {
      records := records + [p];
    }
  }

  /** The pushed-assets cache; the filter only ever removes from it. */
  class PushedAssetsCache {
    var entries: set<CacheKey>

    constructor (entries: set<CacheKey>)
      ensures this.entries == entries
    {
      this.entries := entries;
    }

    method RemovePushedAssetById(assetId: AssetId, envId: EnvId)
      modifies this
      ensures entries == old(entries) - {CacheKey(assetId, envId)}
    {
      entries := entries - {CacheKey(assetId, envId)};
    }
  }
}
