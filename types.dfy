/** Value types shared by the push-publish dependency filter: identifiers,
    timestamps, the bundle descriptor, the pushed-asset record and the
    pushed-assets cache key. */
module PublisherTypes {

  /** Timestamps (`java.util.Date`) as milliseconds; `Before(a, b)` is `a.before(b)`. */
  type Date = nat
  type AssetId = string
  type EnvId = string
  type BundleId = string
  type LangId = int

  predicate Before(a: Date, b: Date) { a < b }

  datatype Option<+T> = None | Some(value: T)

  /** The result of a call into a collaborator that may throw: either the
      value it returned or the fact that it threw. */
  datatype Fetch<+T> = Fetched(value: T) | Failed

  /** The bundle descriptor: only the force-push flag matters here. */
  datatype Bundle = Bundle(id: BundleId, forcePush: bool)

  /** One row of the push history: `asset` of `assetType` was pushed to
      environment `environmentId` as part of bundle `bundleId` at `pushDate`. */
  datatype PushedAsset = PushedAsset(
    bundleId: BundleId,
    assetId: AssetId,
    assetType: string,
    pushDate: Date,
    environmentId: EnvId)

  /** An entry of the pushed-assets cache, keyed by asset and environment. */
  datatype CacheKey = CacheKey(assetId: AssetId, envId: EnvId)
}
