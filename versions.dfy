/** Read-only version metadata: the configured languages, the per-language
    version info of contentlets and the version info of other versionables.
    Every lookup may throw, which `Fetch.Failed` stands for; a missing entry
    stands for a lookup that returns null. */
module Versionable {
  import opened PublisherTypes

  /** `hasIdentifier` is `InodeUtils.isSet(info.getIdentifier())`;
      `versionTs` is `info.getVersionTs()`, `None` when it is null. */
  datatype VersionInfo = VersionInfo(hasIdentifier: bool, versionTs: Option<Date>)

  datatype VersionStore = VersionStore(
    languages: Fetch<seq<LangId>>,
    contentlet: map<(AssetId, LangId), Fetch<Option<VersionInfo>>>,
    versionable: map<AssetId, Fetch<Option<VersionInfo>>>)
  {
    /** `getContentletVersionInfo(assetId, langId)`. */
    function ContentletVersionInfo(assetId: AssetId, langId: LangId): Fetch<Option<VersionInfo>> {
      if (assetId, langId) in contentlet then contentlet[(assetId, langId)] else Fetched(None)
    }

    /** `getVersionInfo(assetId)`. */
    function GetVersionInfo(assetId: AssetId): Fetch<Option<VersionInfo>> {
      if assetId in versionable then versionable[assetId] else Fetched(None)
    }
  }
}
