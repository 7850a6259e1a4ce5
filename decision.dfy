/** The decision one `addOrClean` call of the dependency filter makes, as a
    function of the filter's fixed configuration, the call's inputs and the
    state before the call (result set, push history, pushed-assets cache).
    The methods of `PublisherUtil.DependencySet` are proved to compute it. */
module Decision {
  import opened PublisherTypes
  import opened PushedAssets
  import opened Versionable

  const ContentType := "content"

  /** The asset types whose single, language-independent version timestamp is consulted. */
  predicate HasSingleVersion(assetType: string) {
    assetType == "template" || assetType == "links" || assetType == "container" || assetType == "htmlpage"
  }

  /** Which collaborator calls throw during one call: the last-push lookup for
      the environments in `lastPushFails`, and the dedup query or the save of
      the push record for the environments in `saveFails`. */
  datatype Faults = Faults(lastPushFails: set<EnvId>, saveFails: set<EnvId>)

  /** The inputs of one call: the candidate and its modification date (`None`
      for a null date), the version metadata, the failures and the clock. */
  datatype Call = Call(assetId: AssetId, modDate: Option<Date>, versions: VersionStore, faults: Faults, now: Date)

  /** What the filter fixed at construction. */
  datatype Config = Config(
    bundleId: BundleId,
    assetType: string,
    envs: seq<EnvId>,
    forcePush: bool,
    isDownload: bool,
    isPublish: bool)

  /** The one mode that performs change detection: no force push, no download, publish. */
  predicate Conditional(cfg: Config) {
    !cfg.forcePush && !cfg.isDownload && cfg.isPublish
  }

  datatype State = State(contents: set<AssetId>, pushed: seq<PushedAsset>, cache: set<CacheKey>)

  datatype Outcome = Outcome(included: bool, state: State)

  /** `isForcePush`: false when the bundle could not be found. */
  function ForcePush(bundle: Option<Bundle>): bool {
    bundle.Some? && bundle.value.forcePush
  }

  /** The cache with the entries of `assetId` for every environment in `envs` removed. */
  function Uncache(cache: set<CacheKey>, assetId: AssetId, envs: seq<EnvId>): set<CacheKey> {
    set k | k in cache && !(k.assetId == assetId && k.envId in envs)
  }

  /** The check against the last push: never pushed, or pushed before the
      (non-null) modification date. */
  predicate PushedBefore(lastPush: Option<Date>, modDate: Option<Date>) {
    lastPush.None? || (modDate.Some? && Before(lastPush.value, modDate.value))
  }

  /** The loop over the languages for a content asset, from the value
      `modified` has on entry; a throwing lookup, or a null `modDate` compared
      with a version timestamp, ends it with the value reached so far. */
  function ContentScan(langs: seq<LangId>, assetId: AssetId, modDate: Option<Date>,
                       versions: VersionStore, modified: bool): bool
    decreases |langs|
  {
    if langs == [] then modified
    else
      match versions.ContentletVersionInfo(assetId, langs[0])
      case Failed => modified
      case Fetched(None) => ContentScan(langs[1..], assetId, modDate, versions, modified)
      case Fetched(Some(info)) =>
        if !info.hasIdentifier then ContentScan(langs[1..], assetId, modDate, versions, modified)
        else if modified || info.versionTs.None? then ContentScan(langs[1..], assetId, modDate, versions, true)
        else if modDate.None? then modified
        else ContentScan(langs[1..], assetId, modDate, versions, Before(modDate.value, info.versionTs.value))
  }

  /** What the version metadata says when the last-push check said "not
      modified"; any exception leaves that "not modified" in place. */
  function VersionsShowModified(assetType: string, assetId: AssetId, modDate: Option<Date>,
                                versions: VersionStore): bool
  {
    if assetType == ContentType then
      match versions.languages
      case Failed => false
      case Fetched(langs) => ContentScan(langs, assetId, modDate, versions, false)
    else if HasSingleVersion(assetType) then
      match versions.GetVersionInfo(assetId)
      case Failed => false
      case Fetched(None) => false
      case Fetched(Some(info)) =>
        info.hasIdentifier && modDate.Some? && info.versionTs.Some? &&
        Before(modDate.value, info.versionTs.value)
    else false
  }

  /** `modified` as computed for one environment whose last push is `lastPush`. */
  predicate EnvModified(cfg: Config, call: Call, lastPush: Option<Date>) {
    PushedBefore(lastPush, call.modDate) ||
    VersionsShowModified(cfg.assetType, call.assetId, call.modDate, call.versions)
  }

  /** The push history after the bookkeeping for an environment where the
      asset is modified: a new record unless the save path throws or the
      asset already has a record for this bundle and environment. */
  function RecordPush(cfg: Config, call: Call, env: EnvId, pushed: seq<PushedAsset>): seq<PushedAsset> {
    if env in call.faults.saveFails then pushed
    else if InBundle(ForAsset(pushed, call.assetId), cfg.bundleId, env) then pushed
    else pushed + [PushedAsset(cfg.bundleId, call.assetId, cfg.assetType, call.now, env)]
  }

  /** Where the loop over the environments ends: on a failed last-push
      lookup (`lookupFailed`), or after the last environment with `modified`
      as the last iteration left it; and the push history by then. */
  datatype Scan = Scan(lookupFailed: bool, modified: bool, pushed: seq<PushedAsset>)

  function ScanEnvs(cfg: Config, call: Call, envs: seq<EnvId>, modified: bool, pushed: seq<PushedAsset>): Scan
    decreases |envs|
  {
    if envs == [] then Scan(false, modified, pushed)
    else if envs[0] in call.faults.lastPushFails then Scan(true, modified, pushed)
    else
      var m := EnvModified(cfg, call, LastPush(pushed, call.assetId, envs[0]));
      ScanEnvs(cfg, call, envs[1..], m, if m then RecordPush(cfg, call, envs[0], pushed) else pushed)
  }

  /** One call of `addOrClean(assetId, modDate, clean)`: `clean` is true for
      the public two-argument `addOrClean` and false for `add`. */
  function Step(cfg: Config, call: Call, clean: bool, s: State): Outcome {
    var cache := if !cfg.isPublish then Uncache(s.cache, call.assetId, cfg.envs) else s.cache;
    if !cfg.isPublish && clean then
      Outcome(true, State(s.contents, s.pushed, cache))
    else if Conditional(cfg) then
      var scan := ScanEnvs(cfg, call, cfg.envs, false, s.pushed);
      if scan.lookupFailed then Outcome(true, State(s.contents, scan.pushed, cache))
      else if scan.modified then Outcome(true, State(s.contents + {call.assetId}, scan.pushed, cache))
      else Outcome(false, State(s.contents, scan.pushed, cache))
    else
      Outcome(true, State(s.contents + {call.assetId}, s.pushed, cache))
  }
}
