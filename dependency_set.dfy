/** The push-publish dependency filter: a set of asset identifiers built up
    for one bundle operation, which admits a candidate only when it has to
    travel to the bundle's environments, and keeps the push history and the
    pushed-assets cache up to date as a side effect. */
module PublisherUtil {
  import opened PublisherTypes
  import opened PushedAssets
  import opened Versionable
  import opened Decision

  /** The version-metadata check that refines a "not modified" verdict, as
      the statements inside the `try` block run: an exception (a throwing
      lookup or a null date dereferenced) leaves the value reached so far. */
  method CheckVersionInfo(assetType: string, assetId: AssetId, modDate: Option<Date>, versions: VersionStore)
    returns (modified: bool)
    ensures modified == VersionsShowModified(assetType, assetId, modDate, versions)
  {
    modified := false;
    if assetType == ContentType {
      if versions.languages.Failed? {
        return;
      }
      var langs := versions.languages.value;
      var i := 0;
      while i < |langs|
        invariant 0 <= i <= |langs|
        invariant ContentScan(langs, assetId, modDate, versions, false) ==
                  ContentScan(langs[i..], assetId, modDate, versions, modified)
      {
        var lookup := versions.ContentletVersionInfo(assetId, langs[i]);
        if lookup.Failed? {
          return;
        }
        if lookup.value.Some? && lookup.value.value.hasIdentifier {
          var info := lookup.value.value;
          if modified || info.versionTs.None? {
            modified := true;
          } else if modDate.None? {
            return;
          } else {
            modified := Before(modDate.value, info.versionTs.value);
          }
        }
        i := i + 1;
      }
    }
    if !modified && HasSingleVersion(assetType) {
      var lookup := versions.GetVersionInfo(assetId);
      if lookup.Failed? {
        return;
      }
      if lookup.value.Some? && lookup.value.value.hasIdentifier {
        var info := lookup.value.value;
        if modDate.None? || info.versionTs.None? {
          return;
        }
        modified := Before(modDate.value, info.versionTs.value);
      }
    }
  }

  class DependencySet {
    /** The elements of the set itself. */
    var contents: set<AssetId>

    const store: PushedAssetsStore
    const cache: PushedAssetsCache
    const envs: seq<EnvId>
    const assetType: string
    const bundleId: BundleId
    const bundle: Option<Bundle>
    const isDownload: bool
    const isPublish: bool

    function Config(): Config {
      Decision.Config(bundleId, assetType, envs, ForcePush(bundle), isDownload, isPublish)
    }

    function State(): State
      reads this, store, cache
    {
      Decision.State(contents, store.records, cache.entries)
    }

    /** `environments` and `bundleLookup` are what the environment and bundle
        lookups for `bundleId` returned, or `Failed` when they threw. */
    constructor (bundleId: BundleId, assetType: string, isDownload: bool, isPublish: bool,
                 store: PushedAssetsStore, cache: PushedAssetsCache,
                 environments: Fetch<seq<EnvId>>, bundleLookup: Fetch<Option<Bundle>>)
      ensures contents == {}
      ensures this.store == store && this.cache == cache
      ensures this.bundleId == bundleId && this.assetType == assetType
      ensures this.isDownload == isDownload && this.isPublish == isPublish
      ensures envs == if environments.Fetched? then environments.value else []
      ensures bundle == if bundleLookup.Fetched? then bundleLookup.value else None
      ensures Config().forcePush <==> bundleLookup.Fetched? && bundleLookup.value.Some? && bundleLookup.value.value.forcePush
    {
      contents := {};
      this.store := store;
      this.cache := cache;
      this.assetType := assetType;
      this.bundleId := bundleId;
      this.isDownload := isDownload;
      this.isPublish := isPublish;
      envs := if environments.Fetched? then environments.value else [];
      bundle := if bundleLookup.Fetched? then bundleLookup.value else None;
    }

    /** `add(assetId, modDate)`. */
    method Add(assetId: AssetId, modDate: Option<Date>, versions: VersionStore, faults: Faults, now: Date)
      returns (r: bool)
      modifies this, store, cache
      ensures Outcome(r, State()) == Step(Config(), Call(assetId, modDate, versions, faults, now), false, old(State()))
    {
      r := Evaluate(assetId, modDate, false, versions, faults, now);
    }

    /** The public `addOrClean(assetId, modDate)`. */
    method AddOrClean(assetId: AssetId, modDate: Option<Date>, versions: VersionStore, faults: Faults, now: Date)
      returns (r: bool)
      modifies this, store, cache
      ensures Outcome(r, State()) == Step(Config(), Call(assetId, modDate, versions, faults, now), true, old(State()))
    {
      r := Evaluate(assetId, modDate, true, versions, faults, now);
    }

    /** The private `addOrClean(assetId, modDate, cleanForUnpublish)`. */
    method Evaluate(assetId: AssetId, modDate: Option<Date>, cleanForUnpublish: bool,
                    versions: VersionStore, faults: Faults, now: Date)
      returns (r: bool)
      modifies this, store, cache
      ensures Outcome(r, State()) ==
              Step(Config(), Call(assetId, modDate, versions, faults, now), cleanForUnpublish, old(State()))
    {
      ghost var call := Call(assetId, modDate, versions, faults, now);
      ghost var s0 := State();

      if !isPublish {
        // For an unpublish the asset always leaves the cache.
        var i := 0;
        while i < |envs|
          invariant 0 <= i <= |envs|
          invariant cache.entries == Uncache(s0.cache, assetId, envs[..i])
          invariant contents == s0.contents && store.records == s0.pushed
          modifies cache
        {
          cache.RemovePushedAssetById(assetId, envs[i]);
          assert envs[..i + 1] == envs[..i] + [envs[i]];
          i := i + 1;
        }
        assert envs[..i] == envs;
        if cleanForUnpublish {
          return true;
        }
      }

      var modified := false;
      var isForcePush := false;
      if bundle.Some? {
        isForcePush := bundle.value.forcePush;
      }

      if !isForcePush && !isDownload && isPublish {
        var i := 0;
        while i < |envs|
          invariant 0 <= i <= |envs|
          invariant ScanEnvs(Config(), call, envs, false, s0.pushed) ==
                    ScanEnvs(Config(), call, envs[i..], modified, store.records)
          invariant contents == s0.contents && cache.entries == s0.cache
        {
          var env := envs[i];
          if env in faults.lastPushFails {
            // The asset is not known to the push history: include it, without adding it.
            return true;
          }
          modified := PushedBefore(LastPush(store.records, assetId, env), modDate);
          if !modified {
            modified := CheckVersionInfo(assetType, assetId, modDate, versions);
          }
          if modified && env !in faults.saveFails {
            var pushedAssets := ForAsset(store.records, assetId);
            var isAlreadyInBundle := IsAlreadyInBundle(pushedAssets, bundleId, env);
            if !isAlreadyInBundle {
              store.SavePushedAsset(PushedAsset(bundleId, assetId, assetType, now, env));
            }
          }
          i := i + 1;
        }
      }

      if isForcePush || isDownload || !isPublish || modified {
        contents := contents + {assetId};
        return true;
      }
      return false;
    }
  }
}
