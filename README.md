# DependencySet: the push-publish dependency filter

This project models `DependencySet`, the set of asset identifiers that the
dotCMS push-publish machinery builds up for one bundle operation. A candidate
`(assetId, modDate)` is offered to the filter through `add` or `addOrClean`.
The filter decides whether the asset has to travel to the bundle's
environments. As side effects it removes pushed-assets cache entries when the
bundle unpublishes, and it writes a push-history record when an asset is
judged modified for an environment.

The model has six modules:

- `PublisherTypes` (`types.dfy`): identifiers, timestamps as naturals
  (`Before` is `Date.before`), `Option`, `Fetch` (a collaborator call that
  either returns a value or throws), `Bundle`, `PushedAsset` and `CacheKey`.
- `PushedAssets` (`pushed_assets.dfy`): the push-history store as a sequence
  of `PushedAsset` rows and the pushed-assets cache as a set of keys. Both are
  classes, because the filter changes them. Three queries are defined here:
  the latest push of an asset to an environment (`LastPush`), the rows of one
  asset (`ForAsset`, which stands for `getPushedAssets`), and the dedup scan
  (`IsAlreadyInBundle`).
- `Versionable` (`versions.dfy`): read-only version metadata, meaning the
  language list, per-language contentlet version info and single version
  info. Each lookup may throw.
- `Decision` (`decision.dfy`): the pure specification of one call. `Step`
  maps the filter's fixed configuration, the call's inputs and the state
  before the call to the answer and the state after. That state is the
  result set, the push history and the cache.
- `PublisherUtil` (`dependency_set.dfy`): the class `DependencySet`. Its
  constructor resolves the environments and the bundle. Its methods `Add`,
  `AddOrClean` and `Evaluate` (the private three-argument `addOrClean`) run
  the source's loops. Each method is proved to produce exactly `Step`'s
  answer and new state.
- `DecisionProperties` (`decision_properties.dfy`): the properties of
  `Step`, and of a sequence of calls (`Run`).

Inputs the source gets from global services or the clock are explicit here:

- the push-history store and the cache are objects passed to the constructor;
- the version metadata is a `VersionStore` value passed to each call;
- which last-push lookups throw, and which save paths throw, is a `Faults`
  value passed to each call;
- `new Date()` is the `now` parameter.

Behaviours of the code that the model keeps as written:

- The asset-type strings tested are `"content"`, `"template"`, `"links"`,
  `"container"` and `"htmlpage"` (`DependencySet.java:114,123`).
- When a last-push lookup throws, the call returns true but does not add the
  asset to the set.
- In unpublish mode, `add` does add the asset to the set.
- An exception in the version check keeps the value `modified` had reached,
  which for content can already be true. It does not always fall back to
  "not modified".
- The answer in conditional mode is `modified` as computed for the last
  environment, not an aggregate over all environments.
  `EarlierEnvironmentOverridden` shows a concrete case. An asset never
  pushed to `E1` gets a push record for `E1`. It is still left out of the
  bundle, because it is up to date on `E2`. The comment in the source at
  lines 90-94 says a stale environment should be enough to include the
  asset. The model keeps the code's behaviour.

## Model

| member | source | states |
|---|---|---|
| PublisherUtil.DependencySet.constructor | src/com/dotcms/publisher/util/DependencySet.java:35-54 | the set starts empty; the environments are the lookup's result, or none when it throws; the bundle is the lookup's result, or none when it throws; force push holds exactly when a bundle was found and has its flag set |
| PublisherUtil.DependencySet.Add | src/com/dotcms/publisher/util/DependencySet.java:56-58 | the answer, the new result set, push history and cache are those of `Step` with cleaning off |
| PublisherUtil.DependencySet.AddOrClean | src/com/dotcms/publisher/util/DependencySet.java:69-71 | the answer, the new result set, push history and cache are those of `Step` with cleaning on |
| PublisherUtil.DependencySet.Evaluate | src/com/dotcms/publisher/util/DependencySet.java:73-172 | the cache-cleaning loop, the environment loop with its early return, the dedup check and the final inclusion test together compute exactly `Step`'s answer and new state |
| PublisherUtil.CheckVersionInfo | src/com/dotcms/publisher/util/DependencySet.java:113-133 | the language loop and the single version check inside the `try`, with their exceptions, give `VersionsShowModified` |
| PushedAssets.IsAlreadyInBundle | src/com/dotcms/publisher/util/DependencySet.java:140-148 | the flag is set exactly when some row of the asset belongs to this bundle and environment |
| PushedAssets.ForAsset | src/com/dotcms/publisher/util/DependencySet.java:139 | the rows returned are exactly the history's rows for that asset |
| PushedAssets.LastPushIsLatest | src/com/dotcms/publisher/util/DependencySet.java:105-111 | the last push is absent exactly when the asset has no row for that environment; otherwise it is the date of such a row, and no such row is later |
| PushedAssets.PushedAssetsStore.SavePushedAsset | src/com/dotcms/publisher/util/DependencySet.java:152-153 | saving appends the record to the history |
| PushedAssets.PushedAssetsCache.RemovePushedAssetById | src/com/dotcms/publisher/util/DependencySet.java:78-80 | removing drops exactly the entry for that asset and environment |
| DecisionProperties.UnpublishCleanup | src/com/dotcms/publisher/util/DependencySet.java:69-86 | when unpublishing, `addOrClean` answers true; the result set and the push history are unchanged; the cache loses the asset's entry for every environment and nothing else |
| DecisionProperties.AddWhileUnpublishing | src/com/dotcms/publisher/util/DependencySet.java:75-168 | when unpublishing, `add` cleans the cache the same way, writes no push record, adds the asset and answers true |
| DecisionProperties.ForcePushOrDownloadIncludes | src/com/dotcms/publisher/util/DependencySet.java:96-168 | with force push or download while publishing, the asset is added and the answer is true; the push history and the cache are untouched |
| DecisionProperties.NoEnvironmentsExcludes | src/com/dotcms/publisher/util/DependencySet.java:166-171 | in conditional mode with no environments, the answer is false and nothing changes |
| DecisionProperties.LookupFailureStops | src/com/dotcms/publisher/util/DependencySet.java:102-109 | a throwing last-push lookup answers true at once; the result set and the cache are unchanged; the history holds only what the earlier environments wrote; later environments play no part |
| DecisionProperties.LastEnvironmentWins | src/com/dotcms/publisher/util/DependencySet.java:111-166 | in conditional mode, when no last-push lookup throws and the last environment does not occur earlier in the list, the answer is `modified` for the last environment against the history as it was before the call |
| DecisionProperties.EarlierEnvironmentOverridden | src/com/dotcms/publisher/util/DependencySet.java:88-171 | a concrete bundle where an environment never pushed to gets a record, yet the asset is left out because the last environment is up to date |
| DecisionProperties.EnvModifiedCases | src/com/dotcms/publisher/util/DependencySet.java:111-133 | never pushed, or pushed before `modDate`, means modified; for content, a refined "modified" comes from a language with a newer or missing version timestamp; for template, links, container and htmlpage it is `modDate` before the single version timestamp; for other types there is no refinement |
| DecisionProperties.ContentScanSound | src/com/dotcms/publisher/util/DependencySet.java:116-121 | the language loop only sets `modified` for a language whose info has an identifier and a missing or later version timestamp |
| DecisionProperties.ContentScanComplete | src/com/dotcms/publisher/util/DependencySet.java:116-121 | with a modification date and no throwing lookup, the loop finds the content modified exactly when such a language exists |
| DecisionProperties.ContentScanStopsAtFailure | src/com/dotcms/publisher/util/DependencySet.java:113-133 | a throwing language lookup ends the check with the value `modified` had reached before it; later languages play no part |
| DecisionProperties.EnvRecordedIff | src/com/dotcms/publisher/util/DependencySet.java:135-161 | in conditional mode, for an environment that occurs once in the list and with no last-push lookup throwing for it or any environment before it, a push row for that environment is written exactly when the asset is modified there, its save path does not throw and the history has no row for that bundle, asset and environment; then there is exactly one new row for it, this bundle's with the current time |
| DecisionProperties.SaveFailuresKeepAnswer | src/com/dotcms/publisher/util/DependencySet.java:135-161 | in conditional mode, when no last-push lookup throws and the last environment does not occur earlier in the list, which saves throw does not change the answer |
| DecisionProperties.InBundleForAsset | src/com/dotcms/publisher/util/DependencySet.java:139-148 | scanning the asset's rows for bundle and environment finds a row exactly when the whole history has one for that bundle, asset and environment |
| DecisionProperties.RecordPushKeepsAtMostOnce | src/com/dotcms/publisher/util/DependencySet.java:135-154 | the bookkeeping for one environment never adds a second row for a bundle, asset and environment |
| DecisionProperties.NoDuplicatePushRecords | src/com/dotcms/publisher/util/DependencySet.java:135-161 | one call keeps every bundle, asset and environment at one push row at most |
| DecisionProperties.RepeatedCallsRecordOnce | src/com/dotcms/publisher/util/DependencySet.java:139-154 | any sequence of calls on one filter keeps every bundle, asset and environment at one push row at most |
| DecisionProperties.PushHistoryGrowsByOwnRows | src/com/dotcms/publisher/util/DependencySet.java:101-154 | the history only grows; every new row has this bundle, asset, type, the current time and one of the filter's environments; outside conditional mode it does not change |
| DecisionProperties.SetBehaviour | src/com/dotcms/publisher/util/DependencySet.java:166-171 | the result set gains at most the candidate; a false answer leaves the set and the cache unchanged; adding a present id changes nothing |
| DecisionProperties.FirstPushRecorded | src/com/dotcms/publisher/util/DependencySet.java:111-154 | in conditional mode, an asset never pushed to the single environment, whose last-push lookup and save path do not throw, is added, and exactly one push record is written for it |
| DecisionProperties.UpToDateExcluded | src/com/dotcms/publisher/util/DependencySet.java:111-171 | in conditional mode with a single environment whose last-push lookup does not throw, an asset with a modification date, last pushed no earlier than that date and with no newer version, is left out, and nothing is written |

## Left out

- The services behind `APILocator` and `CacheLocator` are not modelled:
  environments, bundles, pushed assets, versionables and languages. Their
  results and their exceptions are inputs. `getLastPushForAsset` is taken to
  return the row with the latest push date for the asset and environment.
- `InodeUtils.isSet` is not modelled. Whether a version info has a set
  identifier is the boolean `hasIdentifier`.
- `Logger` calls are left out. They have no effect on the decision or the
  state.
- Each collaborator answers the same way every time within one call. A
  version lookup that fails for one environment of a call fails for every
  environment of that call.
- The two store calls in the dedup block (`getPushedAssets` and
  `savePushedAsset`) share one failure input per environment. Either one
  throwing leaves the history unchanged.
- The asset type is always a non-null
  string. The `NullPointerException` a null asset type would raise inside
  the version check is not modelled.
- The check-then-insert race between `getPushedAssets` and
  `savePushedAsset` under concurrent callers is not modelled, because the
  model is sequential.
- `java.util.Date` is modelled as a natural number of milliseconds, and
  `new Date()` as the `now` parameter.
- The source takes `new Date()` afresh for each saved record; the model uses
  one `now` for every environment of a call.
- `HashSet` serialization and the inherited set methods other than `add`
  are not modelled.
- Whatever the store does to the cache on its own when it saves a record is
  not modelled. The only cache change the filter makes is removal.
- `src/com/dotcms/rest/RulesResource.java` and
  `src/com/dotmarketing/portlets/rules/actionlet/SetSessionAttributeActionlet.java`
  are not part of this model. They are REST and session plumbing, unrelated
  to the filter.
