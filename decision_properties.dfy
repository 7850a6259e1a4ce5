/** What one call of the dependency filter guarantees, and what a sequence
    of calls on one filter guarantees about the push history. */
module DecisionProperties {
  import opened PublisherTypes
  import opened PushedAssets
  import opened Versionable
  import opened Decision

  /** `after` is `before` without the entries of `assetId` for the
      environments in `envs`, and nothing else is removed. */
  ghost predicate CacheCleaned(before: set<CacheKey>, after: set<CacheKey>, assetId: AssetId, envs: seq<EnvId>) {
    && after <= before
    && (forall e :: e in envs ==> CacheKey(assetId, e) !in after)
    && (forall k :: k in before && (k.assetId != assetId || k.envId !in envs) ==> k in after)
  }

  // ---------------------------------------------------------------- modes

  /** The public `addOrClean` of an unpublishing filter only cleans the
      cache: it answers true, adds nothing and writes no push record. */
  lemma UnpublishCleanup(cfg: Config, call: Call, s: State)
    requires !cfg.isPublish
    ensures var o := Step(cfg, call, true, s);
            && o.included
            && o.state.contents == s.contents
            && o.state.pushed == s.pushed
            && CacheCleaned(s.cache, o.state.cache, call.assetId, cfg.envs)
  {
  }

  /** `add` on an unpublishing filter cleans the cache the same way, skips
      change detection and adds the asset. */
  lemma AddWhileUnpublishing(cfg: Config, call: Call, s: State)
    requires !cfg.isPublish
    ensures var o := Step(cfg, call, false, s);
            && o.included
            && o.state.contents == s.contents + {call.assetId}
            && o.state.pushed == s.pushed
            && CacheCleaned(s.cache, o.state.cache, call.assetId, cfg.envs)
  {
  }

  /** A force-push bundle or a download bundle takes every candidate, without
      looking at or writing the push history, and leaves the cache alone. */
  lemma ForcePushOrDownloadIncludes(cfg: Config, call: Call, clean: bool, s: State)
    requires cfg.isPublish && (cfg.forcePush || cfg.isDownload)
    ensures Step(cfg, call, clean, s) == Outcome(true, State(s.contents + {call.assetId}, s.pushed, s.cache))
  {
  }

  /** Without environments (the environment lookup threw, say) a publishing,
      non-forced, network bundle takes nothing and changes nothing. */
  lemma NoEnvironmentsExcludes(cfg: Config, call: Call, clean: bool, s: State)
    requires Conditional(cfg) && cfg.envs == []
    ensures Step(cfg, call, clean, s) == Outcome(false, s)
  {
  }

  // ------------------------------------------------- the environment loop

  /** The rows the loop over the environments appends are for this bundle,
      asset, asset type and clock, and for one of the environments looked at;
      rows already there are kept. */
  ghost predicate AppendsOwnRows(cfg: Config, call: Call, envs: seq<EnvId>, before: seq<PushedAsset>, after: seq<PushedAsset>) {
    && |before| <= |after|
    && after[..|before|] == before
    && forall i :: |before| <= i < |after| ==>
         && after[i] == PushedAsset(cfg.bundleId, call.assetId, cfg.assetType, call.now, after[i].environmentId)
         && after[i].environmentId in envs
  }

  lemma {:induction false} ScanAppends(cfg: Config, call: Call, envs: seq<EnvId>, modified: bool, pushed: seq<PushedAsset>)
    ensures AppendsOwnRows(cfg, call, envs, pushed, ScanEnvs(cfg, call, envs, modified, pushed).pushed)
    decreases |envs|
  {
    if envs != [] && envs[0] !in call.faults.lastPushFails {
      var m := EnvModified(cfg, call, LastPush(pushed, call.assetId, envs[0]));
      var next := if m then RecordPush(cfg, call, envs[0], pushed) else pushed;
      ScanAppends(cfg, call, envs[1..], m, next);
      var after := ScanEnvs(cfg, call, envs, modified, pushed).pushed;
      assert after == ScanEnvs(cfg, call, envs[1..], m, next).pushed;
      assert after[..|next|] == next;
      assert next[..|pushed|] == pushed;
      forall i | |next| <= i < |after|
        ensures after[i].environmentId in envs
      {
        assert after[i].environmentId in envs[1..];
      }
    }
  }

  /** Looking at the environments of `pre`, none of whose lookups fails, and
      then at those of `rest` is looking at `rest` from where `pre` left off. */
  lemma {:induction false} ScanConcat(cfg: Config, call: Call, pre: seq<EnvId>, rest: seq<EnvId>,
                                      modified: bool, pushed: seq<PushedAsset>)
    requires forall x :: x in pre ==> x !in call.faults.lastPushFails
    ensures var sp := ScanEnvs(cfg, call, pre, modified, pushed);
            && !sp.lookupFailed
            && ScanEnvs(cfg, call, pre + rest, modified, pushed) == ScanEnvs(cfg, call, rest, sp.modified, sp.pushed)
    decreases |pre|
  {
    if pre == [] {
      assert pre + rest == rest;
    } else {
      assert (pre + rest)[1..] == pre[1..] + rest;
      var m := EnvModified(cfg, call, LastPush(pushed, call.assetId, pre[0]));
      ScanConcat(cfg, call, pre[1..], rest, m, if m then RecordPush(cfg, call, pre[0], pushed) else pushed);
    }
  }

  /** Rows for other environments leave the latest push to `envId` as it was. */
  lemma {:induction false} LastPushUnaffected(before: seq<PushedAsset>, after: seq<PushedAsset>, assetId: AssetId, envId: EnvId)
    requires |before| <= |after| && after[..|before|] == before
    requires forall i :: |before| <= i < |after| ==> after[i].environmentId != envId
    ensures LastPush(after, assetId, envId) == LastPush(before, assetId, envId)
    decreases |after|
  {
    if |after| > |before| {
      var init := after[..|after| - 1];
      assert init[..|before|] == before;
      LastPushUnaffected(before, init, assetId, envId);
    } else {
      assert after == before;
    }
  }

  /** A failed last-push lookup for environment `e`, after environments
      `pre` whose lookups succeeded, ends the call at once with true: the
      result set is unchanged, the push history holds only what `pre` wrote,
      and the environments after `e` play no part. */
  lemma LookupFailureStops(cfg: Config, call: Call, clean: bool, s: State,
                           pre: seq<EnvId>, e: EnvId, post: seq<EnvId>)
    requires Conditional(cfg) && cfg.envs == pre + [e] + post
    requires e in call.faults.lastPushFails
    requires forall x :: x in pre ==> x !in call.faults.lastPushFails
    ensures Step(cfg, call, clean, s) ==
            Outcome(true, State(s.contents, ScanEnvs(cfg, call, pre, false, s.pushed).pushed, s.cache))
  {
    assert pre + [e] + post == pre + ([e] + post);
    ScanConcat(cfg, call, pre, [e] + post, false, s.pushed);
  }

  /** The loop reassigns `modified` for every environment, so the answer of
      a publishing, non-forced network bundle is `modified` as computed for
      the last environment alone, against the push history as it was before
      the call, when no last-push lookup throws and that environment does not
      occur earlier in the list. */
  lemma LastEnvironmentWins(cfg: Config, call: Call, clean: bool, s: State, pre: seq<EnvId>, e: EnvId)
    requires Conditional(cfg) && cfg.envs == pre + [e]
    requires forall x :: x in cfg.envs ==> x !in call.faults.lastPushFails
    requires e !in pre
    ensures Step(cfg, call, clean, s).included == EnvModified(cfg, call, LastPush(s.pushed, call.assetId, e))
  {
    ScanConcat(cfg, call, pre, [e], false, s.pushed);
    var sp := ScanEnvs(cfg, call, pre, false, s.pushed);
    ScanAppends(cfg, call, pre, false, s.pushed);
    LastPushUnaffected(s.pushed, sp.pushed, call.assetId, e);
  }

  /** An instance of the above: the asset was never pushed to E1, so it is
      judged modified there and a push record for E1 is written, but it is up
      to date on E2, the last environment, so it is left out of the bundle. */
  lemma EarlierEnvironmentOverridden()
    ensures var cfg := Config("B1", "links", ["E1", "E2"], false, false, true);
            var call := Call("A1", Some(5), VersionStore(Fetched([]), map[], map[]), Faults({}, {}), 20);
            var prior := PushedAsset("B0", "A1", "links", 10, "E2");
            Step(cfg, call, false, State({}, [prior], {})) ==
            Outcome(false, State({}, [prior, PushedAsset("B1", "A1", "links", 20, "E1")], {}))
  {
  }

  // --------------------------------------------- the per-environment verdict

  /** A language version that shows the content changed: the info has an
      identifier and either no version timestamp or one after `modDate`. */
  predicate NewerVersion(lookup: Fetch<Option<VersionInfo>>, modDate: Option<Date>) {
    && lookup.Fetched? && lookup.value.Some? && lookup.value.value.hasIdentifier
    && (lookup.value.value.versionTs.None? ||
        (modDate.Some? && Before(modDate.value, lookup.value.value.versionTs.value)))
  }

  /** The language loop only turns `modified` on for a language whose
      version is newer. */
  lemma {:induction false} ContentScanSound(langs: seq<LangId>, assetId: AssetId, modDate: Option<Date>,
                                            versions: VersionStore, modified: bool)
    requires ContentScan(langs, assetId, modDate, versions, modified)
    ensures modified || exists i :: 0 <= i < |langs| && NewerVersion(versions.ContentletVersionInfo(assetId, langs[i]), modDate)
    decreases |langs|
  {
    if langs != [] {
      var lookup := versions.ContentletVersionInfo(assetId, langs[0]);
      if NewerVersion(lookup, modDate) {
      } else if lookup.Fetched? && !(lookup.value.Some? && lookup.value.value.hasIdentifier && !modified && modDate.None?) {
        var next := if lookup.value.Some? && lookup.value.value.hasIdentifier
                    then modified || NewerVersion(lookup, modDate) else modified;
        ContentScanSound(langs[1..], assetId, modDate, versions, next);
        if !modified && !next {
          var i :| 0 <= i < |langs[1..]| && NewerVersion(versions.ContentletVersionInfo(assetId, langs[1..][i]), modDate);
          assert langs[1..][i] == langs[i + 1];
        }
      }
    }
  }

  /** With a modification date and no failing lookup, the language loop
      finds the content modified exactly when some language is newer. */
  lemma {:induction false} ContentScanComplete(langs: seq<LangId>, assetId: AssetId, modDate: Option<Date>,
                                               versions: VersionStore, modified: bool)
    requires modDate.Some?
    requires forall i :: 0 <= i < |langs| ==> versions.ContentletVersionInfo(assetId, langs[i]).Fetched?
    ensures ContentScan(langs, assetId, modDate, versions, modified) <==>
            modified || exists i :: 0 <= i < |langs| && NewerVersion(versions.ContentletVersionInfo(assetId, langs[i]), modDate)
    decreases |langs|
  {
    if langs != [] {
      var lookup := versions.ContentletVersionInfo(assetId, langs[0]);
      var next := if lookup.value.Some? && lookup.value.value.hasIdentifier
                  then modified || NewerVersion(lookup, modDate) else modified;
      assert forall i :: 0 <= i < |langs[1..]| ==> langs[1..][i] == langs[i + 1];
      ContentScanComplete(langs[1..], assetId, modDate, versions, next);
      if exists i :: 0 <= i < |langs| && NewerVersion(versions.ContentletVersionInfo(assetId, langs[i]), modDate) {
        var i :| 0 <= i < |langs| && NewerVersion(versions.ContentletVersionInfo(assetId, langs[i]), modDate);
        if i > 0 {
          assert NewerVersion(versions.ContentletVersionInfo(assetId, langs[1..][i - 1]), modDate);
        }
      }
    }
  }

  /** A throwing language lookup ends the loop with the value `modified`
      had reached over the languages before it; later languages play no part. */
  lemma {:induction false} ContentScanStopsAtFailure(pre: seq<LangId>, lang: LangId, rest: seq<LangId>,
                                                     assetId: AssetId, modDate: Option<Date>,
                                                     versions: VersionStore, modified: bool)
    requires versions.ContentletVersionInfo(assetId, lang).Failed?
    ensures ContentScan(pre + [lang] + rest, assetId, modDate, versions, modified) ==
            ContentScan(pre, assetId, modDate, versions, modified)
    decreases |pre|
  {
    var langs := pre + [lang] + rest;
    if pre == [] {
      assert langs[0] == lang;
    } else {
      assert langs[0] == pre[0];
      assert langs[1..] == pre[1..] + [lang] + rest;
      var lookup := versions.ContentletVersionInfo(assetId, pre[0]);
      if lookup.Fetched? {
        var next := if lookup.value.Some? && lookup.value.value.hasIdentifier
                    then (if modified || lookup.value.value.versionTs.None? then true
                          else if modDate.None? then modified
                          else Before(modDate.value, lookup.value.value.versionTs.value))
                    else modified;
        ContentScanStopsAtFailure(pre[1..], lang, rest, assetId, modDate, versions, next);
      }
    }
  }

  /** `modified` for one environment: never pushed there, or pushed before
      the modification date, decides on its own; otherwise a content asset
      is modified when a language version says so, a template, link,
      container or page when its single version timestamp is after the
      modification date, and any other type is not. */
  lemma EnvModifiedCases(cfg: Config, call: Call, lastPush: Option<Date>)
    ensures lastPush.None? ==> EnvModified(cfg, call, lastPush)
    ensures call.modDate.Some? && lastPush.Some? && Before(lastPush.value, call.modDate.value) ==>
              EnvModified(cfg, call, lastPush)
    ensures !PushedBefore(lastPush, call.modDate) && cfg.assetType == ContentType && EnvModified(cfg, call, lastPush) ==>
              call.versions.languages.Fetched? &&
              exists i :: 0 <= i < |call.versions.languages.value| &&
                NewerVersion(call.versions.ContentletVersionInfo(call.assetId, call.versions.languages.value[i]), call.modDate)
    ensures !PushedBefore(lastPush, call.modDate) && HasSingleVersion(cfg.assetType) ==>
              (EnvModified(cfg, call, lastPush) <==>
                 NewerVersion(call.versions.GetVersionInfo(call.assetId), call.modDate) &&
                 call.modDate.Some? && call.versions.GetVersionInfo(call.assetId).value.value.versionTs.Some?)
    ensures cfg.assetType != ContentType && !HasSingleVersion(cfg.assetType) ==>
              (EnvModified(cfg, call, lastPush) <==> PushedBefore(lastPush, call.modDate))
  {
    if !PushedBefore(lastPush, call.modDate) && cfg.assetType == ContentType && EnvModified(cfg, call, lastPush) {
      ContentScanSound(call.versions.languages.value, call.assetId, call.modDate, call.versions, false);
    }
  }

  // ------------------------------------------------------- push records

  /** The asset's rows (`getPushedAssets`) hold one for bundle `b` and
      environment `e` exactly when the whole history holds one for `b`, the
      asset and `e`. */
  lemma InBundleForAsset(pushed: seq<PushedAsset>, b: BundleId, a: AssetId, e: EnvId)
    ensures InBundle(ForAsset(pushed, a), b, e) <==> exists i :: 0 <= i < |pushed| && IsTriple(pushed[i], b, a, e)
  {
    var rows := ForAsset(pushed, a);
    if InBundle(rows, b, e) {
      var k :| 0 <= k < |rows| && rows[k].bundleId == b && rows[k].environmentId == e;
      assert rows[k] in pushed;
      var i :| 0 <= i < |pushed| && pushed[i] == rows[k];
      assert IsTriple(pushed[i], b, a, e);
    }
    if exists i :: 0 <= i < |pushed| && IsTriple(pushed[i], b, a, e) {
      var i :| 0 <= i < |pushed| && IsTriple(pushed[i], b, a, e);
      assert pushed[i] in rows;
      var k :| 0 <= k < |rows| && rows[k] == pushed[i];
      assert rows[k].bundleId == b && rows[k].environmentId == e;
    }
  }

  /** A record is only written when the asset has none for that bundle and
      environment, so at most one row per bundle, asset and environment
      stays at most one. */
  lemma RecordPushKeepsAtMostOnce(cfg: Config, call: Call, env: EnvId, pushed: seq<PushedAsset>,
                                  b: BundleId, a: AssetId, e: EnvId)
    requires AtMostOnce(pushed, b, a, e)
    ensures AtMostOnce(RecordPush(cfg, call, env, pushed), b, a, e)
  {
    InBundleForAsset(pushed, b, a, e);
  }

  lemma {:induction false} ScanKeepsAtMostOnce(cfg: Config, call: Call, envs: seq<EnvId>, modified: bool,
                                               pushed: seq<PushedAsset>, b: BundleId, a: AssetId, e: EnvId)
    requires AtMostOnce(pushed, b, a, e)
    ensures AtMostOnce(ScanEnvs(cfg, call, envs, modified, pushed).pushed, b, a, e)
    decreases |envs|
  {
    if envs != [] && envs[0] !in call.faults.lastPushFails {
      var m := EnvModified(cfg, call, LastPush(pushed, call.assetId, envs[0]));
      if m {
        RecordPushKeepsAtMostOnce(cfg, call, envs[0], pushed, b, a, e);
      }
      ScanKeepsAtMostOnce(cfg, call, envs[1..], m, if m then RecordPush(cfg, call, envs[0], pushed) else pushed, b, a, e);
    }
  }

  /** One call never gives a bundle, asset and environment a second row. */
  lemma NoDuplicatePushRecords(cfg: Config, call: Call, clean: bool, s: State, b: BundleId, a: AssetId, e: EnvId)
    requires AtMostOnce(s.pushed, b, a, e)
    ensures AtMostOnce(Step(cfg, call, clean, s).state.pushed, b, a, e)
  {
    ScanKeepsAtMostOnce(cfg, call, cfg.envs, false, s.pushed, b, a, e);
  }

  /** The push history only grows, by rows of this bundle, asset, type and
      clock for the filter's environments, and only in the mode that
      performs change detection. */
  lemma PushHistoryGrowsByOwnRows(cfg: Config, call: Call, clean: bool, s: State)
    ensures AppendsOwnRows(cfg, call, cfg.envs, s.pushed, Step(cfg, call, clean, s).state.pushed)
    ensures !Conditional(cfg) ==> Step(cfg, call, clean, s).state.pushed == s.pushed
  {
    ScanAppends(cfg, call, cfg.envs, false, s.pushed);
  }

  /** The rows of `after` beyond `before` for environment `e`. */
  ghost predicate NewRowFor(before: seq<PushedAsset>, after: seq<PushedAsset>, i: int, e: EnvId) {
    |before| <= i < |after| && after[i].environmentId == e
  }

  /** Extending a history with rows for other environments neither creates
      nor hides a row for bundle `b`, asset `a` and environment `e`. */
  lemma TripleUnaffected(before: seq<PushedAsset>, after: seq<PushedAsset>, b: BundleId, a: AssetId, e: EnvId)
    requires |before| <= |after| && after[..|before|] == before
    requires forall i :: |before| <= i < |after| ==> after[i].environmentId != e
    ensures (exists i :: 0 <= i < |after| && IsTriple(after[i], b, a, e)) <==>
            (exists i :: 0 <= i < |before| && IsTriple(before[i], b, a, e))
  {
    forall i | 0 <= i < |before| ensures after[i] == before[i] {
      assert after[..|before|][i] == before[i];
    }
  }

  /** When the environments scanned before `e`'s turn (`pre`) and after it
      (`post`) are not `e`, the only new row for `e` is the one `e`'s own turn
      may append (`next` against `sp`). */
  lemma OnlyOwnTurnWritesFor(cfg: Config, call: Call, before: seq<PushedAsset>, sp: seq<PushedAsset>,
                             next: seq<PushedAsset>, after: seq<PushedAsset>,
                             pre: seq<EnvId>, e: EnvId, post: seq<EnvId>)
    requires AppendsOwnRows(cfg, call, pre, before, sp) && AppendsOwnRows(cfg, call, post, next, after)
    requires e !in pre && e !in post
    requires next == sp || next == sp + [PushedAsset(cfg.bundleId, call.assetId, cfg.assetType, call.now, e)]
    ensures (exists i :: NewRowFor(before, after, i, e)) <==> next != sp
    ensures forall i :: NewRowFor(before, after, i, e) ==>
              i == |sp| && after[i] == PushedAsset(cfg.bundleId, call.assetId, cfg.assetType, call.now, e)
  {
    assert next[..|sp|] == sp;
    forall i | |before| <= i < |sp|
      ensures after[i].environmentId != e
    {
      assert after[i] == after[..|next|][i] == next[i] == sp[i];
    }
    forall i | NewRowFor(before, after, i, e)
      ensures i == |sp| && next != sp
    {
    }
    if next != sp {
      assert after[|sp|] == after[..|next|][|sp|];
      assert NewRowFor(before, after, |sp|, e);
    }
  }

  /** For an environment `e` that occurs once in the bundle's list, when no
      last-push lookup throws for `e` or an environment before it, a call
      writes a row for `e` exactly when the asset is modified for `e`, the
      save path for `e` does not throw, and the history has no row yet for
      this bundle, asset and `e`; whatever happens for the other
      environments. It then writes exactly one such row, and it is this
      bundle's. */
  lemma EnvRecordedIff(cfg: Config, call: Call, clean: bool, s: State, pre: seq<EnvId>, e: EnvId, post: seq<EnvId>)
    requires Conditional(cfg) && cfg.envs == pre + [e] + post
    requires forall x :: x in pre + [e] ==> x !in call.faults.lastPushFails
    requires e !in pre && e !in post
    ensures var after := Step(cfg, call, clean, s).state.pushed;
            (exists i :: NewRowFor(s.pushed, after, i, e)) <==>
              && EnvModified(cfg, call, LastPush(s.pushed, call.assetId, e))
              && e !in call.faults.saveFails
              && !(exists i :: 0 <= i < |s.pushed| && IsTriple(s.pushed[i], cfg.bundleId, call.assetId, e))
    ensures var after := Step(cfg, call, clean, s).state.pushed;
            forall i, j :: NewRowFor(s.pushed, after, i, e) && NewRowFor(s.pushed, after, j, e) ==>
              i == j && after[i] == PushedAsset(cfg.bundleId, call.assetId, cfg.assetType, call.now, e)
  {
    var a := call.assetId;
    assert pre + [e] + post == pre + ([e] + post);
    ScanConcat(cfg, call, pre, [e] + post, false, s.pushed);
    var sp := ScanEnvs(cfg, call, pre, false, s.pushed).pushed;
    ScanAppends(cfg, call, pre, false, s.pushed);
    LastPushUnaffected(s.pushed, sp, a, e);
    var m := EnvModified(cfg, call, LastPush(sp, a, e));
    var next := if m then RecordPush(cfg, call, e, sp) else sp;
    assert ([e] + post)[1..] == post;
    var after := ScanEnvs(cfg, call, post, m, next).pushed;
    assert Step(cfg, call, clean, s).state.pushed == after;
    ScanAppends(cfg, call, post, m, next);
    // The rows written for `pre` are for other environments, so the triple
    // is in the history before `e`'s turn exactly when it was before the call.
    InBundleForAsset(sp, cfg.bundleId, a, e);
    TripleUnaffected(s.pushed, sp, cfg.bundleId, a, e);
    OnlyOwnTurnWritesFor(cfg, call, s.pushed, sp, next, after, pre, e, post);
  }

  /** A sequence of calls on one filter: `clean` picks the public
      `addOrClean` over `add`. */
  datatype Request = Request(call: Call, clean: bool)

  function Run(cfg: Config, requests: seq<Request>, s: State): State
    decreases |requests|
  {
    if requests == [] then s
    else Run(cfg, requests[1..], Step(cfg, requests[0].call, requests[0].clean, s).state)
  }

  /** However often the filter is called, a bundle, asset and environment
      that had at most one push record still has at most one. */
  lemma {:induction false} RepeatedCallsRecordOnce(cfg: Config, requests: seq<Request>, s: State,
                                                   b: BundleId, a: AssetId, e: EnvId)
    requires AtMostOnce(s.pushed, b, a, e)
    ensures AtMostOnce(Run(cfg, requests, s).pushed, b, a, e)
    decreases |requests|
  {
    if requests != [] {
      NoDuplicatePushRecords(cfg, requests[0].call, requests[0].clean, s, b, a, e);
      RepeatedCallsRecordOnce(cfg, requests[1..], Step(cfg, requests[0].call, requests[0].clean, s).state, b, a, e);
    }
  }

  /** Save failures are logged and absorbed: two calls that differ only in
      which saves throw give the same answer when the last environment is
      looked at once. */
  lemma SaveFailuresKeepAnswer(cfg: Config, call: Call, saveFails: set<EnvId>, clean: bool, s: State,
                               pre: seq<EnvId>, e: EnvId)
    requires Conditional(cfg) && cfg.envs == pre + [e]
    requires forall x :: x in cfg.envs ==> x !in call.faults.lastPushFails
    requires e !in pre
    ensures Step(cfg, call.(faults := call.faults.(saveFails := saveFails)), clean, s).included ==
            Step(cfg, call, clean, s).included
  {
    var call' := call.(faults := call.faults.(saveFails := saveFails));
    LastEnvironmentWins(cfg, call, clean, s, pre, e);
    LastEnvironmentWins(cfg, call', clean, s, pre, e);
    assert EnvModified(cfg, call, LastPush(s.pushed, call.assetId, e)) ==
           EnvModified(cfg, call', LastPush(s.pushed, call.assetId, e));
  }

  // ------------------------------------------------------- the result set

  /** The result set changes only by the candidate itself, only on a true
      answer, and not at all when the candidate is already in it; a false
      answer leaves the cache alone too. */
  lemma SetBehaviour(cfg: Config, call: Call, clean: bool, s: State)
    ensures var o := Step(cfg, call, clean, s);
            && (o.state.contents == s.contents || o.state.contents == s.contents + {call.assetId})
            && (!o.included ==> o.state.contents == s.contents && o.state.cache == s.cache)
            && (call.assetId in s.contents ==> o.state.contents == s.contents)
  {
  }

  // ------------------------------------------------------------ scenarios

  /** An asset never pushed to the single environment of a publishing,
      non-forced network bundle, whose last-push lookup and save path do not
      throw, is included and gets exactly one push record. */
  lemma FirstPushRecorded(cfg: Config, call: Call, clean: bool, s: State, e: EnvId)
    requires Conditional(cfg) && cfg.envs == [e]
    requires e !in call.faults.lastPushFails && e !in call.faults.saveFails
    requires LastPush(s.pushed, call.assetId, e).None?
    ensures Step(cfg, call, clean, s) ==
            Outcome(true, State(s.contents + {call.assetId},
                                s.pushed + [PushedAsset(cfg.bundleId, call.assetId, cfg.assetType, call.now, e)],
                                s.cache))
  {
    LastPushIsLatest(s.pushed, call.assetId, e);
    InBundleForAsset(s.pushed, cfg.bundleId, call.assetId, e);
    var row := PushedAsset(cfg.bundleId, call.assetId, cfg.assetType, call.now, e);
    assert RecordPush(cfg, call, e, s.pushed) == s.pushed + [row];
    assert ScanEnvs(cfg, call, cfg.envs, false, s.pushed) == ScanEnvs(cfg, call, [], true, s.pushed + [row]);
  }

  /** An asset last pushed to the single environment no earlier than its
      modification date, with no newer version, is left out and nothing is
      written. */
  lemma UpToDateExcluded(cfg: Config, call: Call, clean: bool, s: State, e: EnvId)
    requires Conditional(cfg) && cfg.envs == [e]
    requires e !in call.faults.lastPushFails
    requires LastPush(s.pushed, call.assetId, e).Some? && call.modDate.Some?
    requires !Before(LastPush(s.pushed, call.assetId, e).value, call.modDate.value)
    requires !VersionsShowModified(cfg.assetType, call.assetId, call.modDate, call.versions)
    ensures Step(cfg, call, clean, s) == Outcome(false, s)
  {
    assert !EnvModified(cfg, call, LastPush(s.pushed, call.assetId, e));
    assert ScanEnvs(cfg, call, cfg.envs, false, s.pushed) == ScanEnvs(cfg, call, [], false, s.pushed);
  }
}
