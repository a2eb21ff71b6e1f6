/** The CustomHostname worker in its own form: methods that change an in-memory
    CustomHostname step by step, call Cloudflare, and write back to the cluster once.
    Each is proved to do what Worker.Reconcile says. */
module Reconciler {
  import opened Types
  import opened SSL
  import opened CloudflareAPI
  import SSLGauge
  import W = Worker

  /** The in-memory copy of a resource that one reconcile works on. */
  class CustomHostname {
    const uid: Uid
    const spec: Spec
    const deleting: bool
    const generation: nat
    var finalizer: bool
    var status: Status

    constructor (uid: Uid, stored: Resource)
      ensures this.uid == uid && Copies(stored)
    {
      this.uid := uid;
      spec, deleting, generation := stored.spec, stored.deleting, stored.generation;
      finalizer, status := stored.finalizer, stored.status;
    }

    ghost predicate Copies(stored: Resource)
      reads this
    {
      && spec == stored.spec && deleting == stored.deleting && generation == stored.generation
      && finalizer == stored.finalizer && status == stored.status
    }
  }

  /** The API server's view of CustomHostnames and Zones. */
  class Cluster {
    var resources: map<Uid, Resource>
    var zones: map<ZoneRef, Zone>

    constructor (resources: map<Uid, Resource>, zones: map<ZoneRef, Zone>)
      ensures this.resources == resources && this.zones == zones
    {
      this.resources, this.zones := resources, zones;
    }

    /** Status().Update: err when the write is not stored. */
    method UpdateStatus(ch: CustomHostname, stored: bool) returns (err: bool)
      requires ch.uid in resources
      modifies this`resources
      ensures resources == if stored then W.Store(old(resources), ch.uid, W.PutStatus(ch.status)) else old(resources)
      ensures err == !stored
    {
      if stored {
        resources := resources[ch.uid := resources[ch.uid].(status := ch.status)];
      }
      err := !stored;
    }

    /** Update of the finalizer: err when the write is not stored. */
    method Update(ch: CustomHostname, stored: bool) returns (err: bool)
      requires ch.uid in resources
      modifies this`resources
      ensures resources
           == if stored then W.Store(old(resources), ch.uid, W.PutFinalizer(ch.finalizer)) else old(resources)
      ensures err == !stored
    {
      if stored {
        var r := resources[ch.uid];
        if r.deleting && !ch.finalizer && !r.otherFinalizers {
          resources := resources - {ch.uid};
        } else {
          resources := resources[ch.uid := r.(finalizer := ch.finalizer)];
        }
      }
      err := !stored;
    }
  }

  datatype Result = Result(requeue: bool, err: bool)

  // What became of the drift of a record.
  datatype Correction = NotEdited | Edited | EditFailed

  class CustomHostnameReconciler {
    const cfg: Config
    const cluster: Cluster
    const api: Cloudflare

    // operations_total, by operation
    var creates: nat
    var recreates: nat
    // Every call of setSSLProvisioningDuration, in order; SSLGauge says what becomes of it.
    var observations: seq<W.Observation>

    constructor (cfg: Config, cluster: Cluster, api: Cloudflare)
      ensures this.cfg == cfg && this.cluster == cluster && this.api == api
      ensures creates == 0 && recreates == 0 && observations == []
    {
      this.cfg, this.cluster, this.api := cfg, cluster, api;
      creates, recreates, observations := 0, 0, [];
    }

    ghost function World(): W.World
      reads cluster, api
    {
      W.World(cluster.resources, cluster.zones, api.cloud)
    }

    // The state a turn leaves behind: the write is stored or not, and the counters count it.
    twostate predicate Performs(uid: Uid, turn: W.Turn, o: W.Outcome, result: Result)
      reads this, cluster, api
    {
      && uid in old(cluster.resources)
      && api.cloud == turn.cloud
      && cluster.zones == old(cluster.zones)
      && cluster.resources
         == (if o.persisted then W.Store(old(cluster.resources), uid, turn.write) else old(cluster.resources))
      && creates == old(creates) + (if turn.operation.CreateOperation? then 1 else 0)
      && recreates == old(recreates) + (if turn.operation.RecreateOperation? then 1 else 0)
      && observations == old(observations) + (if turn.observed.Some? then [turn.observed.value] else [])
      && result.err == (turn.failed || (!o.persisted && !turn.write.NoWrite?))
      && result.requeue == (turn.requeue && o.persisted)
    }

    method SetCondition(ch: CustomHostname, isTrue: bool, reason: Reason, o: W.Outcome) returns (err: bool)
      requires ch.uid in cluster.resources
      modifies ch`status, cluster`resources
      ensures ch.status == W.SetCondition(old(ch.status), ch.generation, isTrue, reason)
      ensures cluster.resources
           == if o.persisted then W.Store(old(cluster.resources), ch.uid, W.PutStatus(ch.status))
              else old(cluster.resources)
      ensures err == !o.persisted
    {
      ch.status := ch.status.(ready := Some(Condition(isTrue, reason, ch.generation)));
      err := cluster.UpdateStatus(ch, o.persisted);
    }

    method SetError(ch: CustomHostname, reason: Reason, o: W.Outcome) returns (err: bool)
      requires ch.uid in cluster.resources
      modifies ch`status, cluster`resources
      ensures ch.status == W.SetError(old(ch.status), ch.generation, reason)
      ensures cluster.resources
           == if o.persisted then W.Store(old(cluster.resources), ch.uid, W.PutStatus(ch.status))
              else old(cluster.resources)
      ensures err == !o.persisted
    {
      ch.status := ch.status.(consecutiveErrors := ch.status.consecutiveErrors + 1);
      err := SetCondition(ch, false, reason, o);
    }

    method RequeueOrReady(ch: CustomHostname, o: W.Outcome) returns (err: bool)
      requires ch.uid in cluster.resources
      modifies ch`status, cluster`resources, this`observations
      ensures ch.status == W.RequeueOrReady(old(ch.status), ch.generation)
      ensures var seen := W.Observed(ch.spec, old(ch.status), o.now);
              observations == old(observations) + (if seen.Some? then [seen.value] else [])
      ensures cluster.resources
           == if o.persisted then W.Store(old(cluster.resources), ch.uid, W.PutStatus(ch.status))
              else old(cluster.resources)
      ensures err == !o.persisted
    {
      ch.status := ch.status.(consecutiveErrors := 0);
      if ch.status.ssl.Some? && ch.status.ssl.value.status == ACTIVE {
        if ch.status.sslProvisioningStartedAt.Some? {
          var alreadyReady := ch.status.ready.Some? && ch.status.ready.value.isTrue;
          if !alreadyReady {
            ObserveDuration(ch, o);
          }
        }
        err := SetCondition(ch, true, Ready, o);
        return;
      }
      err := SetCondition(ch, false, SSLPending, o);
    }

    // Reports the provisioning duration, under the method of the certificate, of the spec, or http.
    method ObserveDuration(ch: CustomHostname, o: W.Outcome)
      requires ch.status.ssl.Some? && ch.status.sslProvisioningStartedAt.Some?
      modifies this`observations
      ensures var specified := if ch.spec.ssl.Some? then ch.spec.ssl.value.dcvMethod else "";
              var dcvMethod := OrElse(ch.status.ssl.value.config.dcvMethod, OrElse(specified, METHOD_HTTP));
              observations == old(observations)
                              + [W.Observation(SSLGauge.Series(ch.spec.zoneRef.name, ch.spec.hostname, dcvMethod),
                                               o.now - ch.status.sslProvisioningStartedAt.value)]
    {
      var dcvMethod := METHOD_HTTP;
      if ch.status.ssl.value.config.dcvMethod != "" {
        dcvMethod := ch.status.ssl.value.config.dcvMethod;
      } else if ch.spec.ssl.Some? && ch.spec.ssl.value.dcvMethod != "" {
        dcvMethod := ch.spec.ssl.value.dcvMethod;
      }
      var duration := o.now - ch.status.sslProvisioningStartedAt.value;
      observations := observations
                      + [W.Observation(SSLGauge.Series(ch.spec.zoneRef.name, ch.spec.hostname, dcvMethod), duration)];
    }

    // Takes status.ssl and status.hostnameStatus from a response.
    method RefreshStatus(ch: CustomHostname, response: Record)
      modifies ch`status
      ensures ch.status == W.Refresh(old(ch.status), response)
    {
      var hostnameStatus, ssl := CfStateFrom(response);
      ch.status := ch.status.(ssl := Some(ssl), hostnameStatus := hostnameStatus);
    }

    /** detectConflict: looks at the peers of the hostname until one holds an id. */
    method DetectConflict(ch: CustomHostname, o: W.Outcome) returns (conflicted: bool, err: bool)
      requires ch.uid in cluster.resources
      requires cluster.resources[ch.uid].spec == ch.spec
      modifies ch`status, cluster`resources
      ensures conflicted == (!o.kubeReads.PeersUnread? && W.Opposed(old(cluster.resources), ch.uid))
      ensures !conflicted ==>
                && err == o.kubeReads.PeersUnread?
                && ch.status == old(ch.status) && cluster.resources == old(cluster.resources)
      ensures conflicted ==>
                && ch.status == W.SetCondition(old(ch.status), ch.generation, false, HostnameConflict)
                && err == !o.persisted
                && cluster.resources
                   == if o.persisted then W.Store(old(cluster.resources), ch.uid, W.PutStatus(ch.status))
                      else old(cluster.resources)
    {
      if o.kubeReads.PeersUnread? {
        return false, true;
      }
      var peers := set p | p in cluster.resources && cluster.resources[p].spec.hostname == ch.spec.hostname;
      while peers != {}
        invariant cluster.resources == old(cluster.resources) && ch.status == old(ch.status)
        invariant peers <= cluster.resources.Keys
        invariant forall p | p in cluster.resources && p !in peers && p != ch.uid ::
                    cluster.resources[p].spec.hostname == ch.spec.hostname ==> cluster.resources[p].status.id == 0
        invariant forall p :: p in peers ==> cluster.resources[p].spec.hostname == ch.spec.hostname
        decreases peers
      {
        var peer :| peer in peers;
        peers := peers - {peer};
        if peer == ch.uid {
          continue;
        }
        if cluster.resources[peer].status.id != 0 {
          err := SetCondition(ch, false, HostnameConflict, o);
          return true, err;
        }
      }
      return false, false;
    }

    method HandleCreate(zone: W.ZoneInfo, ch: CustomHostname, o: W.Outcome) returns (result: Result)
      requires ch.uid in cluster.resources && ch.Copies(cluster.resources[ch.uid])
      modifies this, ch`status, cluster`resources, api
      ensures Performs(ch.uid, W.HandleCreate(cfg, zone, old(api.cloud), old(cluster.resources[ch.uid]), o), o, result)
    {
      var sslSpec := if ch.spec.ssl.Some? then ch.spec.ssl.value else SSLConfig("", "", "", "");
      var params := New(zone.id, ch.spec.hostname, ch.spec.originServer, ch.spec.originSNI,
                        BuildSSLParams(sslSpec, cfg.sslDefaults));
      if cfg.dryRun {
        var err := SetCondition(ch, false, DryRun, o);
        return Result(false, err);
      }
      var _, reply := api.CfRetry(params, o.write, cfg.maxRetries);
      if reply.Failed? || reply.record.None? {
        var err := SetError(ch, CreateFailed, o);
        return Result(false, err);
      }
      result := RecordCreation(ch, reply.record.value, o);
    }

    // The bookkeeping after a successful create.
    method RecordCreation(ch: CustomHostname, resp: Record, o: W.Outcome) returns (result: Result)
      requires ch.uid in cluster.resources && ch.Copies(cluster.resources[ch.uid])
      modifies this, ch`status, cluster`resources
      ensures Performs(ch.uid, W.RecordCreation(api.cloud, old(cluster.resources[ch.uid]), resp, o), o, result)
    {
      if ch.status.createCount > 0 {
        recreates := recreates + 1;
      } else {
        creates := creates + 1;
      }
      ch.status := ch.status.(sslProvisioningStartedAt := Some(o.now));
      ch.status := ch.status.(createCount := ch.status.createCount + 1);
      ch.status := ch.status.(id := resp.id);
      RefreshStatus(ch, resp);
      var err := RequeueOrReady(ch, o);
      return Result(false, err);
    }

    method ReconcileCloudflareState(zone: W.ZoneInfo, ch: CustomHostname, o: W.Outcome) returns (result: Result)
      requires ch.uid in cluster.resources && ch.Copies(cluster.resources[ch.uid])
      modifies this, ch`status, cluster`resources, api
      ensures Performs(ch.uid,
                       W.ReconcileCloudflareState(cfg, zone, old(api.cloud), old(cluster.resources[ch.uid]), o),
                       o, result)
    {
      var policy := W.Management(cfg, ch.spec);
      FindChangesNothing(api.cloud, o.pages, ch.spec.hostname, o.lookup, cfg.maxRetries);
      var _, reply := api.CfRetry(Find(o.pages, ch.spec.hostname), o.lookup, cfg.maxRetries);
      if reply.Failed? {
        var err := SetError(ch, LookupFailed, o);
        return Result(false, err);
      }
      if reply.record.None? {
        if policy.Observe? {
          ch.status := ch.status.(consecutiveErrors := 0);
          var err := SetCondition(ch, false, WaitingForExternal, o);
          return Result(false, err);
        }
        result := HandleCreate(zone, ch, o);
        return;
      }
      result := AdoptAndCorrect(zone, ch, reply.record.value, o);
    }

    // The drift-correcting edit; the status then reports the edit's response.
    method CorrectDrift(zone: W.ZoneInfo, ch: CustomHostname, existing: Record, o: W.Outcome) returns (ok: bool)
      modifies ch`status, api
      ensures var edited := Retry(old(api.cloud), W.EditCall(zone.id, ch.spec, existing), o.write, cfg.maxRetries);
              && api.cloud == edited.cloud
              && ok == (edited.reply.Success? && edited.reply.record.Some?)
              && ch.status == if ok then W.Refresh(old(ch.status), edited.reply.record.value) else old(ch.status)
    {
      var sslEdit := if ch.spec.ssl.Some? then Some(BuildSSLEditParams(ch.spec.ssl.value, existing.ssl.config))
                     else None;
      var _, reply := api.CfRetry(Edit(zone.id, existing.id, ch.spec.originServer, ch.spec.originSNI, sslEdit),
                                  o.write, cfg.maxRetries);
      if reply.Failed? || reply.record.None? {
        return false;
      }
      RefreshStatus(ch, reply.record.value);
      return true;
    }

    // The drift decision: drift is corrected under manage, and not in a dry run.
    method CorrectIfDrifted(zone: W.ZoneInfo, ch: CustomHostname, existing: Record, o: W.Outcome)
      returns (correction: Correction)
      modifies ch`status, api
      ensures var drifts := Drifted(ch.spec, existing) && W.Management(cfg, ch.spec).Manage? && !cfg.dryRun;
              var edited := Retry(old(api.cloud), W.EditCall(zone.id, ch.spec, existing), o.write, cfg.maxRetries);
              && api.cloud == (if drifts then edited.cloud else old(api.cloud))
              && correction == (if !drifts then NotEdited
                                else if edited.reply.Success? && edited.reply.record.Some? then Edited else EditFailed)
              && ch.status == (if correction.Edited? then W.Refresh(old(ch.status), edited.reply.record.value)
                               else old(ch.status))
    {
      var originDrift := existing.originServer != ch.spec.originServer || SniDrifted(existing.originSNI, ch.spec);
      var sslDrift := SslDrifted(existing.ssl.config, ch.spec.ssl);
      if originDrift || sslDrift {
        if W.Management(cfg, ch.spec).Manage? && !cfg.dryRun {
          var ok := CorrectDrift(zone, ch, existing, o);
          return if ok then Edited else EditFailed;
        }
      }
      return NotEdited;
    }

    // The second half of reconcileCloudflareState: the hostname exists.
    method AdoptAndCorrect(zone: W.ZoneInfo, ch: CustomHostname, existing: Record, o: W.Outcome)
      returns (result: Result)
      requires ch.uid in cluster.resources && ch.Copies(cluster.resources[ch.uid])
      modifies this`observations, ch`status, cluster`resources, api
      ensures Performs(ch.uid,
                       W.AdoptAndCorrect(cfg, zone, old(api.cloud), old(cluster.resources[ch.uid]), existing, o),
                       o, result)
    {
      if ch.status.id != existing.id {
        ch.status := ch.status.(id := existing.id);
      }
      var correction := CorrectIfDrifted(zone, ch, existing, o);
      if correction.EditFailed? {
        var err := SetError(ch, UpdateFailed, o);
        return Result(false, err);
      }
      if correction.NotEdited? {
        RefreshStatus(ch, existing);
      }
      var err := RequeueOrReady(ch, o);
      return Result(false, err);
    }

    method ReleaseFinalizer(ch: CustomHostname, o: W.Outcome) returns (result: Result)
      requires ch.uid in cluster.resources && ch.Copies(cluster.resources[ch.uid])
      modifies ch`finalizer, cluster`resources
      ensures Performs(ch.uid, W.Release(api.cloud), o, result)
    {
      ch.finalizer := false;
      var err := cluster.Update(ch, o.persisted);
      return Result(false, err);
    }

    method HandleDelete(zone: W.ZoneInfo, ch: CustomHostname, o: W.Outcome) returns (result: Result)
      requires ch.uid in cluster.resources && ch.Copies(cluster.resources[ch.uid])
      modifies ch, cluster`resources, api
      ensures Performs(ch.uid, W.HandleDelete(cfg, zone, old(api.cloud), old(cluster.resources[ch.uid]), o), o, result)
    {
      if cfg.dryRun {
        result := ReleaseFinalizer(ch, o);
        return;
      }
      if ch.finalizer {
        if W.Deletion(cfg, ch.spec).OwnOnly? {
          FindChangesNothing(api.cloud, o.pages, ch.spec.hostname, o.lookup, cfg.maxRetries);
          var _, current := api.CfRetry(Find(o.pages, ch.spec.hostname), o.lookup, cfg.maxRetries);
          if current.Failed? {
            return Result(false, true);
          }
          if !W.ShouldDeleteInCF(ch.status.id, current.record) {
            result := ReleaseFinalizer(ch, o);
            return;
          }
        }
        var _, reply := api.CfRetry(Delete(zone.id, ch.status.id), o.write, cfg.maxRetries);
        if reply.Failed? && reply.code != NotFound {
          return Result(false, true);
        }
      }
      result := ReleaseFinalizer(ch, o);
    }

    // A terminating CR: the paths without Cloudflare first.
    method ReconcileDeleting(ch: CustomHostname, o: W.Outcome) returns (result: Result)
      requires ch.uid in cluster.resources && ch.Copies(cluster.resources[ch.uid])
      modifies ch, cluster`resources, api
      ensures Performs(ch.uid, W.ReconcileDeleting(cfg, old(World()), old(cluster.resources[ch.uid]), o), o, result)
    {
      if ch.finalizer && ch.status.id == 0 {
        result := ReleaseFinalizer(ch, o);
        return;
      }
      if ch.finalizer {
        if W.Management(cfg, ch.spec).Observe? {
          result := ReleaseFinalizer(ch, o);
          return;
        }
        if W.Deletion(cfg, ch.spec).Never? {
          result := ReleaseFinalizer(ch, o);
          return;
        }
      }
      var zone := W.BuildClient(cfg, cluster.zones, ch.spec.zoneRef, o);
      if zone.None? {
        return Result(false, true);
      }
      result := HandleDelete(zone.value, ch, o);
    }

    // A CR that is not terminating.
    method ReconcileLive(ch: CustomHostname, o: W.Outcome) returns (result: Result)
      requires ch.uid in cluster.resources && ch.Copies(cluster.resources[ch.uid])
      modifies this, ch, cluster`resources, api
      ensures Performs(ch.uid, W.ReconcileLive(cfg, old(World()), ch.uid, o), o, result)
    {
      var zone := W.BuildClient(cfg, cluster.zones, ch.spec.zoneRef, o);
      if zone.None? {
        var err := SetError(ch, ZoneError, o);
        return Result(false, err);
      }
      if !W.OriginInZone(zone.value.domain, ch.spec.originServer) {
        var err := SetError(ch, OriginNotInZone, o);
        return Result(false, err);
      }
      if !ch.finalizer {
        ch.finalizer := true;
        var err := cluster.Update(ch, o.persisted);
        return Result(!err, err);
      }
      var conflicted, err := DetectConflict(ch, o);
      if conflicted || err {
        return Result(false, err);
      }
      result := ReconcileCloudflareState(zone.value, ch, o);
    }

    /** Reconcile of one CR, whatever the outside does. */
    method Reconcile(uid: Uid, o: W.Outcome) returns (result: Result)
      modifies this, cluster`resources, api
      ensures uid !in old(cluster.resources) ==>
                result == Result(false, o.kubeReads.ObjectUnread?) && World() == old(World()) && unchanged(this)
      ensures uid in old(cluster.resources) ==>
                && Performs(uid, W.Reconcile(cfg, old(World()), uid, o), o, result)
                && World() == W.Step(cfg, old(World()), uid, o)
    {
      if o.kubeReads.ObjectUnread? {
        return Result(false, true);
      }
      if uid !in cluster.resources {
        return Result(false, false);
      }
      var ch := new CustomHostname(uid, cluster.resources[uid]);
      if ch.deleting {
        result := ReconcileDeleting(ch, o);
        return;
      }
      result := ReconcileLive(ch, o);
    }
  }
}
