/** What a reconcile tells: the condition it writes says how far it got, and a reconcile that
    gets through reports the record that Cloudflare then has. */
module Outcomes {
  import opened Types
  import opened SSL
  import opened CloudflareAPI
  import opened Worker
  import opened Runs
  import opened ZoneDrift
  import opened Convergence
  import opened Quiescence

  // ---- How far a reconcile gets ----

  // No Zone, or no token for it, can be read.
  ghost predicate Unavailable(cfg: Config, w: World, u: Uid, o: Outcome)
    requires u in w.resources
  {
    ZoneOf(cfg, w, u).None? || o.kubeReads == ZoneUnread
  }

  ghost predicate Foreign(cfg: Config, w: World, u: Uid, o: Outcome)
    requires u in w.resources
  {
    !Unavailable(cfg, w, u, o) && !OriginInZone(ZoneOf(cfg, w, u).value.domain, w.resources[u].spec.originServer)
  }

  // The Zone resolves and has the origin.
  ghost predicate Placed(cfg: Config, w: World, u: Uid, o: Outcome)
    requires u in w.resources
  {
    !Unavailable(cfg, w, u, o) && !Foreign(cfg, w, u, o)
  }

  // The reconcile searches Cloudflare.
  ghost predicate Searches(cfg: Config, w: World, u: Uid, o: Outcome)
    requires u in w.resources
  {
    Proceeds(cfg, w, u) && o.kubeReads == AllRead
  }

  // The call that writes is answered with success.
  ghost predicate WriteSucceeds(cfg: Config, w: World, u: Uid, o: Outcome)
    requires u in w.resources
  {
    var call := WriteCall(cfg, w, u, o);
    call.Some? && Retry(w.cloud, call.value, o.write, cfg.maxRetries).reply.Success?
  }

  // The reconcile has found, corrected or created the record of its hostname.
  ghost predicate GetsThrough(cfg: Config, w: World, u: Uid, o: Outcome)
    requires u in w.resources
  {
    var reply := SearchReply(cfg, w, u, o);
    && Searches(cfg, w, u, o) && reply.Success?
    && (if CallsNew(cfg, w, u, o) || CallsEdit(cfg, w, u, o) then WriteSucceeds(cfg, w, u, o) else reply.record.Some?)
  }

  // What the search of a reconcile that searches did not find.
  ghost predicate FindsNone(cfg: Config, w: World, u: Uid, o: Outcome)
    requires u in w.resources
  {
    Searches(cfg, w, u, o) && SearchReply(cfg, w, u, o) == Success(None)
  }

  // The reason for each way a reconcile can end.
  ghost predicate ReasonTells(cfg: Config, w: World, u: Uid, o: Outcome, s: Status, reason: Reason)
    requires u in w.resources
  {
    var observes := Management(cfg, w.resources[u].spec).Observe?;
    && (reason == ZoneError <==> Unavailable(cfg, w, u, o))
    && (reason == OriginNotInZone <==> Foreign(cfg, w, u, o))
    && (reason == HostnameConflict <==> Placed(cfg, w, u, o) && Opposed(w.resources, u))
    && (reason == LookupFailed <==> Searches(cfg, w, u, o) && SearchReply(cfg, w, u, o).Failed?)
    && (reason == WaitingForExternal <==> FindsNone(cfg, w, u, o) && observes)
    && (reason == DryRun <==> FindsNone(cfg, w, u, o) && !observes && cfg.dryRun)
    && (reason == CreateFailed <==> CallsNew(cfg, w, u, o) && !WriteSucceeds(cfg, w, u, o))
    && (reason == UpdateFailed <==> CallsEdit(cfg, w, u, o) && !WriteSucceeds(cfg, w, u, o))
    && (reason == Ready || reason == SSLPending <==> GetsThrough(cfg, w, u, o))
    && (reason == Ready <==> GetsThrough(cfg, w, u, o) && s.ssl.Some? && s.ssl.value.status == "active")
  }

  // The reason written once the record is known.
  ghost predicate FitsSSL(s: Status, generation: nat) {
    && s.ssl.Some?
    && s.ready == Some(if s.ssl.value.status == "active" then Condition(true, Ready, generation)
                       else Condition(false, SSLPending, generation))
  }

  lemma AdoptWrites(cfg: Config, zone: ZoneInfo, cloud: Cloud, ch: Resource, existing: Record, o: Outcome)
    ensures var turn := AdoptAndCorrect(cfg, zone, cloud, ch, existing, o);
            var edits := Drifted(ch.spec, existing) && Management(cfg, ch.spec).Manage? && !cfg.dryRun;
            var reply := Retry(cloud, EditCall(zone.id, ch.spec, existing), o.write, cfg.maxRetries).reply;
            && turn.write.PutStatus? && !turn.failed
            && (if edits && reply.Failed? then
                  turn.write.status.ready == Some(Condition(false, UpdateFailed, ch.generation))
                else FitsSSL(turn.write.status, ch.generation))
  {
    RetriedEdit(cloud, EditCall(zone.id, ch.spec, existing), o.write, cfg.maxRetries);
  }

  lemma CreateWrites(cfg: Config, zone: ZoneInfo, cloud: Cloud, ch: Resource, o: Outcome)
    requires CloudWF(cloud)
    ensures var turn := HandleCreate(cfg, zone, cloud, ch, o);
            var reply := Retry(cloud, NewCall(cfg, zone.id, ch.spec), o.write, cfg.maxRetries).reply;
            && turn.write.PutStatus? && !turn.failed
            && (if cfg.dryRun then turn.write.status.ready == Some(Condition(false, DryRun, ch.generation))
                else if reply.Failed? then
                  turn.write.status.ready == Some(Condition(false, CreateFailed, ch.generation))
                else FitsSSL(turn.write.status, ch.generation))
  {
    RetriedNew(cloud, NewCall(cfg, zone.id, ch.spec), o.write, cfg.maxRetries);
  }

  // What a searching reconcile writes, by what the search and the write are answered.
  ghost predicate WritesFor(cfg: Config, w: World, u: Uid, o: Outcome, s: Status)
    requires u in w.resources
  {
    var ch, reply := w.resources[u], SearchReply(cfg, w, u, o);
    var writes := CallsNew(cfg, w, u, o) || CallsEdit(cfg, w, u, o);
    if reply.Failed? then s.ready == Some(Condition(false, LookupFailed, ch.generation))
    else if reply.record.None? && Management(cfg, ch.spec).Observe? then
      s.ready == Some(Condition(false, WaitingForExternal, ch.generation))
    else if reply.record.None? && cfg.dryRun then s.ready == Some(Condition(false, DryRun, ch.generation))
    else if writes && !WriteSucceeds(cfg, w, u, o) then
      s.ready == Some(Condition(false, if reply.record.None? then CreateFailed else UpdateFailed, ch.generation))
    else FitsSSL(s, ch.generation)
  }

  lemma SearchingWrites(cfg: Config, w: World, u: Uid, o: Outcome)
    requires CloudWF(w.cloud) && u in w.resources && Searches(cfg, w, u, o)
    ensures var turn := Reconcile(cfg, w, u, o);
            turn.write.PutStatus? && !turn.failed && WritesFor(cfg, w, u, o, turn.write.status)
  {
    var ch, zone, reply := w.resources[u], ZoneOf(cfg, w, u).value, SearchReply(cfg, w, u, o);
    assert Reconcile(cfg, w, u, o) == ReconcileCloudflareState(cfg, zone, w.cloud, ch, o);
    FindChangesNothing(w.cloud, o.pages, ch.spec.hostname, o.lookup, cfg.maxRetries);
    if reply.Success? && reply.record.Some? {
      AdoptWrites(cfg, zone, w.cloud, ch, reply.record.value, o);
    } else if reply.Success? {
      CreateWrites(cfg, zone, w.cloud, ch, o);
    }
  }

  lemma WrittenTells(cfg: Config, w: World, u: Uid, o: Outcome, s: Status)
    requires u in w.resources && Searches(cfg, w, u, o) && WritesFor(cfg, w, u, o, s)
    ensures s.ready.Some? && ReasonTells(cfg, w, u, o, s, s.ready.value.reason)
    ensures var c := s.ready.value;
            c.observedGeneration == w.resources[u].generation && (c.isTrue <==> c.reason == Ready)
  {
  }

  /** The reconcile of a CR that is not terminating adds the finalizer, returns an error, or
      writes a condition, and which of these, and the reason of the condition, says how far it
      has got. The condition is about the current generation, and true only for Ready. */
  lemma ConditionTellsOutcome(cfg: Config, w: World, u: Uid, o: Outcome)
    requires CloudWF(w.cloud) && u in w.resources && !w.resources[u].deleting
    ensures var turn, ch := Reconcile(cfg, w, u, o), w.resources[u];
            && (turn.failed <==> turn.write == NoWrite)
            && (turn.write == NoWrite <==>
                  || o.kubeReads == ObjectUnread
                  || (o.kubeReads == PeersUnread && Placed(cfg, w, u, o) && ch.finalizer))
            && (turn.write.PutFinalizer? <==>
                  o.kubeReads != ObjectUnread && Placed(cfg, w, u, o) && !ch.finalizer)
            && (turn.write.PutFinalizer? ==> turn.write.held && turn.requeue)
            && (turn.write.PutStatus? ==>
                  && turn.write.status.ready.Some?
                  && var c := turn.write.status.ready.value;
                  && c.observedGeneration == ch.generation && (c.isTrue <==> c.reason == Ready)
                  && ReasonTells(cfg, w, u, o, turn.write.status, c.reason))
  {
    if Searches(cfg, w, u, o) {
      SearchingWrites(cfg, w, u, o);
      WrittenTells(cfg, w, u, o, Reconcile(cfg, w, u, o).write.status);
    }
  }

  // ---- What it reports ----

  // The status tells what the record holds, and nothing of it is left over from before.
  ghost predicate Tells(s: Status, record: Record, generation: nat) {
    && s.id == record.id
    && s.hostnameStatus == record.status
    && s.ssl.Some? && Shows(s.ssl.value, record.ssl)
    && s.consecutiveErrors == 0
    && s.ready == Some(ReadyFor(record, generation))
  }

  lemma ReadyTurnTells(cloud: Cloud, ch: Resource, s: Status, record: Record, operation: Operation, o: Outcome)
    requires s.id == record.id
    ensures Tells(ReadyTurn(cloud, ch, Refresh(s, record), operation, o).write.status, record, ch.generation)
  {
    StatusShowsResponse(record.ssl);
  }

  lemma CreateTells(cfg: Config, zone: ZoneInfo, cloud: Cloud, ch: Resource, o: Outcome)
    requires CloudWF(cloud) && !cfg.dryRun
    requires Retry(cloud, NewCall(cfg, zone.id, ch.spec), o.write, cfg.maxRetries).reply.Success?
    ensures var turn, s := HandleCreate(cfg, zone, cloud, ch, o), HandleCreate(cfg, zone, cloud, ch, o).write.status;
            && s.id in turn.cloud.records && s.id !in cloud.records
            && Tells(s, turn.cloud.records[s.id], ch.generation)
            && s.createCount == ch.status.createCount + 1
            && s.sslProvisioningStartedAt == Some(o.now)
  {
    var call := NewCall(cfg, zone.id, ch.spec);
    RetriedNew(cloud, call, o.write, cfg.maxRetries);
    RetryKeepsCloudWF(cloud, call, o.write, cfg.maxRetries);
    var r := Retry(cloud, call, o.write, cfg.maxRetries);
    var resp := r.reply.record.value;
    var s := ch.status.(sslProvisioningStartedAt := Some(o.now),
                        createCount := ch.status.createCount + 1,
                        id := resp.id);
    ReadyTurnTells(r.cloud, ch, s, resp, NoOperation, o);
    assert resp.id !in cloud.records;
  }

  lemma AdoptTells(cfg: Config, zone: ZoneInfo, cloud: Cloud, ch: Resource, existing: Record, o: Outcome)
    requires CloudWF(cloud) && existing.id in cloud.records && cloud.records[existing.id] == existing
    requires Drifted(ch.spec, existing) && Management(cfg, ch.spec).Manage? && !cfg.dryRun ==>
               Retry(cloud, EditCall(zone.id, ch.spec, existing), o.write, cfg.maxRetries).reply.Success?
    ensures var turn := AdoptAndCorrect(cfg, zone, cloud, ch, existing, o);
            var s := turn.write.status;
            && s.id == existing.id && s.id in turn.cloud.records
            && Tells(s, turn.cloud.records[s.id], ch.generation)
            && s.createCount == ch.status.createCount
            && s.sslProvisioningStartedAt == ch.status.sslProvisioningStartedAt
  {
    var call := EditCall(zone.id, ch.spec, existing);
    var adopted := ch.status.(id := existing.id);
    if Drifted(ch.spec, existing) && Management(cfg, ch.spec).Manage? && !cfg.dryRun {
      RetriedEdit(cloud, call, o.write, cfg.maxRetries);
      RetryKeepsCloudWF(cloud, call, o.write, cfg.maxRetries);
      var r := Retry(cloud, call, o.write, cfg.maxRetries);
      ReadyTurnTells(r.cloud, ch, adopted, r.reply.record.value, NoOperation, o);
    } else {
      ReadyTurnTells(cloud, ch, adopted, existing, NoOperation, o);
    }
  }

  /** Every reconcile that gets through, after however many failed attempts, reports the record
      of its hostname that Cloudflare then has: its id, its statuses, its certificate, and Ready
      if and only if the certificate is active. A creation is new, is counted, and starts the
      provisioning timer anew; nothing else touches count and timer. */
  lemma GettingThroughTells(cfg: Config, w: World, u: Uid, o: Outcome)
    requires WorldInv(w) && u in w.resources && ValidOutcome(cfg, w, u, o) && GetsThrough(cfg, w, u, o)
    ensures Reconcile(cfg, w, u, o).write.PutStatus?
    ensures var turn, before := Reconcile(cfg, w, u, o), w.resources[u].status;
            var s := turn.write.status;
            && IsRecordOf(turn.cloud.records, ZoneOf(cfg, w, u).value.id, w.resources[u].spec.hostname, s.id)
            && Tells(s, turn.cloud.records[s.id], w.resources[u].generation)
            && (if CallsNew(cfg, w, u, o) then
                  && s.id !in w.cloud.records
                  && s.createCount == before.createCount + 1 && s.sslProvisioningStartedAt == Some(o.now)
                else
                  && SearchReply(cfg, w, u, o).record.value.id == s.id
                  && s.createCount == before.createCount
                  && s.sslProvisioningStartedAt == before.sslProvisioningStartedAt)
  {
    var ch, zone, reply := w.resources[u], ZoneOf(cfg, w, u).value, SearchReply(cfg, w, u, o);
    FindChangesNothing(w.cloud, o.pages, ch.spec.hostname, o.lookup, cfg.maxRetries);
    SearchReplyIsTruthful(cfg, w, u, o);
    assert Reconcile(cfg, w, u, o) == ReconcileCloudflareState(cfg, zone, w.cloud, ch, o);
    if CallsNew(cfg, w, u, o) {
      CreateTells(cfg, zone, w.cloud, ch, o);
      RetriedNew(w.cloud, NewCall(cfg, zone.id, ch.spec), o.write, cfg.maxRetries);
      var id := Reconcile(cfg, w, u, o).write.status.id;
      assert MadeBy(NewCall(cfg, zone.id, ch.spec), Reconcile(cfg, w, u, o).cloud.records[id]);
    } else {
      AdoptTells(cfg, zone, w.cloud, ch, reply.record.value, o);
      RetriedEdit(w.cloud, EditCall(zone.id, ch.spec, reply.record.value), o.write, cfg.maxRetries);
    }
  }

  /** A reconcile that does not get through leaves what was reported, the count and the timer as
      they were; it takes up another id only if its edit of that record has failed. */
  lemma FailureKeepsReport(cfg: Config, w: World, u: Uid, o: Outcome)
    requires CloudWF(w.cloud) && u in w.resources && !w.resources[u].deleting && !GetsThrough(cfg, w, u, o)
    requires Reconcile(cfg, w, u, o).write.PutStatus?
    ensures var before, after := w.resources[u].status, Reconcile(cfg, w, u, o).write.status;
            && after.ssl == before.ssl && after.hostnameStatus == before.hostnameStatus
            && after.createCount == before.createCount
            && after.sslProvisioningStartedAt == before.sslProvisioningStartedAt
            && after.id == if CallsEdit(cfg, w, u, o) then SearchReply(cfg, w, u, o).record.value.id else before.id
  {
    var ch, zone := w.resources[u], ZoneOf(cfg, w, u);
    FindChangesNothing(w.cloud, o.pages, ch.spec.hostname, o.lookup, cfg.maxRetries);
    if Searches(cfg, w, u, o) {
      if WriteCall(cfg, w, u, o).Some? {
        WritesAnswerWithRecord(cfg, w, u, o);
      }
      assert Reconcile(cfg, w, u, o) == ReconcileCloudflareState(cfg, zone.value, w.cloud, ch, o);
    } else {
      WaitingTurn(cfg, w, u, o);
    }
  }

  /** After a reconcile that gets through, a pass that sees the record enqueues the CR again if
      and only if the record does not meet the spec, under every policy: a settled CR is left
      alone, and one that observe, create or a dry run leaves drifted is not. */
  lemma SettledIsQuiet(cfg: Config, w: World, u: Uid, o: Outcome)
    requires WorldInv(w) && u in w.resources && ValidOutcome(cfg, w, u, o) && GetsThrough(cfg, w, u, o) && o.persisted
    ensures var w' := Step(cfg, w, u, o);
            && u in w'.resources && w'.resources[u].status.id in w'.cloud.records
            && var record := w'.cloud.records[w'.resources[u].status.id];
            Enqueues(Some(record), w'.resources[u]) <==> !Meets(w'.resources[u].spec, record)
  {
    GettingThroughTells(cfg, w, u, o);
    var w' := Step(cfg, w, u, o);
    var ch := w'.resources[u];
    var record := w'.cloud.records[ch.status.id];
    DriftIsExact(ch.spec, record);
    ToldIsQuiet(ch, record);
  }

  lemma ToldIsQuiet(ch: Resource, record: Record)
    requires Tells(ch.status, record, ch.generation)
    ensures Enqueues(Some(record), ch) <==> Drifted(ch.spec, record)
  {
    StatusShowsResponse(record.ssl);
    SameMeansSilence(ch.status.ssl.value, record.ssl);
  }

  /** Whether a pass enqueues a CR depends on what it has reported and on what its spec asks of
      the record, and on nothing else: not on policies, finalizers, generations or a deletion. */
  lemma PassLooksAtRecordOnly(found: Option<Record>, a: Resource, b: Resource)
    requires a.status == b.status
    requires a.spec == b.spec.(managementPolicy := a.spec.managementPolicy,
                               deletePolicy := a.spec.deletePolicy,
                               zoneRef := a.spec.zoneRef,
                               hostname := a.spec.hostname)
    ensures Enqueues(found, a) <==> Enqueues(found, b)
  {
  }

  // ---- Zones ----

  /** A Zone is found under its name, in the namespace of the reference or else of the operator,
      and is of use only with its token. */
  lemma ZoneNeedsToken(cfg: Config, w: World, u: Uid)
    requires u in w.resources
    ensures var ref := w.resources[u].spec.zoneRef;
            var key := ZoneRef(ref.name, if ref.namespace == "" then cfg.operatorNamespace else ref.namespace);
            ZoneOf(cfg, w, u)
            == if key in w.zones && w.zones[key].credentials then Some(ZoneInfo(w.zones[key].id, w.zones[key].domain))
               else None
  {
  }

  /** Without it nothing is called: a live CR records one more error, under ZoneError, and a
      terminating one that needs Cloudflare keeps its finalizer and returns an error. */
  lemma NoZoneNoCall(cfg: Config, w: World, u: Uid, o: Outcome)
    requires u in w.resources && Unavailable(cfg, w, u, o) && o.kubeReads != ObjectUnread
    ensures var turn, ch := Reconcile(cfg, w, u, o), w.resources[u];
            && turn.cloud == w.cloud
            && (!ch.deleting ==>
                  && turn.write.PutStatus? && !turn.failed
                  && turn.write.status.consecutiveErrors == ch.status.consecutiveErrors + 1
                  && turn.write.status.ready == Some(Condition(false, ZoneError, ch.generation)))
            && (ch.deleting && !(ch.finalizer && (ch.status.id == 0 || Management(cfg, ch.spec).Observe?
                                                  || Deletion(cfg, ch.spec).Never?)) ==>
                  turn.write == NoWrite && turn.failed)
  {
  }

  /** A pass of a Zone takes up the CRs that resolve to it, and those that leave the namespace
      out, and leaves alone those that name it in another namespace. */
  lemma PassTakesItsOwn(cfg: Config, zone: ZoneRef, index: map<string, Record>, items: seq<Item>, item: Item)
    requires item in items
    ensures ResolveRef(cfg, item.resource.spec.zoneRef) == zone && Selects(index, item.resource) ==>
              item.uid in Events(zone, index, items)
    ensures var ref := item.resource.spec.zoneRef;
            && (RefersToZone(item.resource.spec, zone) <==>
                  || ResolveRef(cfg, ref) == zone
                  || (ref.name == zone.name && ref.namespace == ""))
            && ((forall other :: other in items && other.uid == item.uid ==> other == item)
                && (ref.name != zone.name || (ref.namespace != "" && ref.namespace != zone.namespace)) ==>
                  item.uid !in Events(zone, index, items))
  {
    EventsAreExact(zone, index, items, item.uid);
  }
}
