/** When the coordinator stays silent, and what that silence means: for a settled CR, after a
    failure, and for a CR in conflict. */
module Quiescence {
  import opened Types
  import opened SSL
  import opened Listing
  import opened CloudflareAPI
  import opened Worker
  import opened Runs
  import opened ZoneDrift
  import opened Convergence
  import opened SSLGauge

  // ---- Quiet means nothing to do ----

  // The status changes at most in its id, the Ready condition, and the hosts, validation
  // records and validation errors of the certificate.
  ghost predicate ChangesOnlyDetails(before: Status, after: Status) {
    && before.ssl.Some? && after.ssl.Some?
    && SameButProgress(before.ssl.value, after.ssl.value)
    && after == before.(id := after.id, ready := after.ready, ssl := after.ssl)
  }

  // Some record of the CR's hostname in the zone has drifted.
  ghost predicate SomeDrifted(w: World, zone: string, u: Uid)
    requires u in w.resources
  {
    exists id :: IsRecordOf(w.cloud.records, zone, w.resources[u].spec.hostname, id)
                 && Drifted(w.resources[u].spec, w.cloud.records[id])
  }

  // A reconcile of a live CR that writes has found its hostname missing or a record drifted.
  lemma WritingMeansMissingOrDrifted(cfg: Config, w: World, u: Uid, o: Outcome)
    requires u in w.resources && ValidOutcome(cfg, w, u, o) && ZoneOf(cfg, w, u).Some?
    requires !w.resources[u].deleting && WriteCall(cfg, w, u, o).Some?
    ensures var zone, host := ZoneOf(cfg, w, u).value.id, w.resources[u].spec.hostname;
            || (CallsNew(cfg, w, u, o) && forall id :: !IsRecordOf(w.cloud.records, zone, host, id))
            || (CallsEdit(cfg, w, u, o) && SomeDrifted(w, zone, u))
  {
    SearchReplyIsTruthful(cfg, w, u, o);
    if CallsEdit(cfg, w, u, o) {
      var found := SearchReply(cfg, w, u, o).record.value;
      assert IsRecordOf(w.cloud.records, ZoneOf(cfg, w, u).value.id, w.resources[u].spec.hostname, found.id);
    }
  }

  // A listing that shows this record before any other.
  lemma ListingWithFirst(records: map<Id, Record>, zone: string, id: Id) returns (listing: seq<Record>)
    requires forall i :: i in records ==> records[i].id == i
    requires id in records && records[id].zone == zone
    ensures ValidBulk(listing, records, zone)
    ensures FirstMatch(listing, records[id].hostname) == Some(records[id])
  {
    var rest := ListingExists(records, zone, records.Keys);
    listing := [records[id]] + rest;
  }

  // The reconcile leaves Cloudflare as it is.
  ghost predicate WritesNothing(cfg: Config, w: World, u: Uid, o: Outcome)
    requires u in w.resources
  {
    ValidOutcome(cfg, w, u, o) ==> Step(cfg, w, u, o).cloud == w.cloud
  }

  /** If a pass does not enqueue a CR that is not terminating, then some outcome makes its
      reconcile write to Cloudflare if and only if the CR would proceed, is managed outside a
      dry run, and a record of its hostname has drifted. With one record of the hostname the
      pass has seen it. */
  lemma QuietMeansNoWrite(cfg: Config, w: World, u: Uid, found: Option<Record>)
    requires CloudWF(w.cloud) && u in w.resources && !w.resources[u].deleting && ZoneOf(cfg, w, u).Some?
    requires Search(w.cloud.records, ZoneOf(cfg, w, u).value.id, w.resources[u].spec.hostname, found)
    requires !Enqueues(found, w.resources[u])
    ensures var ch, zone := w.resources[u], ZoneOf(cfg, w, u).value.id;
            && ((forall o :: WritesNothing(cfg, w, u, o))
                <==> !(Proceeds(cfg, w, u) && Management(cfg, ch.spec).Manage? && !cfg.dryRun
                       && SomeDrifted(w, zone, u)))
            && (AtMostOne(w.cloud.records, zone, ch.spec.hostname) && !IsHostnameConflict(ch.status) ==>
                  !SomeDrifted(w, zone, u))
  {
    var ch, zone := w.resources[u], ZoneOf(cfg, w, u).value.id;
    assert IsRecordOf(w.cloud.records, zone, ch.spec.hostname, found.value.id);
    if Proceeds(cfg, w, u) && Management(cfg, ch.spec).Manage? && !cfg.dryRun && SomeDrifted(w, zone, u) {
      var o := EditHappens(cfg, w, u);
      assert !WritesNothing(cfg, w, u, o);
    } else {
      forall o ensures WritesNothing(cfg, w, u, o) {
        if ValidOutcome(cfg, w, u, o) {
          OneWritingCall(cfg, w, u, o);
          if WriteCall(cfg, w, u, o).Some? {
            WritingMeansMissingOrDrifted(cfg, w, u, o);
          }
        }
      }
    }
  }

  // A drifted record of a managed CR is edited as soon as the search shows it first.
  lemma EditHappens(cfg: Config, w: World, u: Uid) returns (o: Outcome)
    requires CloudWF(w.cloud) && u in w.resources && Proceeds(cfg, w, u) && !cfg.dryRun
    requires Management(cfg, w.resources[u].spec).Manage? && SomeDrifted(w, ZoneOf(cfg, w, u).value.id, u)
    ensures FailureFree(cfg, w, u, o) && CallsEdit(cfg, w, u, o) && Step(cfg, w, u, o).cloud != w.cloud
  {
    var ch, zone := w.resources[u], ZoneOf(cfg, w, u).value;
    var id :| IsRecordOf(w.cloud.records, zone.id, ch.spec.hostname, id) && Drifted(ch.spec, w.cloud.records[id]);
    var listing := ListingWithFirst(w.cloud.records, zone.id, id);
    o := OutcomeFrom(cfg, w, u, listing);
    SearchSucceeds(cfg, w, u, o);
    var call, fill := EditCall(zone.id, ch.spec, w.cloud.records[id]), First(o.write).fate.fill;
    OneWritingCall(cfg, w, u, o);
    FirstAttemptDecides(w.cloud, call, o.write, cfg.maxRetries);
    EditClosesDrift(ch.spec, w.cloud.records[id], zone.id, fill);
    assert Step(cfg, w, u, o).cloud.records[id] == EditedRecord(w.cloud.records[id], call, fill);
  }

  /** If a pass does not enqueue a finalized, unopposed CR that is neither in conflict nor
      without status.ssl, a reconcile whose search shows the record that the pass has seen
      writes nothing to Cloudflare. Unless a read fails it changes only details of the status,
      if and only if the Zone resolves and the origin is in it. */
  lemma QuietMeansNothingToDo(cfg: Config, w: World, u: Uid, o: Outcome, found: Option<Record>)
    requires u in w.resources
    requires !w.resources[u].deleting && w.resources[u].finalizer && !Opposed(w.resources, u)
    requires FirstMatch(Flatten(o.pages), w.resources[u].spec.hostname) == found
    requires !Enqueues(found, w.resources[u])
    requires !IsHostnameConflict(w.resources[u].status) && w.resources[u].status.ssl.Some?
    ensures var turn, ch, zone := Reconcile(cfg, w, u, o), w.resources[u], ZoneOf(cfg, w, u);
            && turn.cloud == w.cloud
            && (o.kubeReads.AllRead? && SearchReply(cfg, w, u, o).Success? ==>
                  && turn.write.PutStatus?
                  && (ChangesOnlyDetails(ch.status, turn.write.status) <==>
                        zone.Some? && OriginInZone(zone.value.domain, ch.spec.originServer)))
  {
    var ch := w.resources[u];
    OneWritingCall(cfg, w, u, o);
    FindChangesNothing(w.cloud, o.pages, ch.spec.hostname, o.lookup, cfg.maxRetries);
    if Proceeds(cfg, w, u) && o.kubeReads.AllRead? && SearchReply(cfg, w, u, o).Success? {
      CheapComparisonIsExact(ch.status.ssl, found.value.ssl);
      assert Reconcile(cfg, w, u, o)
          == AdoptAndCorrect(cfg, ZoneOf(cfg, w, u).value, w.cloud, ch, found.value, o);
    }
  }

  // Adopting a record without drift that is worth an event changes more than details.
  lemma RefreshChangesStatus(cfg: Config, zone: ZoneInfo, cloud: Cloud, ch: Resource, found: Record, o: Outcome)
    requires !Drifted(ch.spec, found) && Enqueues(Some(found), ch)
    ensures var turn := AdoptAndCorrect(cfg, zone, cloud, ch, found, o);
            turn.write.PutStatus? && !ChangesOnlyDetails(ch.status, turn.write.status)
  {
    CheapComparisonIsExact(ch.status.ssl, found.ssl);
  }

  /** Conversely a pass enqueues no managed CR in vain: reconciling it without failure, with a
      search that shows what the pass has seen, writes to Cloudflare or changes more than
      details. */
  lemma EnqueuedMeansSomethingToDo(cfg: Config, w: World, u: Uid, o: Outcome, found: Option<Record>)
    requires WorldInv(w) && u in w.resources && FailureFree(cfg, w, u, o) && Proceeds(cfg, w, u)
    requires Management(cfg, w.resources[u].spec).Manage? && !cfg.dryRun
    requires FirstMatch(Flatten(o.pages), w.resources[u].spec.hostname) == found
    requires Enqueues(found, w.resources[u])
    ensures var turn := Reconcile(cfg, w, u, o);
            turn.cloud == w.cloud ==>
              turn.write.PutStatus? && !ChangesOnlyDetails(w.resources[u].status, turn.write.status)
  {
    var ch, zone := w.resources[u], ZoneOf(cfg, w, u).value;
    SearchSucceeds(cfg, w, u, o);
    SearchReplyIsTruthful(cfg, w, u, o);
    if found.None? {
      CreatedReports(cfg, w, u, o);
      assert IsRecordOf(Step(cfg, w, u, o).cloud.records, zone.id, ch.spec.hostname, w.cloud.next);
    } else if Drifted(ch.spec, found.value) {
      EditedReports(cfg, w, u, o);
    } else {
      FindChangesNothing(w.cloud, o.pages, ch.spec.hostname, o.lookup, cfg.maxRetries);
      assert Reconcile(cfg, w, u, o) == AdoptAndCorrect(cfg, zone, w.cloud, ch, found.value, o);
      RefreshChangesStatus(cfg, zone, w.cloud, ch, found.value, o);
    }
  }

  /** The two views agree on a hostname with one record: the search shows what the pass saw. */
  lemma SearchAgreesWithPass(cfg: Config, w: World, u: Uid, o: Outcome, listing: seq<Record>)
    requires u in w.resources && ValidOutcome(cfg, w, u, o) && ZoneOf(cfg, w, u).Some?
    requires AtMostOne(w.cloud.records, ZoneOf(cfg, w, u).value.id, w.resources[u].spec.hostname)
    requires ValidBulk(listing, w.cloud.records, ZoneOf(cfg, w, u).value.id)
    ensures FirstMatch(Flatten(o.pages), w.resources[u].spec.hostname)
            == Lookup(Index(listing), w.resources[u].spec.hostname)
  {
    var zone, host := ZoneOf(cfg, w, u).value.id, w.resources[u].spec.hostname;
    SearchIsTruthful(cfg, w, u, o);
    LookupIsTruthful(listing, w.cloud.records, zone, host);
    var first, last := FirstMatch(Flatten(o.pages), host), Lookup(Index(listing), host);
    assert first.Some? ==> IsRecordOf(w.cloud.records, zone, host, first.value.id);
    assert last.Some? ==> IsRecordOf(w.cloud.records, zone, host, last.value.id);
  }

  // ---- Failures ----

  // A reconcile of a CR that is not terminating records a failure: no zone or token, a foreign
  // origin, or a call that fails for good.
  ghost predicate Fails(cfg: Config, w: World, u: Uid, o: Outcome)
    requires u in w.resources
  {
    var ch, zone, call := w.resources[u], ZoneOf(cfg, w, u), WriteCall(cfg, w, u, o);
    && !ch.deleting && !o.kubeReads.ObjectUnread?
    && (|| zone.None? || o.kubeReads.ZoneUnread?
        || !OriginInZone(zone.value.domain, ch.spec.originServer)
        || (Proceeds(cfg, w, u) && o.kubeReads.AllRead?
            && (|| SearchReply(cfg, w, u, o).Failed?
                || (call.Some? && Retry(w.cloud, call.value, o.write, cfg.maxRetries).reply.Failed?))))
  }

  // A reconcile that gets through clears the error count, but for a dry run that would create.
  ghost predicate Clears(cfg: Config, w: World, u: Uid, o: Outcome)
    requires u in w.resources
  {
    && Proceeds(cfg, w, u) && o.kubeReads.AllRead? && !Fails(cfg, w, u, o)
    && !(cfg.dryRun && !Management(cfg, w.resources[u].spec).Observe? && SearchReply(cfg, w, u, o) == Success(None))
  }

  // A successful create or edit answers with the record.
  lemma WritesAnswerWithRecord(cfg: Config, w: World, u: Uid, o: Outcome)
    requires CloudWF(w.cloud) && u in w.resources && !w.resources[u].deleting && WriteCall(cfg, w, u, o).Some?
    ensures var reply := Retry(w.cloud, WriteCall(cfg, w, u, o).value, o.write, cfg.maxRetries).reply;
            reply.Success? ==> reply.record.Some?
  {
    var call := WriteCall(cfg, w, u, o).value;
    if call.New? {
      RetriedNew(w.cloud, call, o.write, cfg.maxRetries);
    } else {
      RetriedEdit(w.cloud, call, o.write, cfg.maxRetries);
    }
  }

  // The error count that a reconcile leaves.
  ghost function ErrorsAfter(cfg: Config, w: World, u: Uid, o: Outcome): nat
    requires u in w.resources
  {
    var errors := w.resources[u].status.consecutiveErrors;
    if Fails(cfg, w, u, o) then errors + 1 else if Clears(cfg, w, u, o) then 0 else errors
  }

  lemma WorkingErrors(cfg: Config, w: World, u: Uid, o: Outcome)
    requires CloudWF(w.cloud) && u in w.resources && Proceeds(cfg, w, u) && o.kubeReads.AllRead?
    ensures var turn := Reconcile(cfg, w, u, o);
            && turn.write.PutStatus? && turn.write.status.consecutiveErrors == ErrorsAfter(cfg, w, u, o)
            && !IsHostnameConflict(turn.write.status)
  {
    var ch, zone := w.resources[u], ZoneOf(cfg, w, u);
    FindChangesNothing(w.cloud, o.pages, ch.spec.hostname, o.lookup, cfg.maxRetries);
    if WriteCall(cfg, w, u, o).Some? {
      WritesAnswerWithRecord(cfg, w, u, o);
    }
    assert Reconcile(cfg, w, u, o) == ReconcileCloudflareState(cfg, zone.value, w.cloud, ch, o);
  }

  /** A stored reconcile raises consecutiveErrors by one if it fails and clears it if it gets
      through; after a failure every next pass enqueues the CR, whatever it finds in
      Cloudflare. */
  lemma FailureIsRetried(cfg: Config, w: World, u: Uid, o: Outcome)
    requires CloudWF(w.cloud) && u in w.resources && !w.resources[u].deleting && o.persisted
    ensures var after := Step(cfg, w, u, o).resources[u];
            && after.status.consecutiveErrors == ErrorsAfter(cfg, w, u, o)
            && (Fails(cfg, w, u, o) ==> forall found :: Enqueues(found, after))
  {
    if Proceeds(cfg, w, u) && o.kubeReads.AllRead? {
      WorkingErrors(cfg, w, u, o);
    }
  }

  // A pass enqueues the CR whatever it finds in Cloudflare.
  ghost predicate AlwaysEnqueued(ch: Resource) {
    !IsHostnameConflict(ch.status) && ch.status.consecutiveErrors > 0
  }

  // The event is a stored reconcile of the CR that gets through, or marks it as a conflict.
  ghost predicate Settles(s: State, e: Event, u: Uid)
    requires Enabled(s, e)
  {
    && e.Work? && e.uid == u && e.o.persisted
    && (Clears(e.cfg, s.world, u, e.o) || Opposed(s.world.resources, u))
  }

  ghost predicate NoneSettles(s: State, events: seq<Event>, u: Uid)
    requires Feasible(s, events)
    decreases events
  {
    events == [] || (!Settles(s, events[0], u) && NoneSettles(Occur(s, events[0]), events[1..], u))
  }

  lemma EventKeepsEnqueued(s: State, e: Event, u: Uid)
    requires Inv(s) && Enabled(s, e) && u in s.world.resources && u in Occur(s, e).world.resources
    requires AlwaysEnqueued(s.world.resources[u]) && !Settles(s, e, u)
    ensures AlwaysEnqueued(Occur(s, e).world.resources[u])
  {
    if e.Work? {
      if e.uid != u {
        StepOfOthers(e.cfg, s.world, e.uid, e.o, u);
      } else if e.o.persisted && !s.world.resources[u].deleting {
        FailureIsRetried(e.cfg, s.world, u, e.o);
        OnlyOpposedAreMarked(e.cfg, s.world, u, e.o);
      }
    } else if e.UserCreate? || e.UserEdit? || e.UserDelete? || e.SetFinalizers? || e.ZonesChange? {
      UserEventLeavesStatuses(s, e, u);
    }
  }

  lemma OnlyOpposedAreMarked(cfg: Config, w: World, u: Uid, o: Outcome)
    requires u in w.resources && !w.resources[u].deleting && !Opposed(w.resources, u)
    ensures var turn := Reconcile(cfg, w, u, o);
            turn.write.PutStatus? && IsHostnameConflict(turn.write.status) ==> IsHostnameConflict(w.resources[u].status)
  {
  }

  // The CR is not removed in the run.
  ghost predicate Stays(s: State, events: seq<Event>, u: Uid)
    requires Feasible(s, events)
    decreases events
  {
    u in s.world.resources && (events == [] || Stays(Occur(s, events[0]), events[1..], u))
  }

  /** No failure is forgotten: through any run, whatever users, other clients, crashes and
      restarts do, every pass enqueues a CR with a recorded failure, until a reconcile of it
      gets through or marks it as a conflict. */
  lemma {:induction false} FailureStaysEnqueued(s: State, events: seq<Event>, u: Uid, found: Option<Record>)
    requires Inv(s) && Feasible(s, events) && Stays(s, events, u)
    requires AlwaysEnqueued(s.world.resources[u]) && NoneSettles(s, events, u)
    ensures u in Run(s, events).world.resources && Enqueues(found, Run(s, events).world.resources[u])
    decreases events
  {
    if events != [] {
      EventKeepsInv(s, events[0]);
      EventKeepsEnqueued(s, events[0], u);
      FailureStaysEnqueued(Occur(s, events[0]), events[1..], u, found);
    }
  }

  // ---- The provisioning duration ----

  // The duration goes under the CR's Zone and hostname, and the method of its certificate, else
  // of its spec, else http.
  ghost predicate ReportsSeries(spec: Spec, s: Status, series: Series) {
    && series.zone == spec.zoneRef.name && series.hostname == spec.hostname
    && s.ssl.Some?
    && var actual, asked := s.ssl.value.config.dcvMethod, Settings(spec).dcvMethod;
    && (actual != "" ==> series.dcvMethod == actual)
    && (actual == "" && asked != "" ==> series.dcvMethod == asked)
    && (actual == "" && asked == "" ==> series.dcvMethod == "http")
  }

  // A duration is reported exactly for a CR that was created by the operator and turns ready.
  ghost predicate ReportsOnReady(ch: Resource, turn: Turn, o: Outcome) {
    var before := ch.status;
    && (turn.observed.Some? <==>
          && turn.write.PutStatus?
          && turn.write.status.ready.Some? && turn.write.status.ready.value.isTrue
          && turn.write.status.createCount > 0
          && !(before.ready.Some? && before.ready.value.isTrue))
    && (turn.observed.Some? ==>
          && turn.write.status.sslProvisioningStartedAt.Some?
          && turn.observed.value.duration == o.now - turn.write.status.sslProvisioningStartedAt.value
          && ReportsSeries(ch.spec, turn.write.status, turn.observed.value.series))
  }

  lemma ReadyTurnReports(cloud: Cloud, ch: Resource, s: Status, operation: Operation, o: Outcome)
    requires s.ready == ch.status.ready && (s.createCount > 0 <==> s.sslProvisioningStartedAt.Some?)
    ensures ReportsOnReady(ch, ReadyTurn(cloud, ch, s, operation, o), o)
  {
  }

  lemma StateTurnReports(cfg: Config, zone: ZoneInfo, cloud: Cloud, ch: Resource, o: Outcome)
    requires ch.status.createCount > 0 <==> ch.status.sslProvisioningStartedAt.Some?
    ensures ReportsOnReady(ch, ReconcileCloudflareState(cfg, zone, cloud, ch, o), o)
  {
    var look := Retry(cloud, Find(o.pages, ch.spec.hostname), o.lookup, cfg.maxRetries);
    if look.reply.Success? && look.reply.record.Some? {
      var existing := look.reply.record.value;
      var edited := Retry(cloud, EditCall(zone.id, ch.spec, existing), o.write, cfg.maxRetries);
      var adopted := ch.status.(id := existing.id);
      ReadyTurnReports(cloud, ch, Refresh(adopted, existing), NoOperation, o);
      if edited.reply.Success? && edited.reply.record.Some? {
        ReadyTurnReports(edited.cloud, ch, Refresh(adopted, edited.reply.record.value), NoOperation, o);
      }
    }
  }

  /** A reconcile reports a provisioning duration exactly when it turns the Ready condition
      true, from anything else, of a CR that the operator has created: the time since the
      last creation. */
  lemma ReadyReportsDuration(cfg: Config, w: World, u: Uid, o: Outcome)
    requires WorldInv(w) && u in w.resources
    ensures ReportsOnReady(w.resources[u], Reconcile(cfg, w, u, o), o)
  {
    assert StatusOK(w.cloud, w.resources[u]);
    if Proceeds(cfg, w, u) && o.kubeReads.AllRead? {
      StateTurnReports(cfg, ZoneOf(cfg, w, u).value, w.cloud, w.resources[u], o);
    } else if w.resources[u].deleting {
      DeleteIsSound(cfg, w, w.resources[u], o);
    } else {
      WaitingTurn(cfg, w, u, o);
    }
  }

  // ---- What wakes the worker, and what the states mean ----

  // fastWritePredicate on a Create event, which a restart brings for every CR.
  predicate AdmitsCreate(ch: Resource) {
    ch.deleting || ch.status.id == 0
  }

  // fastWritePredicate on an Update event.
  predicate AdmitsUpdate(before: Resource, after: Resource) {
    before.generation != after.generation
  }

  /** An update wakes the worker exactly when a user has changed the spec or has begun to
      delete the CR; none of the worker's own writes does. */
  lemma UpdatesWakeForUserChanges(s: State, e: Event, u: Uid)
    requires Enabled(s, e) && u != s.nextUid && u in s.world.resources && u in Occur(s, e).world.resources
    ensures var before, after := s.world.resources[u], Occur(s, e).world.resources[u];
            && (AdmitsUpdate(before, after) <==>
                  before.spec != after.spec || (!before.deleting && after.deleting))
            && (e.Work? ==> !AdmitsUpdate(before, after))
  {
  }

  /** Every CR is counted in one state: conflict comes first, and ready counts for more than
      errors, even where both are recorded. */
  lemma StatesHavePriority(s: Status)
    ensures var marked, ready := s.ready.Some? && s.ready.value.reason == HostnameConflict,
                                 s.ready.Some? && s.ready.value.isTrue;
            && (StateOf(s) == ConflictState <==> marked)
            && (StateOf(s) == ReadyState <==> ready && !marked)
            && (StateOf(s) == UnhealthyState <==> s.consecutiveErrors > 0 && !ready && !marked)
  {
  }

  /** In every reachable state the state of a CR says the same whatever the order of its
      tests: only conflict takes precedence, and ready excludes errors. */
  lemma StatesAreTruthful(cloud: Cloud, ch: Resource)
    requires StatusOK(cloud, ch)
    ensures var s, state := ch.status, StateOf(ch.status);
            && (state == ReadyState <==> s.ready.Some? && s.ready.value.isTrue)
            && (state == ReadyState ==>
                  s.id != 0 && s.consecutiveErrors == 0 && s.ssl.Some? && s.ssl.value.status == ACTIVE)
            && (state == ConflictState <==> IsHostnameConflict(s))
            && (state == ConflictState ==> s.id == 0)
            && (state == UnhealthyState <==> s.consecutiveErrors > 0 && !IsHostnameConflict(s))
  {
  }

  // ---- Conflicts that are not quiet ----

  /** A conflict is not quiet: a marked CR, which has reported nothing of Cloudflare, is enqueued
      by every pass as long as the record, if it reports any status, has not drifted from its
      spec; and the reconcile, which only marks the conflict again, leaves it just as noisy. */
  lemma ConflictNoiseRepeats(cfg: Config, w: World, u: Uid, o: Outcome, found: Record)
    requires u in w.resources && StatusOK(w.cloud, w.resources[u])
    requires Opposed(w.resources, u) && !o.kubeReads.ZoneUnread?
    requires var ch := w.resources[u];
             && !ch.deleting && ch.finalizer && IsHostnameConflict(ch.status) && ZoneOf(cfg, w, u).Some?
             && OriginInZone(ZoneOf(cfg, w, u).value.domain, ch.spec.originServer)
    ensures var ch, w' := w.resources[u], Step(cfg, w, u, o);
            && w'.cloud == w.cloud && u in w'.resources
            && (Enqueues(Some(found), w'.resources[u]) <==> Enqueues(Some(found), ch))
            && (Enqueues(Some(found), ch) <==>
                  !Drifted(ch.spec, found)
                  && (found.status != "" || found.ssl.status != "" || ch.status.consecutiveErrors > 0))
  {
  }

  /** When an owner is released without deleting its record, a waiting duplicate whose spec
      differs from that record becomes stuck: the owner is gone and nobody holds the
      hostname, but no pass enqueues it. Having no id, it is admitted again by the next
      restart. */
  lemma ReleasedOwnerStrandsDuplicate(cfg: Config, w: World, owner: Uid, dup: Uid, o: Outcome, zone: string,
                                      listing: seq<Record>)
    requires WorldInv(w) && owner in w.resources && dup in w.resources && owner != dup
    requires o.persisted && !o.kubeReads.ObjectUnread?
    requires var ch := w.resources[owner];
             && ch.deleting && ch.finalizer && !ch.otherFinalizers && ch.status.id != 0 && Deletion(cfg, ch.spec).Never?
             && ch.spec.hostname == w.resources[dup].spec.hostname
             && IsRecordOf(w.cloud.records, zone, ch.spec.hostname, ch.status.id)
             && AtMostOne(w.cloud.records, zone, ch.spec.hostname)
             && IsHostnameConflict(w.resources[dup].status)
             && Drifted(w.resources[dup].spec, w.cloud.records[ch.status.id])
    requires ValidBulk(listing, Step(cfg, w, owner, o).cloud.records, zone)
    ensures var w' := Step(cfg, w, owner, o);
            && owner !in w'.resources && dup in w'.resources
            && !Opposed(w'.resources, dup) && Stuck(w', zone, dup)
            && !Selects(Index(listing), w'.resources[dup])
            && AdmitsCreate(w'.resources[dup])
  {
    var w', id := Step(cfg, w, owner, o), w.resources[owner].status.id;
    var host := w.resources[dup].spec.hostname;
    StepOfOthers(cfg, w, owner, o, dup);
    assert w'.cloud == w.cloud;
    LookupIsTruthful(listing, w'.cloud.records, zone, host);
    var found := Lookup(Index(listing), host);
    assert found.Some? && IsRecordOf(w'.cloud.records, zone, host, found.value.id);
    assert StatusOK(w.cloud, w.resources[dup]);
  }
}
