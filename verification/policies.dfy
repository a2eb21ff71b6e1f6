/** What the policies mean, stated on the fields of a CR and of the configuration: a CR's own
    policy counts whatever the operator's default is, and the default counts where it has none. */
module Policies {
  import opened Types
  import opened SSL
  import opened Listing
  import opened CloudflareAPI
  import opened Worker
  import opened Runs
  import opened Convergence

  ghost predicate ManagementIs(cfg: Config, spec: Spec, policy: ManagementPolicy) {
    || spec.managementPolicy == policy
    || (spec.managementPolicy == InheritManagement && cfg.managementPolicy == policy)
  }

  ghost predicate DeletionIs(cfg: Config, spec: Spec, policy: DeletePolicy) {
    || spec.deletePolicy == policy
    || (spec.deletePolicy == InheritDelete && cfg.deletePolicy == policy)
  }

  // The finalizer is released without an error.
  ghost predicate Releases(cfg: Config, w: World, u: Uid, o: Outcome)
    requires u in w.resources
  {
    Reconcile(cfg, w, u, o).write == PutFinalizer(false) && !Reconcile(cfg, w, u, o).failed
  }

  // A terminating CR that holds an id and our finalizer.
  ghost predicate Terminating(w: World, u: Uid)
    requires u in w.resources
  {
    w.resources[u].deleting && w.resources[u].finalizer && w.resources[u].status.id != 0
  }

  // ---- Management ----

  /** Observe writes nothing to Cloudflare, under any outcome, and a terminating CR is released
      without its Zone. */
  lemma ObserveWritesNothing(cfg: Config, w: World, u: Uid, o: Outcome)
    requires u in w.resources && ManagementIs(cfg, w.resources[u].spec, Observe)
    ensures Step(cfg, w, u, o).cloud == w.cloud
    ensures Terminating(w, u) && !o.kubeReads.ObjectUnread? ==> Releases(cfg, w, u, o)
  {
    OneWritingCall(cfg, w, u, o);
  }

  /** Create changes no record, under any outcome, of a CR that is not terminating. */
  lemma CreateChangesNothing(cfg: Config, w: World, u: Uid, o: Outcome)
    requires WorldInv(w) && u in w.resources && !w.resources[u].deleting
    requires ManagementIs(cfg, w.resources[u].spec, ManagementPolicy.Create)
    ensures forall id :: id in w.cloud.records ==>
              id in Step(cfg, w, u, o).cloud.records && Step(cfg, w, u, o).cloud.records[id] == w.cloud.records[id]
  {
    OneWritingCall(cfg, w, u, o);
    if CallsNew(cfg, w, u, o) {
      RetriedNew(w.cloud, WriteCall(cfg, w, u, o).value, o.write, cfg.maxRetries);
    }
  }

  /** Manage brings a drifted record to the spec. */
  lemma ManageEdits(cfg: Config, w: World, u: Uid, o: Outcome, record: Record)
    requires WorldInv(w) && u in w.resources && FailureFree(cfg, w, u, o) && Proceeds(cfg, w, u) && !cfg.dryRun
    requires ManagementIs(cfg, w.resources[u].spec, Manage)
    requires FirstMatch(Flatten(o.pages), w.resources[u].spec.hostname) == Some(record)
    requires !Meets(w.resources[u].spec, record)
    ensures var after := Step(cfg, w, u, o).cloud.records;
            record.id in after && Meets(w.resources[u].spec, after[record.id])
  {
    SearchSucceeds(cfg, w, u, o);
    DriftIsExact(w.resources[u].spec, record);
    EditedReports(cfg, w, u, o);
    DriftIsExact(w.resources[u].spec, Step(cfg, w, u, o).cloud.records[record.id]);
  }

  /** Manage and create both make the record that is missing. */
  lemma BothCreate(cfg: Config, w: World, u: Uid, o: Outcome)
    requires WorldInv(w) && u in w.resources && FailureFree(cfg, w, u, o) && Proceeds(cfg, w, u) && !cfg.dryRun
    requires ManagementIs(cfg, w.resources[u].spec, Manage)
             || ManagementIs(cfg, w.resources[u].spec, ManagementPolicy.Create)
    requires FirstMatch(Flatten(o.pages), w.resources[u].spec.hostname) == None
    ensures var after, zone := Step(cfg, w, u, o).cloud.records, ZoneOf(cfg, w, u).value.id;
            && IsRecordOf(after, zone, w.resources[u].spec.hostname, w.cloud.next)
            && Meets(w.resources[u].spec, after[w.cloud.next])
  {
    SearchSucceeds(cfg, w, u, o);
    CreatedReports(cfg, w, u, o);
    DriftIsExact(w.resources[u].spec, Step(cfg, w, u, o).cloud.records[w.cloud.next]);
  }

  // ---- Deletion ----

  /** Never leaves Cloudflare alone, under any outcome, and a terminating CR is released without
      its Zone. */
  lemma NeverDeletesNothing(cfg: Config, w: World, u: Uid, o: Outcome)
    requires u in w.resources && w.resources[u].deleting && DeletionIs(cfg, w.resources[u].spec, Never)
    ensures Step(cfg, w, u, o).cloud == w.cloud
    ensures Terminating(w, u) && !o.kubeReads.ObjectUnread? ==> Releases(cfg, w, u, o)
  {
    OneWritingCall(cfg, w, u, o);
  }

  /** A CR that never had an id is released without its Zone, whatever its policies. */
  lemma WithoutIdIsReleased(cfg: Config, w: World, u: Uid, o: Outcome)
    requires u in w.resources && w.resources[u].deleting && w.resources[u].status.id == 0
    ensures Step(cfg, w, u, o).cloud == w.cloud
    ensures w.resources[u].finalizer && !o.kubeReads.ObjectUnread? ==> Releases(cfg, w, u, o)
  {
    OneWritingCall(cfg, w, u, o);
  }

  // A managed or created CR, terminating in a Zone that resolves.
  ghost predicate Deletable(cfg: Config, w: World, u: Uid)
    requires u in w.resources
  {
    && Terminating(w, u) && ZoneOf(cfg, w, u).Some?
    && (|| ManagementIs(cfg, w.resources[u].spec, Manage)
        || ManagementIs(cfg, w.resources[u].spec, ManagementPolicy.Create))
  }

  /** Always deletes the CR's record and releases it. */
  lemma AlwaysDeletes(cfg: Config, w: World, u: Uid, o: Outcome)
    requires u in w.resources && Deletable(cfg, w, u) && FailureFree(cfg, w, u, o) && !cfg.dryRun
    requires DeletionIs(cfg, w.resources[u].spec, Always)
    requires Addressed(w.cloud, ZoneOf(cfg, w, u).value.id, w.resources[u].status.id)
    ensures Step(cfg, w, u, o).cloud.records == w.cloud.records - {w.resources[u].status.id}
    ensures Releases(cfg, w, u, o)
  {
    OneWritingCall(cfg, w, u, o);
  }

  /** Own-only deletes the CR's record exactly if the search shows that very record, and
      releases the CR either way. */
  lemma OwnOnlyDeletesOwn(cfg: Config, w: World, u: Uid, o: Outcome)
    requires CloudWF(w.cloud)
    requires u in w.resources && Deletable(cfg, w, u) && FailureFree(cfg, w, u, o) && !cfg.dryRun
    requires DeletionIs(cfg, w.resources[u].spec, OwnOnly)
    ensures var ch := w.resources[u];
            var found := FirstMatch(Flatten(o.pages), ch.spec.hostname);
            Step(cfg, w, u, o).cloud.records
            == if found.Some? && found.value.id == ch.status.id then w.cloud.records - {ch.status.id}
               else w.cloud.records
    ensures Releases(cfg, w, u, o)
  {
    var ch, zone := w.resources[u], ZoneOf(cfg, w, u).value;
    OneWritingCall(cfg, w, u, o);
    SearchSucceeds(cfg, w, u, o);
    SearchIsTruthful(cfg, w, u, o);
    FindChangesNothing(w.cloud, o.pages, ch.spec.hostname, o.lookup, cfg.maxRetries);
    DeleteIsAnswered(w.cloud, zone.id, ch.status.id, o.write, cfg.maxRetries);
    assert Reconcile(cfg, w, u, o) == HandleDelete(cfg, zone, w.cloud, ch, o);
  }

  /** A dry run releases a terminating CR of a Zone that resolves, and writes nothing. */
  lemma DryRunReleases(cfg: Config, w: World, u: Uid, o: Outcome)
    requires u in w.resources && w.resources[u].deleting && cfg.dryRun && ZoneOf(cfg, w, u).Some?
    requires !o.kubeReads.ObjectUnread? && !o.kubeReads.ZoneUnread?
    ensures Step(cfg, w, u, o).cloud == w.cloud && Releases(cfg, w, u, o)
  {
    OneWritingCall(cfg, w, u, o);
  }
}
