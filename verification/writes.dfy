/** What the operator may write to Cloudflare: every change it makes in any run is
    justified, and deletes are safe. */
module Writes {
  import opened Types
  import opened SSL
  import opened Listing
  import opened CloudflareAPI
  import opened Worker
  import opened Runs

  // ---- Justification, by what changed in the store ----

  // record appeared: it was missing, the policy provisions, and it is what the spec asks for,
  // completed by the operator's defaults.
  ghost predicate CreateJustified(cfg: Config, w: World, uid: Uid, record: Record)
    requires uid in w.resources
  {
    var spec := w.resources[uid].spec;
    && Proceeds(cfg, w, uid) && !cfg.dryRun && !Management(cfg, spec).Observe?
    && var zone := ZoneOf(cfg, w, uid).value.id;
    && Search(w.cloud.records, zone, spec.hostname, None)
    && record.zone == zone && record.hostname == spec.hostname
    && Meets(spec, record) && AppliesDefaults(spec, cfg.sslDefaults, record)
  }

  // was became now: a managed record of the hostname had drifted, and no longer does, and what
  // the spec leaves unset is as it was.
  ghost predicate EditJustified(cfg: Config, w: World, uid: Uid, was: Record, now: Record)
    requires uid in w.resources
  {
    var spec := w.resources[uid].spec;
    && Proceeds(cfg, w, uid) && !cfg.dryRun && Management(cfg, spec).Manage?
    && was.zone == ZoneOf(cfg, w, uid).value.id && was.hostname == spec.hostname
    && !Meets(spec, was) && Meets(spec, now) && KeepsUnset(spec, was, now)
    && now.id == was.id && now.zone == was.zone && now.hostname == was.hostname
  }

  // The record was the terminating CR's own, no other CR holds it, and the policies allow it.
  ghost predicate DeleteJustified(cfg: Config, w: World, uid: Uid, o: Outcome, was: Record)
    requires uid in w.resources
  {
    var ch := w.resources[uid];
    && ch.deleting && ch.finalizer && !cfg.dryRun
    && !Management(cfg, ch.spec).Observe? && !Deletion(cfg, ch.spec).Never?
    && ZoneOf(cfg, w, uid).Some? && was.zone == ZoneOf(cfg, w, uid).value.id
    && was.id == ch.status.id && was.hostname == ch.spec.hostname
    && (Deletion(cfg, ch.spec).OwnOnly? ==> FirstMatch(Flatten(o.pages), ch.spec.hostname) == Some(was))
    && (forall peer :: peer in w.resources && peer != uid ==> w.resources[peer].status.id != was.id)
  }

  // Every difference a reconcile makes to the store.
  ghost predicate WritesJustified(cfg: Config, w: World, uid: Uid, o: Outcome)
    requires uid in w.resources
  {
    var before, after := w.cloud.records, Step(cfg, w, uid, o).cloud.records;
    && (forall id :: id in after && id !in before ==> CreateJustified(cfg, w, uid, after[id]))
    && (forall id :: id in after && id in before && after[id] != before[id] ==>
          EditJustified(cfg, w, uid, before[id], after[id]))
    && (forall id :: id in before && id !in after ==> DeleteJustified(cfg, w, uid, o, before[id]))
  }

  lemma CreateTurnJustified(cfg: Config, w: World, uid: Uid, o: Outcome)
    requires WorldInv(w) && uid in w.resources && ValidOutcome(cfg, w, uid, o) && CallsNew(cfg, w, uid, o)
    ensures WritesJustified(cfg, w, uid, o)
  {
    var spec, zone := w.resources[uid].spec, ZoneOf(cfg, w, uid).value.id;
    var call := NewCall(cfg, zone, spec);
    var after := Step(cfg, w, uid, o).cloud.records;
    OneWritingCall(cfg, w, uid, o);
    SearchReplyIsTruthful(cfg, w, uid, o);
    RetriedNew(w.cloud, call, o.write, cfg.maxRetries);
    forall id | id in after && id !in w.cloud.records
      ensures CreateJustified(cfg, w, uid, after[id])
    {
      MadeMeetsSpec(cfg, zone, spec, after[id]);
    }
  }

  lemma EditTurnJustified(cfg: Config, w: World, uid: Uid, o: Outcome)
    requires WorldInv(w) && uid in w.resources && ValidOutcome(cfg, w, uid, o) && CallsEdit(cfg, w, uid, o)
    ensures WritesJustified(cfg, w, uid, o)
  {
    var spec, zone := w.resources[uid].spec, ZoneOf(cfg, w, uid).value.id;
    var existing := SearchReply(cfg, w, uid, o).record.value;
    var call := EditCall(zone, spec, existing);
    var after := Step(cfg, w, uid, o).cloud;
    OneWritingCall(cfg, w, uid, o);
    SearchReplyIsTruthful(cfg, w, uid, o);
    RetriedEdit(w.cloud, call, o.write, cfg.maxRetries);
    if after != w.cloud {
      var record :| EditedBy(call, existing, record)
                    && after == w.cloud.(records := w.cloud.records[call.id := record]);
      EditedMeetsSpec(zone, spec, existing, record);
      assert EditJustified(cfg, w, uid, existing, record);
    }
  }

  lemma DeleteTurnJustified(cfg: Config, w: World, uid: Uid, o: Outcome)
    requires WorldInv(w) && uid in w.resources && ValidOutcome(cfg, w, uid, o) && CallsDelete(cfg, w, uid, o)
    ensures WritesJustified(cfg, w, uid, o)
  {
    var ch, zone := w.resources[uid], ZoneOf(cfg, w, uid).value.id;
    OneWritingCall(cfg, w, uid, o);
    SearchReplyIsTruthful(cfg, w, uid, o);
    FindChangesNothing(w.cloud, o.pages, ch.spec.hostname, o.lookup, cfg.maxRetries);
    RetriedDelete(w.cloud, Delete(zone, ch.status.id), o.write, cfg.maxRetries);
    if Step(cfg, w, uid, o).cloud != w.cloud {
      var was := w.cloud.records[ch.status.id];
      assert StatusOK(w.cloud, ch);
      forall peer | peer in w.resources && peer != uid
        ensures w.resources[peer].status.id != was.id
      {
        assert StatusOK(w.cloud, w.resources[peer]);
      }
      assert DeleteJustified(cfg, w, uid, o, was);
    }
  }

  /** Every record a reconcile adds, changes or removes is justified. */
  lemma ReconcileWritesAreJustified(cfg: Config, w: World, uid: Uid, o: Outcome)
    requires WorldInv(w) && uid in w.resources && ValidOutcome(cfg, w, uid, o)
    ensures WritesJustified(cfg, w, uid, o)
    ensures cfg.dryRun ==> Step(cfg, w, uid, o).cloud == w.cloud
  {
    OneWritingCall(cfg, w, uid, o);
    if CallsNew(cfg, w, uid, o) {
      CreateTurnJustified(cfg, w, uid, o);
    } else if CallsEdit(cfg, w, uid, o) {
      EditTurnJustified(cfg, w, uid, o);
    } else if CallsDelete(cfg, w, uid, o) {
      DeleteTurnJustified(cfg, w, uid, o);
    }
  }

  /** In every run, every write of every reconcile is justified. */
  lemma {:induction false} EveryWriteIsJustified(s: State, events: seq<Event>, k: nat)
    requires Inv(s) && Feasible(s, events)
    requires k < |events| && events[k].Work?
    ensures Feasible(s, events[..k])
    ensures var w, e := Run(s, events[..k]).world, events[k];
            && e.uid in w.resources
            && WritesJustified(e.cfg, w, e.uid, e.o)
            && (e.cfg.dryRun ==> Step(e.cfg, w, e.uid, e.o).cloud == w.cloud)
    decreases k
  {
    EventKeepsInv(s, events[0]);
    if k == 0 {
      ReconcileWritesAreJustified(events[0].cfg, s.world, events[0].uid, events[0].o);
    } else {
      EveryWriteIsJustified(Occur(s, events[0]), events[1..], k - 1);
      assert events[..k][1..] == events[1..][..k - 1];
    }
  }

  // ---- Deletes ----

  /** Whatever becomes of the attempts: either the finalizer is released and the record is
      gone from the zone the CR resolves to, or the finalizer stays and an error is
      returned. A record of that id is left behind exactly when it lies in another zone, as
      after an edit of spec.zoneRef (the 404 then releases the finalizer), or when, under
      own-only, the search shows another record of the hostname first. */
  lemma DeleteIsSafe(cfg: Config, w: World, uid: Uid, zone: ZoneInfo, o: Outcome)
    requires uid in w.resources && ValidOutcome(cfg, w, uid, o)
    requires var ch := w.resources[uid];
             && ch.deleting && ch.finalizer && ch.status.id != 0
             && !Management(cfg, ch.spec).Observe? && !Deletion(cfg, ch.spec).Never? && !cfg.dryRun
             && ResolveZone(cfg, w.zones, ch.spec.zoneRef) == Some(zone)
    requires CloudWF(w.cloud)
    ensures var turn, ch := Reconcile(cfg, w, uid, o), w.resources[uid];
            var id, found := ch.status.id, FirstMatch(Flatten(o.pages), ch.spec.hostname);
            && (turn.write == PutFinalizer(false) ==>
                  && !turn.failed
                  && (id in turn.cloud.records <==>
                        && id in w.cloud.records
                        && (w.cloud.records[id].zone != zone.id
                            || (Deletion(cfg, ch.spec).OwnOnly? && found != Some(w.cloud.records[id])))))
            && (turn.write != PutFinalizer(false) ==> turn.write == NoWrite && turn.failed)
            && (forall other :: other in w.cloud.records && other != id ==>
                  other in turn.cloud.records && turn.cloud.records[other] == w.cloud.records[other])
  {
    var ch := w.resources[uid];
    RetriedDelete(w.cloud, Delete(zone.id, ch.status.id), o.write, cfg.maxRetries);
    FindChangesNothing(w.cloud, o.pages, ch.spec.hostname, o.lookup, cfg.maxRetries);
    SearchIsTruthful(cfg, w, uid, o);
    if !o.kubeReads.ObjectUnread? && !o.kubeReads.ZoneUnread? {
      assert Reconcile(cfg, w, uid, o) == HandleDelete(cfg, zone, w.cloud, ch, o);
    }
  }

  /** Which records outlive a CR, in every run and whatever removes the CR: all but one, the
      record of its id in the zone it resolves to, if its own last reconcile calls delete. So
      a record that a lost status write has kept out of status.id always outlives the CR. */
  lemma RemovalLeavesRecords(s: State, e: Event, u: Uid, id: Id)
    requires Enabled(s, e) && u in s.world.resources && u !in Occur(s, e).world.resources
    requires id in s.world.cloud.records
    ensures var w, ch := s.world, s.world.resources[u];
            id in Occur(s, e).world.cloud.records <==>
            !(&& e.Work? && e.uid == u && CallsDelete(e.cfg, w, u, e.o)
              && id == ch.status.id && w.cloud.records[id].zone == ZoneOf(e.cfg, w, u).value.id)
  {
    if e.Work? && e.uid == u {
      ReleaseLeavesRecords(e.cfg, s.world, u, e.o, id);
    }
  }

  // A reconcile that removes its CR.
  lemma ReleaseLeavesRecords(cfg: Config, w: World, u: Uid, o: Outcome, id: Id)
    requires u in w.resources && u !in Step(cfg, w, u, o).resources && id in w.cloud.records
    ensures var ch := w.resources[u];
            id in Step(cfg, w, u, o).cloud.records <==>
            !(&& CallsDelete(cfg, w, u, o)
              && id == ch.status.id && w.cloud.records[id].zone == ZoneOf(cfg, w, u).value.id)
  {
    var ch, zone := w.resources[u], ZoneOf(cfg, w, u);
    FindChangesNothing(w.cloud, o.pages, ch.spec.hostname, o.lookup, cfg.maxRetries);
    assert Reconcile(cfg, w, u, o) == ReconcileDeleting(cfg, w, ch, o);
    if zone.Some? {
      RetriedDelete(w.cloud, Delete(zone.value.id, ch.status.id), o.write, cfg.maxRetries);
    }
  }

  /** How a record is left behind: a user moves the CR to a Zone of another Cloudflare zone and
      deletes it. The delete, carried out without any failure, releases the finalizer, and
      the record survives where it was. */
  lemma MovedRecordIsLeftBehind(s: State, cfg: Config, u: Uid, to: ZoneRef, zone: ZoneInfo, o: Outcome)
    requires Inv(s) && u in s.world.resources
    requires var ch := s.world.resources[u];
             && !ch.deleting && ch.finalizer && !ch.otherFinalizers && !cfg.dryRun
             && !Management(cfg, ch.spec).Observe? && Deletion(cfg, ch.spec).Always?
             && ch.status.id in s.world.cloud.records && s.world.cloud.records[ch.status.id].zone != zone.id
    requires ResolveZone(cfg, s.world.zones, to) == Some(zone)
    requires ValidListing(Flatten(o.pages), s.world.cloud.records, zone.id, s.world.resources[u].spec.hostname)
    requires o.kubeReads.AllRead? && o.persisted && AllProcessed(o.write, cfg.maxRetries)
    ensures var events := [UserEdit(u, s.world.resources[u].spec.(zoneRef := to)), UserDelete(u), Work(cfg, u, o)];
            && Feasible(s, events)
            && var w' := Run(s, events).world;
            && u !in w'.resources
            && w'.cloud == s.world.cloud && s.world.resources[u].status.id in w'.cloud.records
  {
    var ch := s.world.resources[u];
    var edit, delete, work := UserEdit(u, ch.spec.(zoneRef := to)), UserDelete(u), Work(cfg, u, o);
    var s2 := Occur(Occur(s, edit), delete);
    assert s2.world.resources[u].deleting && s2.world.resources[u].spec == ch.spec.(zoneRef := to);
    assert s2.world.cloud == s.world.cloud && s2.world.zones == s.world.zones;
    assert StatusOK(s.world.cloud, ch) && CloudWF(s.world.cloud);
    ReleasedByNotFound(cfg, s2.world, u, zone, o);
    ThreeEvents(s, edit, delete, work);
  }

  // A terminating CR whose record is not in its zone is released.
  lemma ReleasedByNotFound(cfg: Config, w: World, u: Uid, zone: ZoneInfo, o: Outcome)
    requires u in w.resources
    requires var ch := w.resources[u];
             && ch.deleting && ch.finalizer && !ch.otherFinalizers && ch.status.id != 0 && !cfg.dryRun
             && !Management(cfg, ch.spec).Observe? && Deletion(cfg, ch.spec).Always?
             && ZoneOf(cfg, w, u) == Some(zone) && !Addressed(w.cloud, zone.id, ch.status.id)
    requires o.kubeReads.AllRead? && o.persisted && AllProcessed(o.write, cfg.maxRetries)
    ensures Step(cfg, w, u, o) == w.(resources := w.resources - {u})
  {
    var ch := w.resources[u];
    MissingIsNotFound(w.cloud, zone.id, ch.status.id, o.write, cfg.maxRetries);
    assert Reconcile(cfg, w, u, o) == HandleDelete(cfg, zone, w.cloud, ch, o);
  }
}
