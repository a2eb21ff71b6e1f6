/** The hand-over of a hostname: when its owner is gone, draining a queue makes exactly one of
    the waiting duplicates the new owner, as soon as the pass has enqueued any of them. */
module Handover {
  import opened Types
  import opened Listing
  import opened CloudflareAPI
  import opened Worker
  import opened Runs
  import opened ZoneDrift
  import opened Convergence

  // The CRs of a hostname.
  ghost function Claimants(w: World, hostname: string): set<Uid> {
    set u | u in w.resources && w.resources[u].spec.hostname == hostname
  }

  // Every CR of the hostname would provision it in this zone.
  ghost predicate Contested(cfg: Config, w: World, zone: ZoneRef, hostname: string) {
    && WorldInv(w)
    && !cfg.dryRun && zone in w.zones && w.zones[zone].credentials
    && (forall u :: u in Claimants(w, hostname) ==> MayClaim(cfg, zone, w.zones[zone].domain, w.resources[u]))
  }

  ghost predicate MayClaim(cfg: Config, zone: ZoneRef, domain: string, ch: Resource) {
    && !ch.deleting && ResolveRef(cfg, ch.spec.zoneRef) == zone
    && !Management(cfg, ch.spec).Observe? && OriginInZone(domain, ch.spec.originServer)
  }

  // The CR has lost the hostname, or is still to be reconciled.
  ghost predicate WaitsOrLost(w: World, u: Uid, pending: set<Uid>)
    requires u in w.resources
  {
    u in pending || IsHostnameConflict(w.resources[u].status)
  }

  // Nobody holds the hostname.
  ghost predicate Unclaimed(w: World, hostname: string, pending: set<Uid>) {
    forall u :: u in Claimants(w, hostname) ==> w.resources[u].status.id == 0 && WaitsOrLost(w, u, pending)
  }

  // One CR reports a record; each other has no id.
  ghost predicate Claimed(w: World, zone: string, hostname: string, pending: set<Uid>, owner: Uid) {
    && owner in Claimants(w, hostname)
    && Reports(w, zone, owner, w.resources[owner].status.id)
    && (forall u :: u in Claimants(w, hostname) && u != owner ==>
          w.resources[u].status.id == 0 && WaitsOrLost(w, u, pending))
  }

  // Somebody will claim, or has claimed, the hostname.
  ghost predicate HandingOver(p: Progress, zone: string, hostname: string) {
    || (Unclaimed(p.world, hostname, p.pending) && Claimants(p.world, hostname) * p.pending != {})
    || exists owner :: Claimed(p.world, zone, hostname, p.pending, owner)
  }

  // Whoever is reconciled, the claimants and their specs stay.
  lemma ContestedStep(cfg: Config, w: World, zone: ZoneRef, hostname: string, u: Uid, o: Outcome)
    requires Contested(cfg, w, zone, hostname) && u in w.resources && FailureFree(cfg, w, u, o)
    ensures Contested(cfg, Step(cfg, w, u, o), zone, hostname)
    ensures Claimants(Step(cfg, w, u, o), hostname) == Claimants(w, hostname)
  {
    var w' := Step(cfg, w, u, o);
    StepKeepsWorldInv(cfg, w, u, o);
    if u in Claimants(w, hostname) {
      StepKeepsSpec(cfg, w, u, o);
    }
    forall v
      ensures v in Claimants(w', hostname) <==> v in Claimants(w, hostname)
      ensures v in Claimants(w, hostname) ==> w'.resources[v].spec == w.resources[v].spec && !w'.resources[v].deleting
    {
      if v != u {
        StepOfOthers(cfg, w, u, o, v);
      } else if u in w'.resources {
        StoredSpec(cfg, w, u, o);
      }
    }
  }

  // The other claimants stay as they are, in the world and in the queue.
  lemma OthersStay(cfg: Config, p: Progress, pick: Pick)
    requires CanPick(cfg, p, pick)
    ensures var p' := Advance(cfg, p, pick);
            forall v :: v in p.world.resources && v != pick.uid ==>
              && v in p'.world.resources && p'.world.resources[v] == p.world.resources[v]
              && (v in p'.pending <==> v in p.pending)
  {
    forall v | v in p.world.resources && v != pick.uid
      ensures v in Step(cfg, p.world, pick.uid, pick.o).resources
              && Step(cfg, p.world, pick.uid, pick.o).resources[v] == p.world.resources[v]
    {
      StepOfOthers(cfg, p.world, pick.uid, pick.o, v);
    }
  }

  // Claimants, their statuses and places in the queue, and the records of the hostname are
  // what the hand-over depends on.
  lemma HandingOverFrame(p: Progress, p': Progress, zone: string, hostname: string)
    requires HandingOver(p, zone, hostname)
    requires Claimants(p'.world, hostname) == Claimants(p.world, hostname)
    requires SameRecords(p.world.cloud.records, p'.world.cloud.records, hostname)
    requires forall u :: u in Claimants(p.world, hostname) ==>
               && p'.world.resources[u].status == p.world.resources[u].status
               && p'.world.resources[u].generation == p.world.resources[u].generation
               && (u in p'.pending <==> u in p.pending)
    ensures HandingOver(p', zone, hostname)
  {
    if owner :| Claimed(p.world, zone, hostname, p.pending, owner) {
      assert Claimed(p'.world, zone, hostname, p'.pending, owner);
    } else {
      var u :| u in Claimants(p.world, hostname) * p.pending;
      assert u in Claimants(p'.world, hostname) * p'.pending;
    }
  }

  // A CR of another hostname does not interfere.
  lemma OtherStep(cfg: Config, p: Progress, zone: ZoneRef, hostname: string, pick: Pick)
    requires Contested(cfg, p.world, zone, hostname) && CanPick(cfg, p, pick)
    requires HandingOver(p, p.world.zones[zone].id, hostname)
    requires pick.uid !in Claimants(p.world, hostname)
    ensures HandingOver(Advance(cfg, p, pick), p.world.zones[zone].id, hostname)
  {
    ContestedStep(cfg, p.world, zone, hostname, pick.uid, pick.o);
    StepIsLocal(cfg, p.world, pick.uid, pick.o, hostname);
    OthersStay(cfg, p, pick);
    HandingOverFrame(p, Advance(cfg, p, pick), p.world.zones[zone].id, hostname);
  }

  // The first claimant to proceed becomes the owner; the owner stays it.
  lemma OwningStep(cfg: Config, p: Progress, zone: ZoneRef, hostname: string, pick: Pick)
    requires Contested(cfg, p.world, zone, hostname) && CanPick(cfg, p, pick)
    requires pick.uid in Claimants(p.world, hostname) && p.world.resources[pick.uid].finalizer
    requires Unclaimed(p.world, hostname, p.pending)
             || Claimed(p.world, p.world.zones[zone].id, hostname, p.pending, pick.uid)
    ensures var p' := Advance(cfg, p, pick);
            Claimed(p'.world, p.world.zones[zone].id, hostname, p'.pending, pick.uid)
  {
    var w, p', u := p.world, Advance(cfg, p, pick), pick.uid;
    ContestedStep(cfg, w, zone, hostname, u, pick.o);
    assert !Opposed(w.resources, u) by {
      assert forall v :: v in w.resources && w.resources[v].spec.hostname == hostname ==> v in Claimants(w, hostname);
    }
    assert Proceeds(cfg, w, u);
    var id := ProceedingReports(cfg, w, u, pick.o);
    OthersStay(cfg, p, pick);
  }

  // Any other claimant is marked as a conflict.
  lemma LosingStep(cfg: Config, p: Progress, zone: ZoneRef, hostname: string, pick: Pick, owner: Uid)
    requires Contested(cfg, p.world, zone, hostname) && CanPick(cfg, p, pick)
    requires pick.uid in Claimants(p.world, hostname) && p.world.resources[pick.uid].finalizer
    requires Claimed(p.world, p.world.zones[zone].id, hostname, p.pending, owner) && owner != pick.uid
    ensures Claimed(Advance(cfg, p, pick).world, p.world.zones[zone].id, hostname, Advance(cfg, p, pick).pending, owner)
  {
    var w, p', u := p.world, Advance(cfg, p, pick), pick.uid;
    ContestedStep(cfg, w, zone, hostname, u, pick.o);
    assert StatusOK(w.cloud, w.resources[owner]);
    assert Opposed(w.resources, u);
    LoserIsMarked(cfg, w, u, pick.o);
    OthersStay(cfg, p, pick);
  }

  lemma LoserIsMarked(cfg: Config, w: World, u: Uid, o: Outcome)
    requires u in w.resources && o.kubeReads.AllRead? && o.persisted && Opposed(w.resources, u)
    requires var ch, zone := w.resources[u], ZoneOf(cfg, w, u);
             !ch.deleting && ch.finalizer && zone.Some? && OriginInZone(zone.value.domain, ch.spec.originServer)
    ensures var w', ch := Step(cfg, w, u, o), w.resources[u];
            && w'.cloud == w.cloud
            && w'.resources
               == w.resources[u := ch.(status := SetCondition(ch.status, ch.generation, false, HostnameConflict))]
  {
  }

  lemma FinalizerIsAdded(cfg: Config, w: World, u: Uid, o: Outcome)
    requires u in w.resources && o.kubeReads.AllRead? && o.persisted
    requires var ch, zone := w.resources[u], ZoneOf(cfg, w, u);
             !ch.deleting && !ch.finalizer && zone.Some? && OriginInZone(zone.value.domain, ch.spec.originServer)
    ensures Reconcile(cfg, w, u, o).requeue
    ensures Step(cfg, w, u, o) == w.(resources := w.resources[u := w.resources[u].(finalizer := true)])
  {
  }

  // A claimant without its finalizer gets it and stays pending.
  lemma FinalizingStep(cfg: Config, p: Progress, zone: ZoneRef, hostname: string, pick: Pick)
    requires Contested(cfg, p.world, zone, hostname) && CanPick(cfg, p, pick)
    requires pick.uid in Claimants(p.world, hostname) && !p.world.resources[pick.uid].finalizer
    requires HandingOver(p, p.world.zones[zone].id, hostname)
    ensures HandingOver(Advance(cfg, p, pick), p.world.zones[zone].id, hostname)
  {
    var p' := Advance(cfg, p, pick);
    ContestedStep(cfg, p.world, zone, hostname, pick.uid, pick.o);
    OthersStay(cfg, p, pick);
    FinalizerIsAdded(cfg, p.world, pick.uid, pick.o);
    HandingOverFrame(p, p', p.world.zones[zone].id, hostname);
  }

  lemma HandingOverStep(cfg: Config, p: Progress, zone: ZoneRef, hostname: string, pick: Pick)
    requires Contested(cfg, p.world, zone, hostname) && CanPick(cfg, p, pick)
    requires HandingOver(p, p.world.zones[zone].id, hostname)
    ensures HandingOver(Advance(cfg, p, pick), p.world.zones[zone].id, hostname)
  {
    var w, u, id := p.world, pick.uid, p.world.zones[zone].id;
    if u !in Claimants(w, hostname) {
      OtherStep(cfg, p, zone, hostname, pick);
    } else if !w.resources[u].finalizer {
      FinalizingStep(cfg, p, zone, hostname, pick);
    } else if owner :| Claimed(w, id, hostname, p.pending, owner) {
      if owner == u {
        OwningStep(cfg, p, zone, hostname, pick);
      } else {
        LosingStep(cfg, p, zone, hostname, pick, owner);
      }
    } else {
      OwningStep(cfg, p, zone, hostname, pick);
    }
  }

  lemma {:induction false} DrainKeepsHandingOver(cfg: Config, p: Progress, zone: ZoneRef, hostname: string,
                                                 picks: seq<Pick>)
    requires Contested(cfg, p.world, zone, hostname) && CanDrain(cfg, p, picks)
    requires HandingOver(p, p.world.zones[zone].id, hostname)
    ensures var p' := Drain(cfg, p, picks);
            && HandingOver(p', p.world.zones[zone].id, hostname)
            && Claimants(p'.world, hostname) == Claimants(p.world, hostname)
    decreases picks
  {
    if picks != [] {
      HandingOverStep(cfg, p, zone, hostname, picks[0]);
      ContestedStep(cfg, p.world, zone, hostname, picks[0].uid, picks[0].o);
      DrainKeepsHandingOver(cfg, Advance(cfg, p, picks[0]), zone, hostname, picks[1..]);
    }
  }

  lemma {:induction false} DrainKeepsInv(cfg: Config, p: Progress, picks: seq<Pick>)
    requires WorldInv(p.world) && CanDrain(cfg, p, picks)
    ensures WorldInv(Drain(cfg, p, picks).world)
    decreases picks
  {
    if picks != [] {
      StepKeepsWorldInv(cfg, p.world, picks[0].uid, picks[0].o);
      DrainKeepsInv(cfg, Advance(cfg, p, picks[0]), picks[1..]);
    }
  }

  // A drain gives no hostname a second record.
  lemma {:induction false} DrainKeepsSingle(cfg: Config, p: Progress, picks: seq<Pick>, zone: string, hostname: string)
    requires WorldInv(p.world) && CanDrain(cfg, p, picks) && AtMostOne(p.world.cloud.records, zone, hostname)
    ensures AtMostOne(Drain(cfg, p, picks).world.cloud.records, zone, hostname)
    decreases picks
  {
    if picks != [] {
      StepKeepsWorldInv(cfg, p.world, picks[0].uid, picks[0].o);
      StepKeepsSingle(cfg, p.world, picks[0].uid, picks[0].o, zone, hostname);
      DrainKeepsSingle(cfg, Advance(cfg, p, picks[0]), picks[1..], zone, hostname);
    }
  }

  // The heir alone holds an id, of a record of the hostname; all others are in conflict.
  ghost predicate HandedOver(w: World, zone: string, hostname: string, heir: Uid) {
    && heir in Claimants(w, hostname)
    && Reports(w, zone, heir, w.resources[heir].status.id)
    && (forall u :: u in Claimants(w, hostname) ==>
          && (w.resources[u].status.id != 0 <==> u == heir)
          && (IsHostnameConflict(w.resources[u].status) <==> u != heir))
  }

  /** Draining, in any order, a queue with at least one claimant of an unclaimed hostname
      settles on exactly one of them. */
  lemma DrainHandsOver(cfg: Config, p: Progress, zone: ZoneRef, hostname: string, picks: seq<Pick>)
    returns (heir: Uid)
    requires Contested(cfg, p.world, zone, hostname)
    requires Unclaimed(p.world, hostname, p.pending) && Claimants(p.world, hostname) * p.pending != {}
    requires CanDrain(cfg, p, picks) && Drain(cfg, p, picks).pending !! Claimants(p.world, hostname)
    ensures HandedOver(Drain(cfg, p, picks).world, p.world.zones[zone].id, hostname, heir)
    ensures Claimants(Drain(cfg, p, picks).world, hostname) == Claimants(p.world, hostname)
  {
    var w'', id := Drain(cfg, p, picks).world, p.world.zones[zone].id;
    DrainKeepsHandingOver(cfg, p, zone, hostname, picks);
    DrainKeepsInv(cfg, p, picks);
    var left := Drain(cfg, p, picks).pending;
    heir :| Claimed(w'', id, hostname, left, heir);
    assert StatusOK(w''.cloud, w''.resources[heir]);
  }

  /** Conversely nobody takes over as long as no claimant is enqueued. */
  lemma {:induction false} UnnoticedStaysUnclaimed(cfg: Config, p: Progress, hostname: string, picks: seq<Pick>)
    requires CanDrain(cfg, p, picks) && Claimants(p.world, hostname) * p.pending == {}
    ensures var w' := Drain(cfg, p, picks).world;
            && Claimants(w', hostname) == Claimants(p.world, hostname)
            && (forall u :: u in Claimants(p.world, hostname) ==> w'.resources[u] == p.world.resources[u])
    decreases picks
  {
    if picks != [] {
      var next := Advance(cfg, p, picks[0]);
      OthersStay(cfg, p, picks[0]);
      assert picks[0].uid in p.pending && picks[0].uid !in Claimants(p.world, hostname);
      forall u ensures u in Claimants(next.world, hostname) <==> u in Claimants(p.world, hostname) {
        if u != picks[0].uid {
          StepOfOthers(cfg, p.world, picks[0].uid, picks[0].o, u);
        } else if u in next.world.resources {
          StoredSpec(cfg, p.world, u, picks[0].o);
        }
      }
      forall u | u in Claimants(next.world, hostname) ensures u !in next.pending {
        assert u !in Claimants(p.world, hostname) * p.pending;
      }
      UnnoticedStaysUnclaimed(cfg, next, hostname, picks[1..]);
    }
  }

  // A terminating owner of the hostname, to be deleted under always, and waiting duplicates.
  // Its record, if it still exists, is in the zone.
  ghost predicate OwnerLeaving(cfg: Config, w: World, zone: ZoneRef, owner: Uid) {
    && WorldInv(w) && owner in w.resources
    && !cfg.dryRun && zone in w.zones && w.zones[zone].credentials
    && var ch := w.resources[owner];
    && ch.deleting && ch.finalizer && ResolveRef(cfg, ch.spec.zoneRef) == zone
    && !Management(cfg, ch.spec).Observe? && Deletion(cfg, ch.spec).Always?
    && ch.status.id != 0
    && (ch.status.id in w.cloud.records ==> w.cloud.records[ch.status.id].zone == w.zones[zone].id)
    && (forall u :: u in Claimants(w, ch.spec.hostname) && u != owner ==>
          MayClaim(cfg, zone, w.zones[zone].domain, w.resources[u]))
  }

  /** The owner's reconcile removes its record, or finds it gone. It leaves the hostname unclaimed exactly when
      no other finalizer holds it; otherwise it keeps its id. */
  lemma OwnerLeaves(cfg: Config, w: World, zone: ZoneRef, owner: Uid, o: Outcome)
    requires OwnerLeaving(cfg, w, zone, owner) && FailureFree(cfg, w, owner, o)
    ensures var w', ch := Step(cfg, w, owner, o), w.resources[owner];
            && WorldInv(w') && w'.zones == w.zones
            && w'.cloud.records == w.cloud.records - {ch.status.id}
            && w'.resources == (if ch.otherFinalizers then w.resources[owner := ch.(finalizer := false)]
                                else w.resources - {owner})
  {
    var ch := w.resources[owner];
    StepKeepsWorldInv(cfg, w, owner, o);
    if ch.status.id in w.cloud.records {
      DeleteSettles(w.cloud, w.zones[zone].id, ch.status.id, o.write, cfg.maxRetries);
    } else {
      MissingIsNotFound(w.cloud, w.zones[zone].id, ch.status.id, o.write, cfg.maxRetries);
    }
    assert Reconcile(cfg, w, owner, o) == HandleDelete(cfg, ZoneOf(cfg, w, owner).value, w.cloud, ch, o);
  }

  // A delete that is carried out at once removes the record.
  lemma DeleteSettles(cloud: Cloud, zone: string, id: Id, attempts: seq<Attempt>, maxRetries: nat)
    requires First(attempts).fate.Processed? && Addressed(cloud, zone, id)
    ensures var r := Retry(cloud, Delete(zone, id), attempts, maxRetries);
            r.reply.Success? && r.cloud == cloud.(records := cloud.records - {id})
  {
  }

  /** While another finalizer holds the terminating owner, no drain gives a duplicate the
      hostname: the owner keeps its id, so nobody else has one. */
  lemma {:induction false} HeldOwnerBlocks(cfg: Config, p: Progress, owner: Uid, picks: seq<Pick>)
    requires WorldInv(p.world) && CanDrain(cfg, p, picks) && owner in p.world.resources
    requires var ch := p.world.resources[owner]; ch.deleting && ch.otherFinalizers && ch.status.id != 0
    ensures var w', ch := Drain(cfg, p, picks).world, p.world.resources[owner];
            && owner in w'.resources && w'.resources[owner].status == ch.status
            && (forall u :: u in Claimants(w', ch.spec.hostname) && u != owner ==> w'.resources[u].status.id == 0)
    decreases picks
  {
    if picks != [] {
      StepKeepsWorldInv(cfg, p.world, picks[0].uid, picks[0].o);
      HeldOwnerStays(cfg, p.world, owner, picks[0].uid, picks[0].o);
      HeldOwnerBlocks(cfg, Advance(cfg, p, picks[0]), owner, picks[1..]);
    } else {
      assert SingleOwner(p.world.resources);
    }
  }

  lemma HeldOwnerStays(cfg: Config, w: World, owner: Uid, u: Uid, o: Outcome)
    requires owner in w.resources && u in w.resources
    requires w.resources[owner].deleting && w.resources[owner].otherFinalizers
    ensures var w', ch := Step(cfg, w, u, o), w.resources[owner];
            owner in w'.resources && w'.resources[owner] == ch.(finalizer := w'.resources[owner].finalizer)
  {
    if u != owner {
      StepOfOthers(cfg, w, u, o, owner);
    }
  }

  // A hostname without a record: the next pass enqueues every CR that claims it.
  lemma MissingHostnameEnqueuesAll(cfg: Config, w: World, zone: ZoneRef, hostname: string,
                                   pages: seq<seq<Record>>, items: seq<Item>)
    requires Contested(cfg, w, zone, hostname)
    requires ValidBulk(Flatten(pages), w.cloud.records, w.zones[zone].id) && ListsAll(items, w.resources)
    requires forall id :: !IsRecordOf(w.cloud.records, w.zones[zone].id, hostname, id)
    ensures Claimants(w, hostname) <= PendingAfterPass(zone, pages, items)
  {
    forall u | u in Claimants(w, hostname)
      ensures u in PendingAfterPass(zone, pages, items)
    {
      PassSelects(zone, pages, items, w.resources, u);
      LookupIsTruthful(Flatten(pages), w.cloud.records, w.zones[zone].id, hostname);
      var found := Lookup(Index(Flatten(pages)), hostname);
      if found.Some? {
        assert IsRecordOf(w.cloud.records, w.zones[zone].id, hostname, found.value.id);
      }
    }
  }

  // The CRs that wait for the owner to leave.
  ghost function Waiting(w: World, owner: Uid): set<Uid>
    requires owner in w.resources
  {
    Claimants(w, w.resources[owner].spec.hostname) - {owner}
  }

  // The pass over the world that the owner leaves behind.
  ghost function PassAfter(cfg: Config, w: World, zone: ZoneRef, owner: Uid, o: Outcome,
                           pages: seq<seq<Record>>, items: seq<Item>): Progress
    requires owner in w.resources
  {
    Progress(Step(cfg, w, owner, o), PendingAfterPass(zone, pages, items))
  }

  // The owner is gone: what is left is contested and unclaimed.
  lemma GoneOwnerLeavesUnclaimed(cfg: Config, w: World, zone: ZoneRef, owner: Uid, o: Outcome, pending: set<Uid>)
    requires OwnerLeaving(cfg, w, zone, owner) && FailureFree(cfg, w, owner, o)
    requires !w.resources[owner].otherFinalizers
    requires forall u :: u in Waiting(w, owner) ==> WaitsOrLost(w, u, pending)
    ensures var w', hostname := Step(cfg, w, owner, o), w.resources[owner].spec.hostname;
            && Contested(cfg, w', zone, hostname)
            && Claimants(w', hostname) == Waiting(w, owner)
            && Unclaimed(w', hostname, pending)
  {
    OwnerLeaves(cfg, w, zone, owner, o);
    assert StatusOK(w.cloud, w.resources[owner]);
  }

  // The hostname has no record in the zone but the owner's.
  ghost predicate OwnsAll(w: World, zone: string, owner: Uid)
    requires owner in w.resources
  {
    forall id :: IsRecordOf(w.cloud.records, zone, w.resources[owner].spec.hostname, id) ==>
      id == w.resources[owner].status.id
  }

  // Whom the pass notices; if the owner's record was the only one, everybody.
  lemma WaitingAreNoticed(cfg: Config, w: World, zone: ZoneRef, owner: Uid, o: Outcome,
                          pages: seq<seq<Record>>, items: seq<Item>)
    requires OwnerLeaving(cfg, w, zone, owner) && FailureFree(cfg, w, owner, o) && !w.resources[owner].otherFinalizers
    requires var p := PassAfter(cfg, w, zone, owner, o, pages, items);
             ValidBulk(Flatten(pages), p.world.cloud.records, w.zones[zone].id) && ListsAll(items, p.world.resources)
    ensures var p, hostname := PassAfter(cfg, w, zone, owner, o, pages, items), w.resources[owner].spec.hostname;
            && (forall u :: u in Waiting(w, owner) ==>
                  (u in p.pending <==> Selects(Index(Flatten(pages)), w.resources[u])))
            && (OwnsAll(w, w.zones[zone].id, owner) ==>
                  && Waiting(w, owner) <= p.pending
                  && AtMostOne(p.world.cloud.records, w.zones[zone].id, hostname))
  {
    var p, hostname := PassAfter(cfg, w, zone, owner, o, pages, items), w.resources[owner].spec.hostname;
    var id := w.zones[zone].id;
    OwnerLeaves(cfg, w, zone, owner, o);
    forall u | u in Waiting(w, owner)
      ensures u in p.pending <==> Selects(Index(Flatten(pages)), w.resources[u])
    {
      PassSelects(zone, pages, items, p.world.resources, u);
    }
    if OwnsAll(w, id, owner) {
      forall r ensures !IsRecordOf(p.world.cloud.records, id, hostname, r) {
        assert IsRecordOf(p.world.cloud.records, id, hostname, r) ==> IsRecordOf(w.cloud.records, id, hostname, r);
      }
      GoneOwnerLeavesUnclaimed(cfg, w, zone, owner, o, Waiting(w, owner));
      MissingHostnameEnqueuesAll(cfg, p.world, zone, hostname, pages, items);
    }
  }

  /** When the owner of a hostname is deleted under always while duplicates wait, no other
      finalizer holds it, and the next pass enqueues any of the duplicates, then draining the
      queue in any order makes exactly one of them the holder of an id and leaves all others
      in conflict. If the pass enqueues none, nobody takes over. A hostname without a
      record but the owner's, if that, has all its duplicates enqueued, and afterwards at most
      one record. */
  lemma ConflictIsHandedOver(cfg: Config, w: World, zone: ZoneRef, owner: Uid, o: Outcome,
                             pages: seq<seq<Record>>, items: seq<Item>, picks: seq<Pick>)
    returns (heir: Uid)
    requires OwnerLeaving(cfg, w, zone, owner) && FailureFree(cfg, w, owner, o) && !w.resources[owner].otherFinalizers
    requires var p := PassAfter(cfg, w, zone, owner, o, pages, items);
             && ValidBulk(Flatten(pages), p.world.cloud.records, w.zones[zone].id) && ListsAll(items, p.world.resources)
             && (forall u :: u in Waiting(w, owner) ==> WaitsOrLost(w, u, p.pending))
             && CanDrain(cfg, p, picks) && Drain(cfg, p, picks).pending !! Waiting(w, owner)
    ensures var p, hostname := PassAfter(cfg, w, zone, owner, o, pages, items), w.resources[owner].spec.hostname;
            var w'', id := Drain(cfg, p, picks).world, w.zones[zone].id;
            && Claimants(w'', hostname) == Waiting(w, owner)
            && (Waiting(w, owner) * p.pending != {} ==> HandedOver(w'', id, hostname, heir))
            && (Waiting(w, owner) * p.pending == {} ==>
                  forall u :: u in Waiting(w, owner) ==> w''.resources[u].status == w.resources[u].status)
            && (forall u :: u in Waiting(w, owner) ==>
                  (u in p.pending <==> Selects(Index(Flatten(pages)), w.resources[u])))
            && (OwnsAll(w, id, owner) ==>
                  Waiting(w, owner) <= p.pending && AtMostOne(w''.cloud.records, id, hostname))
  {
    var p, hostname := PassAfter(cfg, w, zone, owner, o, pages, items), w.resources[owner].spec.hostname;
    var w'', id := Drain(cfg, p, picks).world, w.zones[zone].id;
    OwnerLeaves(cfg, w, zone, owner, o);
    GoneOwnerLeavesUnclaimed(cfg, w, zone, owner, o, p.pending);
    if Waiting(w, owner) * p.pending != {} {
      heir := DrainHandsOver(cfg, p, zone, hostname, picks);
    } else {
      UnnoticedStaysUnclaimed(cfg, p, hostname, picks);
      heir := owner;
    }
    WaitingAreNoticed(cfg, w, zone, owner, o, pages, items);
    if OwnsAll(w, id, owner) {
      DrainKeepsSingle(cfg, p, picks, id, hostname);
    }
  }
}
