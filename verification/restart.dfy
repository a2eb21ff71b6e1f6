/** What a restart loses: the worker has no memory, so every write that is due must be found
    again by the Create events of the informer or by the first drift pass. */
module Restart {
  import opened Types
  import opened SSL
  import opened Listing
  import opened CloudflareAPI
  import opened Worker
  import opened Runs
  import opened ZoneDrift
  import opened Convergence
  import opened Quiescence

  // The CR's reconcile writes to Cloudflare, at once or after adding the finalizer.
  ghost predicate WouldWrite(cfg: Config, w: World, u: Uid, o: Outcome, next: Outcome)
    requires u in w.resources
  {
    && ValidOutcome(cfg, w, u, o)
    && (|| WriteCall(cfg, w, u, o).Some?
        || (&& Reconcile(cfg, w, u, o).requeue && o.persisted
            && var w' := Step(cfg, w, u, o);
            && ValidOutcome(cfg, w', u, next) && WriteCall(cfg, w', u, next).Some?))
  }

  // The restart finds the CR: its Create event is admitted, or it refers to the Zone it
  // resolves to and that Zone's first pass enqueues it.
  ghost predicate Recovered(cfg: Config, ch: Resource, listing: seq<Record>) {
    || AdmitsCreate(ch)
    || (RefersToZone(ch.spec, ResolveRef(cfg, ch.spec.zoneRef)) && Selects(Index(listing), ch))
  }

  ghost predicate NoWriteIsLost(cfg: Config, w: World, u: Uid, o: Outcome, next: Outcome, listing: seq<Record>)
    requires u in w.resources
  {
    WouldWrite(cfg, w, u, o, next) && ZoneOf(cfg, w, u).Some?
    && ValidBulk(listing, w.cloud.records, ZoneOf(cfg, w, u).value.id)
    ==> Recovered(cfg, w.resources[u], listing)
  }

  // A managed CR with an id, ready to be edited, whose hostname has a drifted record and also
  // one that is worth no event.
  ghost predicate Hidden(cfg: Config, w: World, u: Uid)
    requires u in w.resources
  {
    var ch, zone := w.resources[u], ZoneOf(cfg, w, u);
    && !ch.deleting && ch.status.id != 0 && zone.Some? && OriginInZone(zone.value.domain, ch.spec.originServer)
    && !Opposed(w.resources, u) && !cfg.dryRun && Management(cfg, ch.spec).Manage?
    && SomeDrifted(w, zone.value.id, u)
    && exists id :: IsRecordOf(w.cloud.records, zone.value.id, ch.spec.hostname, id)
                    && !Enqueues(Some(w.cloud.records[id]), ch)
  }

  // The world in which the CR has its finalizer.
  function Finalized(w: World, u: Uid): World
    requires u in w.resources
  {
    w.(resources := w.resources[u := w.resources[u].(finalizer := true)])
  }

  lemma RequeueFinalizes(cfg: Config, w: World, u: Uid, o: Outcome)
    requires u in w.resources && o.persisted && Reconcile(cfg, w, u, o).requeue
    ensures Step(cfg, w, u, o) == Finalized(w, u)
    ensures !w.resources[u].deleting
  {
  }

  lemma FinalizerKeepsOpposed(w: World, u: Uid)
    requires u in w.resources
    ensures Opposed(Finalized(w, u).resources, u) == Opposed(w.resources, u)
  {
    var r, r' := w.resources, Finalized(w, u).resources;
    if peer :| peer in r && peer != u && r[peer].spec.hostname == r[u].spec.hostname && r[peer].status.id != 0 {
      assert peer in r' && r'[peer] == r[peer];
    }
  }

  // A write that is due at once, for a CR with or without its finalizer, is found again.
  lemma DueWriteIsRecovered(cfg: Config, w: World, u: Uid, due: World, o: Outcome, listing: seq<Record>)
    requires CloudWF(w.cloud) && u in w.resources && !w.resources[u].deleting
    requires due == w || due == Finalized(w, u)
    requires ValidOutcome(cfg, due, u, o) && WriteCall(cfg, due, u, o).Some?
    requires ZoneOf(cfg, w, u).Some? && ValidBulk(listing, w.cloud.records, ZoneOf(cfg, w, u).value.id)
    requires !Hidden(cfg, w, u)
    ensures Recovered(cfg, w.resources[u], listing)
  {
    var ch, zone := w.resources[u], ZoneOf(cfg, w, u).value.id;
    FinalizerKeepsOpposed(w, u);
    LookupIsTruthful(listing, w.cloud.records, zone, ch.spec.hostname);
    var found := Lookup(Index(listing), ch.spec.hostname);
    assert found.Some? ==> IsRecordOf(w.cloud.records, zone, ch.spec.hostname, found.value.id);
    WritingMeansMissingOrDrifted(cfg, due, u, o);
    if CallsEdit(cfg, due, u, o) {
      assert SomeDrifted(w, zone, u) by {
        var id :| IsRecordOf(due.cloud.records, zone, ch.spec.hostname, id) && Drifted(ch.spec, due.cloud.records[id]);
        assert IsRecordOf(w.cloud.records, zone, ch.spec.hostname, id);
      }
    }
  }

  lemma UnhiddenLosesNothing(cfg: Config, w: World, u: Uid, o: Outcome, next: Outcome, listing: seq<Record>)
    requires WorldInv(w) && u in w.resources && !Hidden(cfg, w, u)
    ensures NoWriteIsLost(cfg, w, u, o, next, listing)
  {
    var zone := ZoneOf(cfg, w, u);
    if WouldWrite(cfg, w, u, o, next) && zone.Some? && !w.resources[u].deleting
       && ValidBulk(listing, w.cloud.records, zone.value.id)
    {
      if WriteCall(cfg, w, u, o).Some? {
        DueWriteIsRecovered(cfg, w, u, w, o, listing);
      } else {
        RequeueFinalizes(cfg, w, u, o);
        DueWriteIsRecovered(cfg, w, u, Finalized(w, u), next, listing);
      }
    }
  }

  // A listing of the zone that shows the one record first and the other last.
  lemma ListingBetween(records: map<Id, Record>, zone: string, first: Id, last: Id) returns (listing: seq<Record>)
    requires forall i :: i in records ==> records[i].id == i
    requires first in records && last in records && records[first].zone == zone && records[last].zone == zone
    ensures ValidBulk(listing, records, zone)
    ensures FirstMatch(listing, records[first].hostname) == Some(records[first])
    ensures Lookup(Index(listing), records[last].hostname) == Some(records[last])
  {
    var rest := ListingExists(records, zone, records.Keys);
    IndexAppend([records[first]] + rest, records[last]);
    listing := [records[first]] + rest + [records[last]];
  }

  // A CR whose search shows a drifted record is due for an edit.
  lemma EditIsDue(cfg: Config, w: World, u: Uid, o: Outcome)
    requires u in w.resources && FailureFree(cfg, w, u, o) && ZoneOf(cfg, w, u).Some?
    requires var ch, found := w.resources[u], FirstMatch(Flatten(o.pages), w.resources[u].spec.hostname);
             && !ch.deleting && OriginInZone(ZoneOf(cfg, w, u).value.domain, ch.spec.originServer)
             && !Opposed(w.resources, u) && !cfg.dryRun && Management(cfg, ch.spec).Manage?
             && found.Some? && Drifted(ch.spec, found.value)
    ensures WouldWrite(cfg, w, u, o, o)
  {
    SearchSucceeds(cfg, w, u, o);
    if !w.resources[u].finalizer {
      FinalizerKeepsOpposed(w, u);
      RequeueFinalizes(cfg, w, u, o);
      SearchSucceeds(cfg, Finalized(w, u), u, o);
      assert CallsEdit(cfg, Finalized(w, u), u, o);
    }
  }

  // What a hidden CR loses: its edit is due, and nothing finds it.
  lemma HiddenWriteIsLost(cfg: Config, w: World, u: Uid) returns (o: Outcome, listing: seq<Record>)
    requires WorldInv(w) && u in w.resources && Hidden(cfg, w, u)
    ensures !NoWriteIsLost(cfg, w, u, o, o, listing)
    ensures Flatten(o.pages) == listing
  {
    var ch, zone := w.resources[u], ZoneOf(cfg, w, u).value.id;
    var a :| IsRecordOf(w.cloud.records, zone, ch.spec.hostname, a) && Drifted(ch.spec, w.cloud.records[a]);
    var b :| IsRecordOf(w.cloud.records, zone, ch.spec.hostname, b) && !Enqueues(Some(w.cloud.records[b]), ch);
    listing := ListingBetween(w.cloud.records, zone, a, b);
    o := OutcomeFrom(cfg, w, u, listing);
    EditIsDue(cfg, w, u, o);
  }

  /** After a restart no write that is due is lost, whatever the search and the first pass are
      shown, if and only if the CR is not hidden behind a second record of its hostname. The
      loss needs no disagreement between listings: one listing, seen from its two ends by the
      search and the pass, is enough. */
  lemma RestartIsComplete(cfg: Config, w: World, u: Uid)
    requires WorldInv(w) && u in w.resources
    ensures (forall o, next, listing :: NoWriteIsLost(cfg, w, u, o, next, listing)) <==> !Hidden(cfg, w, u)
  {
    if Hidden(cfg, w, u) {
      var o, listing := HiddenWriteIsLost(cfg, w, u);
    } else {
      forall o, next, listing ensures NoWriteIsLost(cfg, w, u, o, next, listing) {
        UnhiddenLosesNothing(cfg, w, u, o, next, listing);
      }
    }
  }

  /** Nothing is hidden where the hostname has one record: a CR with an id is not marked. */
  lemma OneRecordHidesNothing(cfg: Config, w: World, u: Uid)
    requires WorldInv(w) && u in w.resources
    requires var zone := ZoneOf(cfg, w, u);
             zone.Some? ==> AtMostOne(w.cloud.records, zone.value.id, w.resources[u].spec.hostname)
    ensures !Hidden(cfg, w, u)
  {
    assert StatusOK(w.cloud, w.resources[u]);
  }

  /** How a CR becomes hidden: another client of Cloudflare creates a second, different record
      of the hostname of a settled CR. */
  lemma SecondRecordHides(s: State, cfg: Config, u: Uid, id: Id, second: Record)
    requires Inv(s) && u in s.world.resources && Enabled(s, ExternalCreate(second))
    requires var ch, zone := s.world.resources[u], ZoneOf(cfg, s.world, u);
             && Proceeds(cfg, s.world, u) && ch.status.id != 0 && !cfg.dryRun && Management(cfg, ch.spec).Manage?
             && IsRecordOf(s.world.cloud.records, zone.value.id, ch.spec.hostname, id)
             && !Enqueues(Some(s.world.cloud.records[id]), ch)
             && second.zone == zone.value.id && second.hostname == ch.spec.hostname && Drifted(ch.spec, second)
    ensures Inv(Occur(s, ExternalCreate(second))) && Hidden(cfg, Occur(s, ExternalCreate(second)).world, u)
  {
    var w', zone := Occur(s, ExternalCreate(second)).world, ZoneOf(cfg, s.world, u).value.id;
    EventKeepsInv(s, ExternalCreate(second));
    assert CloudWF(s.world.cloud) && s.world.cloud.next !in s.world.cloud.records;
    assert IsRecordOf(w'.cloud.records, zone, second.hostname, second.id);
    assert IsRecordOf(w'.cloud.records, zone, second.hostname, id);
  }

  /** A restart strands no deletion: a CR whose reconcile, under some outcome, takes our
      finalizer off or the CR away is admitted on its Create event. Every terminating CR is,
      and of the others exactly those without an id, whatever their policies. */
  lemma ReleaseIsAdmitted(cfg: Config, w: World, u: Uid, o: Outcome)
    requires u in w.resources
    ensures var ch, after := w.resources[u], Step(cfg, w, u, o).resources;
            && (u !in after || (ch.finalizer && !after[u].finalizer) ==> AdmitsCreate(ch))
            && (ch.deleting ==> AdmitsCreate(ch))
            && (!ch.deleting ==> (AdmitsCreate(ch) <==> ch.status.id == 0))
  {
  }
}
