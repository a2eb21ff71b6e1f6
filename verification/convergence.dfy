/** What the coordinator and the worker achieve together: draining the queue of a drift pass
    brings a zone to its specs, hands a hostname over, and ends. */
module Convergence {
  import opened Types
  import opened SSL
  import opened Listing
  import opened CloudflareAPI
  import opened Worker
  import opened Runs
  import opened ZoneDrift

  // ---- Locality ----

  lemma CreatesAreLocal(cloud: Cloud, call: Call, attempts: seq<Attempt>, maxRetries: nat, hostname: string)
    requires CloudWF(cloud) && call.New? && call.hostname != hostname
    ensures var after := Retry(cloud, call, attempts, maxRetries).cloud;
            CloudWF(after) && SameRecords(cloud.records, after.records, hostname)
  {
    RetriedNew(cloud, call, attempts, maxRetries);
    RetryKeepsCloudWF(cloud, call, attempts, maxRetries);
    var after := Retry(cloud, call, attempts, maxRetries).cloud;
    forall id | id in after.records && after.records[id].hostname == hostname
      ensures id in cloud.records
    {
      assert id !in cloud.records ==> MadeBy(call, after.records[id]);
    }
  }

  lemma EditsAreLocal(cloud: Cloud, call: Call, attempts: seq<Attempt>, maxRetries: nat, hostname: string)
    requires CloudWF(cloud) && call.Edit?
    requires Addressed(cloud, call.zone, call.id) ==> cloud.records[call.id].hostname != hostname
    ensures var after := Retry(cloud, call, attempts, maxRetries).cloud;
            CloudWF(after) && SameRecords(cloud.records, after.records, hostname)
  {
    RetriedEdit(cloud, call, attempts, maxRetries);
    RetryKeepsCloudWF(cloud, call, attempts, maxRetries);
  }

  /** A reconcile touches no record of any other hostname. */
  lemma StepIsLocal(cfg: Config, w: World, uid: Uid, o: Outcome, hostname: string)
    requires WorldInv(w) && uid in w.resources && ValidOutcome(cfg, w, uid, o)
    requires hostname != w.resources[uid].spec.hostname
    ensures SameRecords(w.cloud.records, Step(cfg, w, uid, o).cloud.records, hostname)
  {
    var call := WriteCall(cfg, w, uid, o);
    OneWritingCall(cfg, w, uid, o);
    SearchReplyIsTruthful(cfg, w, uid, o);
    if call.Some? {
      if call.value.New? {
        CreatesAreLocal(w.cloud, call.value, o.write, cfg.maxRetries, hostname);
      } else if call.value.Edit? {
        EditsAreLocal(w.cloud, call.value, o.write, cfg.maxRetries, hostname);
      } else {
        RetriedDelete(w.cloud, call.value, o.write, cfg.maxRetries);
        assert StatusOK(w.cloud, w.resources[uid]);
      }
    }
  }

  // ---- Draining ----

  // No read, call or write fails, however often the call is made; Cloudflare may still fill in
  // anything, and answer a delete with a 404.
  ghost predicate FailureFree(cfg: Config, w: World, uid: Uid, o: Outcome)
    requires uid in w.resources
  {
    && ValidOutcome(cfg, w, uid, o) && o.kubeReads.AllRead? && o.persisted
    && AllProcessed(o.lookup, cfg.maxRetries) && AllProcessed(o.write, cfg.maxRetries)
  }

  // The queue takes any pending CR and reconciles it.
  datatype Pick = Pick(uid: Uid, o: Outcome)

  // The work queue holds each CR once.
  datatype Progress = Progress(world: World, pending: set<Uid>)

  ghost predicate CanPick(cfg: Config, p: Progress, pick: Pick) {
    pick.uid in p.pending && pick.uid in p.world.resources && FailureFree(cfg, p.world, pick.uid, pick.o)
  }

  // A reconcile that asks for it, or returns an error, puts its CR back into the queue.
  function Advance(cfg: Config, p: Progress, pick: Pick): Progress
    requires pick.uid in p.world.resources
  {
    var turn := Reconcile(cfg, p.world, pick.uid, pick.o);
    Progress(Step(cfg, p.world, pick.uid, pick.o),
             p.pending - {pick.uid} + if turn.requeue || turn.failed then {pick.uid} else {})
  }

  ghost predicate CanDrain(cfg: Config, p: Progress, picks: seq<Pick>)
    decreases picks
  {
    picks == [] || (CanPick(cfg, p, picks[0]) && CanDrain(cfg, Advance(cfg, p, picks[0]), picks[1..]))
  }

  ghost function Drain(cfg: Config, p: Progress, picks: seq<Pick>): Progress
    requires CanDrain(cfg, p, picks)
    decreases picks
  {
    if picks == [] then p else Drain(cfg, Advance(cfg, p, picks[0]), picks[1..])
  }

  // CRs that still have to go around once for their finalizer.
  ghost function Unfinalized(w: World): set<Uid> {
    set u | u in w.resources && !w.resources[u].finalizer && !w.resources[u].deleting
  }

  ghost function Measure(p: Progress): nat {
    |p.pending| + |Unfinalized(p.world)|
  }

  // A reconcile asks for a requeue exactly when it adds the finalizer, and takes no finalizer
  // from a CR that is not terminating.
  lemma StepFinalizes(cfg: Config, w: World, uid: Uid, o: Outcome)
    requires uid in w.resources && o.persisted
    ensures var turn := Reconcile(cfg, w, uid, o);
            && (turn.requeue ==> turn.write == PutFinalizer(true) && uid in Unfinalized(w))
            && (turn.write == PutFinalizer(true) ==> turn.requeue)
            && (turn.write == PutFinalizer(false) ==> w.resources[uid].deleting)
  {
  }

  lemma StoreFinalizes(resources: map<Uid, Resource>, uid: Uid, write: Write)
    requires uid in resources
    requires write == PutFinalizer(false) ==> resources[uid].deleting
    ensures var after := Store(resources, uid, write);
            forall u :: u in after && !after[u].finalizer && !after[u].deleting ==>
              && u in resources && !resources[u].finalizer && !resources[u].deleting
              && (u == uid ==> write != PutFinalizer(true))
  {
  }

  // A terminating CR whose Zone does not resolve, and which cannot be released without it.
  ghost predicate Blocked(cfg: Config, w: World, u: Uid)
    requires u in w.resources
  {
    var ch := w.resources[u];
    && ch.deleting && ZoneOf(cfg, w, u).None?
    && !(ch.finalizer && (ch.status.id == 0 || Management(cfg, ch.spec).Observe? || Deletion(cfg, ch.spec).Never?))
  }

  /** Without failures of the outside only the reconcile of a blocked CR returns an error. It
      changes nothing, and goes back into the queue. */
  lemma OnlyBlockedFail(cfg: Config, p: Progress, pick: Pick)
    requires CanPick(cfg, p, pick)
    ensures Reconcile(cfg, p.world, pick.uid, pick.o).failed <==> Blocked(cfg, p.world, pick.uid)
    ensures Blocked(cfg, p.world, pick.uid) ==> Advance(cfg, p, pick) == p
  {
    var w, u, o := p.world, pick.uid, pick.o;
    var ch, zone := w.resources[u], ZoneOf(cfg, w, u);
    FindChangesNothing(w.cloud, o.pages, ch.spec.hostname, o.lookup, cfg.maxRetries);
    SearchSucceeds(cfg, w, u, o);
    if zone.Some? {
      DeleteIsAnswered(w.cloud, zone.value.id, ch.status.id, o.write, cfg.maxRetries);
    }
    assert p.pending - {u} + {u} == p.pending;
  }

  // The reconciles of a drain that return no error.
  ghost function Productive(cfg: Config, p: Progress, picks: seq<Pick>): nat
    requires CanDrain(cfg, p, picks)
    decreases picks
  {
    if picks == [] then 0
    else
      Productive(cfg, Advance(cfg, p, picks[0]), picks[1..])
      + if Reconcile(cfg, p.world, picks[0].uid, picks[0].o).failed then 0 else 1
  }

  lemma PickDecreases(cfg: Config, p: Progress, pick: Pick)
    requires CanPick(cfg, p, pick) && !Blocked(cfg, p.world, pick.uid)
    ensures Measure(Advance(cfg, p, pick)) < Measure(p)
  {
    var w, w' := p.world, Step(cfg, p.world, pick.uid, pick.o);
    var before, after := Unfinalized(w), Unfinalized(w');
    OnlyBlockedFail(cfg, p, pick);
    StepFinalizes(cfg, w, pick.uid, pick.o);
    StoreFinalizes(w.resources, pick.uid, Reconcile(cfg, w, pick.uid, pick.o).write);
    if Reconcile(cfg, w, pick.uid, pick.o).requeue {
      SubsetCardinality(after, before - {pick.uid});
      assert Advance(cfg, p, pick).pending == p.pending;
    } else {
      SubsetCardinality(after, before);
    }
  }

  lemma {:induction false} SubsetCardinality(a: set<Uid>, b: set<Uid>)
    requires a <= b
    ensures |a| <= |b|
  {
    if a != {} {
      var x :| x in a;
      SubsetCardinality(a - {x}, b - {x});
    }
  }

  /** Every drain ends but for errors: it has at most as many reconciles that return none as
      there are CRs pending and CRs still without a finalizer. */
  lemma {:induction false} DrainEnds(cfg: Config, p: Progress, picks: seq<Pick>)
    requires CanDrain(cfg, p, picks)
    ensures Productive(cfg, p, picks) + Measure(Drain(cfg, p, picks)) <= Measure(p)
    decreases picks
  {
    if picks != [] {
      OnlyBlockedFail(cfg, p, picks[0]);
      if !Blocked(cfg, p.world, picks[0].uid) {
        PickDecreases(cfg, p, picks[0]);
      }
      DrainEnds(cfg, Advance(cfg, p, picks[0]), picks[1..]);
    }
  }

  // ---- One failure-free reconcile ----

  // The Ready condition that this record calls for.
  function ReadyFor(record: Record, generation: nat): Condition {
    if record.ssl.status == "active" then Condition(true, Ready, generation)
    else Condition(false, SSLPending, generation)
  }

  // The CR's status reports this record of its hostname in the zone.
  ghost predicate Reports(w: World, zone: string, uid: Uid, id: Id) {
    && uid in w.resources
    && var ch := w.resources[uid];
    && IsRecordOf(w.cloud.records, zone, ch.spec.hostname, id)
    && ch.status.id == id
    && ch.status.hostnameStatus == w.cloud.records[id].status
    && ch.status.ssl == Some(SSLStatusOf(w.cloud.records[id].ssl))
    && ch.status.consecutiveErrors == 0
    && ch.status.ready == Some(ReadyFor(w.cloud.records[id], ch.generation))
  }

  lemma FirstAttemptDecides(cloud: Cloud, call: Call, attempts: seq<Attempt>, maxRetries: nat)
    requires First(attempts).fate.Processed? && Apply(cloud, call, First(attempts).fate.fill).1.Success?
    ensures var r := Retry(cloud, call, attempts, maxRetries);
            (r.cloud, r.reply) == Apply(cloud, call, First(attempts).fate.fill)
  {
  }

  // The three ways through reconcileCloudflareState.
  lemma CreatedReports(cfg: Config, w: World, uid: Uid, o: Outcome)
    requires WorldInv(w) && uid in w.resources && FailureFree(cfg, w, uid, o) && CallsNew(cfg, w, uid, o)
    ensures Reports(Step(cfg, w, uid, o), ZoneOf(cfg, w, uid).value.id, uid, w.cloud.next)
    ensures !Drifted(w.resources[uid].spec, Step(cfg, w, uid, o).cloud.records[w.cloud.next])
  {
    var ch, zone := w.resources[uid], ZoneOf(cfg, w, uid).value;
    var call, fill := NewCall(cfg, zone.id, ch.spec), First(o.write).fate.fill;
    SearchReplyIsTruthful(cfg, w, uid, o);
    FirstAttemptDecides(w.cloud, call, o.write, cfg.maxRetries);
    var record := NewRecord(w.cloud.next, call, fill);
    assert MadeBy(call, record);
    MadeMeetsSpec(cfg, zone.id, ch.spec, record);
    FindChangesNothing(w.cloud, o.pages, ch.spec.hostname, o.lookup, cfg.maxRetries);
    assert Reconcile(cfg, w, uid, o) == HandleCreate(cfg, zone, w.cloud, ch, o);
    assert Reconcile(cfg, w, uid, o) == RecordCreation(Apply(w.cloud, call, fill).0, ch, record, o);
  }

  lemma EditedReports(cfg: Config, w: World, uid: Uid, o: Outcome)
    requires WorldInv(w) && uid in w.resources && FailureFree(cfg, w, uid, o) && CallsEdit(cfg, w, uid, o)
    ensures var id := SearchReply(cfg, w, uid, o).record.value.id;
            && Reports(Step(cfg, w, uid, o), ZoneOf(cfg, w, uid).value.id, uid, id)
            && !Drifted(w.resources[uid].spec, Step(cfg, w, uid, o).cloud.records[id])
  {
    var ch, zone := w.resources[uid], ZoneOf(cfg, w, uid).value;
    var existing := SearchReply(cfg, w, uid, o).record.value;
    var call, fill := EditCall(zone.id, ch.spec, existing), First(o.write).fate.fill;
    SearchReplyIsTruthful(cfg, w, uid, o);
    FirstAttemptDecides(w.cloud, call, o.write, cfg.maxRetries);
    var record := EditedRecord(existing, call, fill);
    assert EditedBy(call, existing, record);
    EditedMeetsSpec(zone.id, ch.spec, existing, record);
    FindChangesNothing(w.cloud, o.pages, ch.spec.hostname, o.lookup, cfg.maxRetries);
    assert Reconcile(cfg, w, uid, o) == AdoptAndCorrect(cfg, zone, w.cloud, ch, existing, o);
  }

  lemma AdoptedReports(cfg: Config, w: World, uid: Uid, o: Outcome)
    requires WorldInv(w) && uid in w.resources && FailureFree(cfg, w, uid, o)
    requires Proceeds(cfg, w, uid) && WriteCall(cfg, w, uid, o).None?
    requires SearchReply(cfg, w, uid, o).Success? && SearchReply(cfg, w, uid, o).record.Some?
    ensures Reports(Step(cfg, w, uid, o), ZoneOf(cfg, w, uid).value.id, uid,
                    SearchReply(cfg, w, uid, o).record.value.id)
    ensures Step(cfg, w, uid, o).cloud == w.cloud
  {
    var ch, zone := w.resources[uid], ZoneOf(cfg, w, uid).value;
    var existing := SearchReply(cfg, w, uid, o).record.value;
    SearchReplyIsTruthful(cfg, w, uid, o);
    FindChangesNothing(w.cloud, o.pages, ch.spec.hostname, o.lookup, cfg.maxRetries);
    assert Reconcile(cfg, w, uid, o) == AdoptAndCorrect(cfg, zone, w.cloud, ch, existing, o);
  }

  lemma SearchSucceeds(cfg: Config, w: World, uid: Uid, o: Outcome)
    requires uid in w.resources && FailureFree(cfg, w, uid, o)
    ensures SearchReply(cfg, w, uid, o) == Success(FirstMatch(Flatten(o.pages), w.resources[uid].spec.hostname))
  {
  }

  /** A failure-free reconcile of an unopposed CR that provisions leaves it reporting a record
      of its hostname, under manage one that meets its spec. */
  lemma ProceedingReports(cfg: Config, w: World, uid: Uid, o: Outcome) returns (id: Id)
    requires WorldInv(w) && uid in w.resources && FailureFree(cfg, w, uid, o)
    requires Proceeds(cfg, w, uid) && !cfg.dryRun && !Management(cfg, w.resources[uid].spec).Observe?
    ensures Reports(Step(cfg, w, uid, o), ZoneOf(cfg, w, uid).value.id, uid, id)
    ensures Management(cfg, w.resources[uid].spec).Manage? ==>
              !Drifted(w.resources[uid].spec, Step(cfg, w, uid, o).cloud.records[id])
    ensures !Reconcile(cfg, w, uid, o).requeue
  {
    SearchSucceeds(cfg, w, uid, o);
    if CallsNew(cfg, w, uid, o) {
      id := w.cloud.next;
      CreatedReports(cfg, w, uid, o);
    } else if CallsEdit(cfg, w, uid, o) {
      id := SearchReply(cfg, w, uid, o).record.value.id;
      EditedReports(cfg, w, uid, o);
    } else {
      id := SearchReply(cfg, w, uid, o).record.value.id;
      AdoptedReports(cfg, w, uid, o);
      SearchReplyIsTruthful(cfg, w, uid, o);
    }
  }

  // Where a hostname has at most one record in a zone, no failure-free reconcile of any CR
  // changes that.
  lemma StepKeepsSingle(cfg: Config, w: World, uid: Uid, o: Outcome, zone: string, hostname: string)
    requires WorldInv(w) && uid in w.resources && FailureFree(cfg, w, uid, o)
    requires AtMostOne(w.cloud.records, zone, hostname)
    ensures AtMostOne(Step(cfg, w, uid, o).cloud.records, zone, hostname)
  {
    var call, before, after := WriteCall(cfg, w, uid, o), w.cloud.records, Step(cfg, w, uid, o).cloud.records;
    OneWritingCall(cfg, w, uid, o);
    SearchReplyIsTruthful(cfg, w, uid, o);
    if CallsNew(cfg, w, uid, o) {
      FirstAttemptDecides(w.cloud, call.value, o.write, cfg.maxRetries);
      assert after == before[w.cloud.next := NewRecord(w.cloud.next, call.value, First(o.write).fate.fill)];
      forall i | IsRecordOf(after, zone, hostname, i)
        ensures IsRecordOf(before, zone, hostname, i) || i == w.cloud.next
      {
      }
    } else {
      if CallsEdit(cfg, w, uid, o) {
        RetriedEdit(w.cloud, call.value, o.write, cfg.maxRetries);
      } else if CallsDelete(cfg, w, uid, o) {
        RetriedDelete(w.cloud, call.value, o.write, cfg.maxRetries);
      }
      forall i | IsRecordOf(after, zone, hostname, i) ensures IsRecordOf(before, zone, hostname, i) {
      }
    }
  }

  // ---- What a drift pass sees ----

  // The bulk listing shows exactly the records of the zone.
  ghost predicate ValidBulk(listing: seq<Record>, records: map<Id, Record>, zone: string) {
    && (forall r :: r in listing ==> r.id in records && records[r.id] == r && r.zone == zone)
    && (forall id :: id in records && records[id].zone == zone ==> records[id] in listing)
  }

  // The Kubernetes list shows exactly the CRs.
  ghost predicate ListsAll(items: seq<Item>, resources: map<Uid, Resource>) {
    && (forall item :: item in items ==> item.uid in resources && resources[item.uid] == item.resource)
    && (forall u :: u in resources ==> Item(u, resources[u]) in items)
  }

  ghost function PendingAfterPass(zone: ZoneRef, pages: seq<seq<Record>>, items: seq<Item>): set<Uid> {
    set u | u in Events(zone, Index(Flatten(pages)), items)
  }

  lemma LookupIsTruthful(listing: seq<Record>, records: map<Id, Record>, zone: string, hostname: string)
    requires ValidBulk(listing, records, zone)
    ensures Search(records, zone, hostname, Lookup(Index(listing), hostname))
  {
    IndexIsLast(listing, hostname);
  }

  lemma PassSelects(zone: ZoneRef, pages: seq<seq<Record>>, items: seq<Item>, resources: map<Uid, Resource>, u: Uid)
    requires ListsAll(items, resources)
    ensures u in PendingAfterPass(zone, pages, items) <==>
              u in resources && RefersToZone(resources[u].spec, zone) && Selects(Index(Flatten(pages)), resources[u])
  {
    EventsAreExact(zone, Index(Flatten(pages)), items, u);
    if u in resources {
      assert Item(u, resources[u]) in items;
    }
  }

  // ---- Drains exist ----

  // The zone's records can be listed.
  lemma {:induction false} ListingExists(records: map<Id, Record>, zone: string, ids: set<Id>)
    returns (listing: seq<Record>)
    requires ids <= records.Keys && forall id :: id in records ==> records[id].id == id
    ensures forall r :: r in listing <==> r.id in ids && records[r.id] == r && r.zone == zone
    decreases ids
  {
    if ids == {} {
      listing := [];
    } else {
      var id :| id in ids;
      var rest := ListingExists(records, zone, ids - {id});
      listing := if records[id].zone == zone then [records[id]] + rest else rest;
    }
  }

  // An outcome without failures that answers searches from this listing.
  lemma OutcomeFrom(cfg: Config, w: World, uid: Uid, listing: seq<Record>) returns (o: Outcome)
    requires uid in w.resources
    requires ZoneOf(cfg, w, uid).Some? ==>
               ValidListing(listing, w.cloud.records, ZoneOf(cfg, w, uid).value.id, w.resources[uid].spec.hostname)
    ensures FailureFree(cfg, w, uid, o) && Flatten(o.pages) == listing
  {
    var ssl := CFSSL("", SSLConfig("", "", "", ""), "", "", "", "", false, [], ZERO_TIME, ZERO_TIME, [], []);
    var attempts := seq(cfg.maxRetries + 1, _ => Attempt(Processed(Fill("", "", ssl)), false));
    o := Outcome(AllRead, [listing], attempts, attempts, ZERO_TIME, true);
    assert Flatten([listing]) == listing by {
      assert [listing][1..] == [] && listing + [] == listing;
    }
  }

  lemma OutcomeExists(cfg: Config, w: World, uid: Uid) returns (o: Outcome)
    requires CloudWF(w.cloud) && uid in w.resources
    ensures FailureFree(cfg, w, uid, o)
  {
    var zone := ZoneOf(cfg, w, uid);
    var listing := ListingExists(w.cloud.records, if zone.Some? then zone.value.id else "", w.cloud.records.Keys);
    o := OutcomeFrom(cfg, w, uid, listing);
  }

  ghost function BlockedIn(cfg: Config, p: Progress): set<Uid> {
    set u | u in p.pending && u in p.world.resources && Blocked(cfg, p.world, u)
  }

  // A reconcile neither blocks nor unblocks anybody.
  lemma PickKeepsBlocked(cfg: Config, p: Progress, pick: Pick)
    requires CanPick(cfg, p, pick)
    ensures BlockedIn(cfg, Advance(cfg, p, pick)) == BlockedIn(cfg, p)
  {
    var p' := Advance(cfg, p, pick);
    OnlyBlockedFail(cfg, p, pick);
    if !Blocked(cfg, p.world, pick.uid) {
      StepFinalizes(cfg, p.world, pick.uid, pick.o);
      forall u ensures u in BlockedIn(cfg, p') <==> u in BlockedIn(cfg, p) {
        if u != pick.uid {
          StepOfOthers(cfg, p.world, pick.uid, pick.o, u);
        }
      }
    }
  }

  /** No drain gets rid of a blocked CR. */
  lemma {:induction false} BlockedStay(cfg: Config, p: Progress, picks: seq<Pick>)
    requires CanDrain(cfg, p, picks)
    ensures BlockedIn(cfg, p) == BlockedIn(cfg, Drain(cfg, p, picks))
    decreases picks
  {
    if picks != [] {
      PickKeepsBlocked(cfg, p, picks[0]);
      BlockedStay(cfg, Advance(cfg, p, picks[0]), picks[1..]);
    }
  }

  /** Every queue of live CRs can be drained but for the blocked ones. */
  lemma {:induction false} DrainExists(cfg: Config, p: Progress) returns (picks: seq<Pick>)
    requires WorldInv(p.world) && p.pending <= p.world.resources.Keys
    ensures CanDrain(cfg, p, picks) && Drain(cfg, p, picks).pending == BlockedIn(cfg, p)
    decreases Measure(p)
  {
    if p.pending == BlockedIn(cfg, p) {
      picks := [];
    } else {
      var u :| u in p.pending && !Blocked(cfg, p.world, u);
      var o := OutcomeExists(cfg, p.world, u);
      var pick := Pick(u, o);
      PickDecreases(cfg, p, pick);
      PickKeepsBlocked(cfg, p, pick);
      StepKeepsWorldInv(cfg, p.world, u, o);
      PendingStaysLive(cfg, p, pick);
      var rest := DrainExists(cfg, Advance(cfg, p, pick));
      picks := [pick] + rest;
      assert picks[1..] == rest;
    }
  }

  /** A queue of live CRs can be drained to empty if and only if none of them is blocked. */
  lemma EmptyDrainExists(cfg: Config, p: Progress)
    requires WorldInv(p.world) && p.pending <= p.world.resources.Keys
    ensures (exists picks :: CanDrain(cfg, p, picks) && Drain(cfg, p, picks).pending == {}) <==> BlockedIn(cfg, p) == {}
  {
    if picks :| CanDrain(cfg, p, picks) && Drain(cfg, p, picks).pending == {} {
      BlockedStay(cfg, p, picks);
    }
    if BlockedIn(cfg, p) == {} {
      var picks := DrainExists(cfg, p);
    }
  }

  lemma PendingStaysLive(cfg: Config, p: Progress, pick: Pick)
    requires p.pending <= p.world.resources.Keys && CanPick(cfg, p, pick)
    ensures Advance(cfg, p, pick).pending <= Advance(cfg, p, pick).world.resources.Keys
  {
  }

  // ---- Convergence ----

  // A CR that the operator fully manages in this zone.
  ghost predicate Managed(cfg: Config, zone: ZoneRef, domain: string, ch: Resource) {
    && !ch.deleting && ResolveRef(cfg, ch.spec.zoneRef) == zone
    && Management(cfg, ch.spec).Manage? && OriginInZone(domain, ch.spec.originServer)
  }

  // The members are managed in the zone. There may be any other CRs besides; where one shares
  // its hostname with a member, the member is the owner.
  ghost predicate Scope(cfg: Config, w: World, zone: ZoneRef, members: set<Uid>) {
    && WorldInv(w) && members <= w.resources.Keys
    && !cfg.dryRun && zone in w.zones && w.zones[zone].credentials
    && (forall u :: u in members ==> Managed(cfg, zone, w.zones[zone].domain, w.resources[u]))
    && (forall u, v :: u in members && v in w.resources && u != v
                       && w.resources[u].spec.hostname == w.resources[v].spec.hostname ==>
          w.resources[u].status.id != 0)
  }

  // Nobody opposes a member, and it opposes all others of its hostname.
  lemma MemberIsUnopposed(cfg: Config, w: World, zone: ZoneRef, members: set<Uid>, u: Uid)
    requires Scope(cfg, w, zone, members) && u in members
    ensures !Opposed(w.resources, u)
    ensures forall v :: v in w.resources && v != u && w.resources[v].spec.hostname == w.resources[u].spec.hostname ==>
              Opposed(w.resources, v) && w.resources[v].status.id == 0
  {
  }

  // An opposed CR writes nothing to Cloudflare, terminating or not.
  lemma OpposedWritesNothing(cfg: Config, w: World, uid: Uid, o: Outcome)
    requires uid in w.resources && Opposed(w.resources, uid) && w.resources[uid].status.id == 0
    ensures Step(cfg, w, uid, o).cloud == w.cloud
  {
    OneWritingCall(cfg, w, uid, o);
  }

  // A CR that is not terminating keeps having an id.
  lemma HolderKeepsId(cfg: Config, w: World, uid: Uid, o: Outcome)
    requires WorldInv(w) && uid in w.resources && ValidOutcome(cfg, w, uid, o)
    requires !w.resources[uid].deleting && w.resources[uid].status.id != 0
    ensures uid in Step(cfg, w, uid, o).resources && Step(cfg, w, uid, o).resources[uid].status.id != 0
  {
    var ch, reply := w.resources[uid], SearchReply(cfg, w, uid, o);
    if Proceeds(cfg, w, uid) && o.kubeReads.AllRead? {
      var zone := ZoneOf(cfg, w, uid).value;
      SearchReplyIsTruthful(cfg, w, uid, o);
      assert Reconcile(cfg, w, uid, o) == ReconcileCloudflareState(cfg, zone, w.cloud, ch, o);
      if reply.Success? && reply.record.Some? {
        assert reply.record.value.id in w.cloud.issued;
        AdoptTakesId(cfg, zone, w.cloud, ch, reply.record.value, o);
      } else {
        CreateKeepsId(cfg, zone, w.cloud, ch, o);
      }
    } else {
      WaitingTurn(cfg, w, uid, o);
    }
  }

  // A pass sends no event for the CR.
  ghost predicate Silent(w: World, zone: string, u: Uid)
    requires u in w.resources
  {
    exists id :: IsRecordOf(w.cloud.records, zone, w.resources[u].spec.hostname, id)
                 && !Enqueues(Some(w.cloud.records[id]), w.resources[u])
  }

  // Cloudflare has what the CR's spec asks for.
  ghost predicate Matched(w: World, zone: string, u: Uid)
    requires u in w.resources
  {
    exists id :: IsRecordOf(w.cloud.records, zone, w.resources[u].spec.hostname, id)
                 && !Drifted(w.resources[u].spec, w.cloud.records[id])
  }

  // The CR carries a conflict mark while its record exists and has drifted.
  ghost predicate Stuck(w: World, zone: string, u: Uid)
    requires u in w.resources
  {
    && IsHostnameConflict(w.resources[u].status)
    && exists id :: IsRecordOf(w.cloud.records, zone, w.resources[u].spec.hostname, id)
                    && Drifted(w.resources[u].spec, w.cloud.records[id])
  }

  lemma ReportingIsSilent(w: World, zone: string, u: Uid, id: Id)
    requires Reports(w, zone, u, id) && !Drifted(w.resources[u].spec, w.cloud.records[id])
    ensures Silent(w, zone, u) && Matched(w, zone, u)
  {
    RefreshSilencesComparison(w.cloud.records[id].ssl);
    assert !Enqueues(Some(w.cloud.records[id]), w.resources[u]);
  }

  lemma StepOfOthers(cfg: Config, w: World, uid: Uid, o: Outcome, v: Uid)
    requires uid in w.resources && v != uid
    ensures var w' := Step(cfg, w, uid, o);
            (v in w'.resources <==> v in w.resources) && (v in w.resources ==> w'.resources[v] == w.resources[v])
  {
  }

  // A reconcile of a CR that is not terminating keeps it and its spec.
  lemma StepKeepsSpec(cfg: Config, w: World, uid: Uid, o: Outcome)
    requires uid in w.resources && !w.resources[uid].deleting
    ensures var w' := Step(cfg, w, uid, o);
            && w'.zones == w.zones && uid in w'.resources
            && w'.resources[uid].spec == w.resources[uid].spec && !w'.resources[uid].deleting
  {
  }

  lemma StoredSpec(cfg: Config, w: World, uid: Uid, o: Outcome)
    requires uid in w.resources && uid in Step(cfg, w, uid, o).resources
    ensures Step(cfg, w, uid, o).resources[uid].spec == w.resources[uid].spec
  {
  }

  lemma SameRecordsSameVerdict(w: World, w': World, zone: string, u: Uid)
    requires u in w.resources && u in w'.resources && w'.resources[u] == w.resources[u]
    requires SameRecords(w.cloud.records, w'.cloud.records, w.resources[u].spec.hostname)
    ensures Silent(w, zone, u) ==> Silent(w', zone, u)
    ensures Matched(w, zone, u) ==> Matched(w', zone, u)
    ensures Stuck(w, zone, u) ==> Stuck(w', zone, u)
  {
    var host := w.resources[u].spec.hostname;
    forall id | IsRecordOf(w.cloud.records, zone, host, id)
      ensures IsRecordOf(w'.cloud.records, zone, host, id) && w'.cloud.records[id] == w.cloud.records[id]
    {
    }
  }

  // A managed CR either gets its finalizer or ends up matched and silent.
  lemma ManagedStep(cfg: Config, w: World, zone: ZoneRef, members: set<Uid>, u: Uid, o: Outcome)
    requires Scope(cfg, w, zone, members) && u in members && FailureFree(cfg, w, u, o)
    ensures var w', id := Step(cfg, w, u, o), w.zones[zone].id;
            && u in w'.resources
            && (Reconcile(cfg, w, u, o).requeue || (Silent(w', id, u) && Matched(w', id, u)))
  {
    StepKeepsSpec(cfg, w, u, o);
    if w.resources[u].finalizer {
      MemberIsUnopposed(cfg, w, zone, members, u);
      assert Proceeds(cfg, w, u);
      var id := ProceedingReports(cfg, w, u, o);
      ReportingIsSilent(Step(cfg, w, u, o), w.zones[zone].id, u, id);
    }
  }

  // A reconcile of any other CR leaves a member as it is, and the verdicts on it.
  lemma VerdictStays(cfg: Config, w: World, zone: ZoneRef, members: set<Uid>, u: Uid, o: Outcome, v: Uid)
    requires Scope(cfg, w, zone, members) && u in w.resources && FailureFree(cfg, w, u, o)
    requires v in members && v != u
    ensures var w', id := Step(cfg, w, u, o), w.zones[zone].id;
            && v in w'.resources && w'.resources[v] == w.resources[v]
            && (Silent(w, id, v) ==> Silent(w', id, v))
            && (Matched(w, id, v) ==> Matched(w', id, v))
            && (Stuck(w, id, v) ==> Stuck(w', id, v))
  {
    StepOfOthers(cfg, w, u, o, v);
    if w.resources[u].spec.hostname == w.resources[v].spec.hostname {
      MemberIsUnopposed(cfg, w, zone, members, v);
      OpposedWritesNothing(cfg, w, u, o);
    } else {
      StepIsLocal(cfg, w, u, o, w.resources[v].spec.hostname);
    }
    SameRecordsSameVerdict(w, Step(cfg, w, u, o), w.zones[zone].id, v);
  }

  lemma ScopeStep(cfg: Config, w: World, zone: ZoneRef, members: set<Uid>, u: Uid, o: Outcome)
    requires Scope(cfg, w, zone, members) && u in w.resources && FailureFree(cfg, w, u, o)
    ensures Scope(cfg, Step(cfg, w, u, o), zone, members)
  {
    var w' := Step(cfg, w, u, o);
    StepKeepsWorldInv(cfg, w, u, o);
    forall v | v in members
      ensures v in w'.resources && w'.resources[v].spec == w.resources[v].spec && !w'.resources[v].deleting
      ensures w.resources[v].status.id != 0 ==> w'.resources[v].status.id != 0
    {
      if v != u {
        StepOfOthers(cfg, w, u, o, v);
      } else {
        StepKeepsSpec(cfg, w, u, o);
        if w.resources[v].status.id != 0 {
          HolderKeepsId(cfg, w, u, o);
        }
      }
    }
    forall v | v in w'.resources
      ensures v in w.resources && w'.resources[v].spec == w.resources[v].spec
    {
      if v != u {
        StepOfOthers(cfg, w, u, o, v);
      } else {
        StoredSpec(cfg, w, u, o);
      }
    }
  }

  // The hostname of a CR has at most one record in the zone.
  ghost predicate Single(w: World, zone: string, u: Uid)
    requires u in w.resources
  {
    AtMostOne(w.cloud.records, zone, w.resources[u].spec.hostname)
  }

  // What holds throughout the drain of a pass over start.
  ghost predicate Converging(start: World, zone: string, members: set<Uid>, p: Progress) {
    && members <= start.resources.Keys && members <= p.world.resources.Keys
    && (forall u :: u in members && u !in p.pending ==>
          Silent(p.world, zone, u) && (Stuck(start, zone, u) || Matched(p.world, zone, u)))
    && (forall u :: u in members && Single(start, zone, u) ==>
          && Single(p.world, zone, u)
          && (Stuck(start, zone, u) ==> u !in p.pending && Stuck(p.world, zone, u)))
  }

  lemma ConvergingStep(cfg: Config, start: World, zone: ZoneRef, members: set<Uid>, p: Progress, pick: Pick)
    requires Scope(cfg, p.world, zone, members)
    requires Converging(start, p.world.zones[zone].id, members, p) && CanPick(cfg, p, pick)
    ensures Converging(start, p.world.zones[zone].id, members, Advance(cfg, p, pick))
  {
    var id, w, p' := p.world.zones[zone].id, p.world, Advance(cfg, p, pick);
    forall v | v in members
      ensures v in p'.world.resources
      ensures Single(w, id, v) ==> Single(p'.world, id, v)
      ensures Single(start, id, v) && Stuck(start, id, v) ==> v !in p'.pending && Stuck(p'.world, id, v)
      ensures v !in p'.pending ==> Silent(p'.world, id, v) && (Stuck(start, id, v) || Matched(p'.world, id, v))
    {
      MemberStep(cfg, w, zone, members, pick.uid, pick.o, v);
    }
  }

  // What a reconcile means for one member.
  lemma MemberStep(cfg: Config, w: World, zone: ZoneRef, members: set<Uid>, u: Uid, o: Outcome, v: Uid)
    requires Scope(cfg, w, zone, members) && u in w.resources && FailureFree(cfg, w, u, o) && v in members
    ensures var w', id := Step(cfg, w, u, o), w.zones[zone].id;
            && v in w'.resources
            && (Single(w, id, v) ==> Single(w', id, v))
            && (v != u ==>
                  && (Silent(w, id, v) ==> Silent(w', id, v))
                  && (Matched(w, id, v) ==> Matched(w', id, v))
                  && (Stuck(w, id, v) ==> Stuck(w', id, v)))
            && (v == u ==> Reconcile(cfg, w, u, o).requeue || (Silent(w', id, v) && Matched(w', id, v)))
  {
    if v != u {
      VerdictStays(cfg, w, zone, members, u, o, v);
    } else {
      StepKeepsSpec(cfg, w, u, o);
      ManagedStep(cfg, w, zone, members, v, o);
    }
    if Single(w, w.zones[zone].id, v) {
      StepKeepsSingle(cfg, w, u, o, w.zones[zone].id, w.resources[v].spec.hostname);
    }
  }

  lemma {:induction false} DrainKeepsConverging(cfg: Config, start: World, zone: ZoneRef, members: set<Uid>,
                                                p: Progress, picks: seq<Pick>)
    requires Scope(cfg, p.world, zone, members)
    requires Converging(start, p.world.zones[zone].id, members, p) && CanDrain(cfg, p, picks)
    ensures var p' := Drain(cfg, p, picks);
            && Scope(cfg, p'.world, zone, members) && p'.world.zones == p.world.zones
            && Converging(start, p.world.zones[zone].id, members, p')
    decreases picks
  {
    if picks != [] {
      var next := Advance(cfg, p, picks[0]);
      ScopeStep(cfg, p.world, zone, members, picks[0].uid, picks[0].o);
      ConvergingStep(cfg, start, zone, members, p, picks[0]);
      DrainKeepsConverging(cfg, start, zone, members, next, picks[1..]);
    }
  }

  lemma PassStartsConverging(cfg: Config, w: World, zone: ZoneRef, members: set<Uid>,
                             pages: seq<seq<Record>>, items: seq<Item>)
    requires Scope(cfg, w, zone, members)
    requires ValidBulk(Flatten(pages), w.cloud.records, w.zones[zone].id) && ListsAll(items, w.resources)
    ensures Converging(w, w.zones[zone].id, members, Progress(w, PendingAfterPass(zone, pages, items)))
  {
    var id, pending := w.zones[zone].id, PendingAfterPass(zone, pages, items);
    forall u | u in members
      ensures Single(w, id, u) && Stuck(w, id, u) ==> u !in pending
      ensures u !in pending ==> Silent(w, id, u) && (Stuck(w, id, u) || Matched(w, id, u))
    {
      var ch := w.resources[u];
      var found := Lookup(Index(Flatten(pages)), ch.spec.hostname);
      PassSelects(zone, pages, items, w.resources, u);
      LookupIsTruthful(Flatten(pages), w.cloud.records, id, ch.spec.hostname);
      assert RefersToZone(ch.spec, zone);
      if found.Some? {
        assert IsRecordOf(w.cloud.records, id, ch.spec.hostname, found.value.id);
      }
    }
  }

  // Whichever record of the hostname a listing shows last, the pass sends no event for the CR.
  ghost predicate SilentForAll(w: World, zone: string, u: Uid)
    requires u in w.resources
  {
    && Silent(w, zone, u)
    && forall id :: IsRecordOf(w.cloud.records, zone, w.resources[u].spec.hostname, id) ==>
         !Enqueues(Some(w.cloud.records[id]), w.resources[u])
  }

  /** A CR is passed over by every listing of the zone exactly when its hostname has a record
      and none of its records is worth an event. */
  lemma SilenceIsExact(w: World, zone: string, u: Uid)
    requires CloudWF(w.cloud) && u in w.resources
    ensures (forall listing :: ValidBulk(listing, w.cloud.records, zone) ==> !Selects(Index(listing), w.resources[u]))
            <==> SilentForAll(w, zone, u)
  {
    var ch := w.resources[u];
    var host := ch.spec.hostname;
    var rest := ListingExists(w.cloud.records, zone, w.cloud.records.Keys);
    if SilentForAll(w, zone, u) {
      forall listing | ValidBulk(listing, w.cloud.records, zone) ensures !Selects(Index(listing), ch) {
        LookupIsTruthful(listing, w.cloud.records, zone, host);
        var found := Lookup(Index(listing), host);
        assert found.Some? && IsRecordOf(w.cloud.records, zone, host, found.value.id);
      }
    } else if id :| IsRecordOf(w.cloud.records, zone, host, id) && Enqueues(Some(w.cloud.records[id]), ch) {
      IndexAppend(rest, w.cloud.records[id]);
      assert ValidBulk(rest + [w.cloud.records[id]], w.cloud.records, zone);
    } else {
      assert !Silent(w, zone, u);
      LookupIsTruthful(rest, w.cloud.records, zone, host);
      var found := Lookup(Index(rest), host);
      assert found.Some? ==> IsRecordOf(w.cloud.records, zone, host, found.value.id);
      assert ValidBulk(rest, w.cloud.records, zone) && Selects(Index(rest), ch);
    }
  }

  /** One drift pass and the drain of its queue, as far as the members go, bring every managed
      CR of a zone to its spec, whatever other CRs there are, duplicates that wait for a member
      included, and the drain ends: Cloudflare
      has a record that meets the spec of each member that was not stuck before. Members are
      never blocked, so DrainExists drains them. Where the hostname has one record,
      exactly the stuck members remain unmatched, and no later pass sends an event for the
      member; SilenceIsExact says when that holds with several. */
  lemma ZoneConverges(cfg: Config, w: World, zone: ZoneRef, members: set<Uid>,
                      pages: seq<seq<Record>>, items: seq<Item>, picks: seq<Pick>)
    requires Scope(cfg, w, zone, members)
    requires ValidBulk(Flatten(pages), w.cloud.records, w.zones[zone].id) && ListsAll(items, w.resources)
    requires var p := Progress(w, PendingAfterPass(zone, pages, items));
             CanDrain(cfg, p, picks) && Drain(cfg, p, picks).pending !! members
    ensures var p := Progress(w, PendingAfterPass(zone, pages, items));
            var w', id := Drain(cfg, p, picks).world, w.zones[zone].id;
            && Productive(cfg, p, picks) <= |p.pending| + |Unfinalized(w)|
            && Scope(cfg, w', zone, members) && w'.zones == w.zones
            && (forall u :: u in members && !Stuck(w, id, u) ==> Matched(w', id, u))
            && (forall u :: u in members && Single(w, id, u) ==>
                  && (Matched(w', id, u) <==> !Stuck(w, id, u))
                  && SilentForAll(w', id, u)
                  && (forall listing, list | ValidBulk(Flatten(listing), w'.cloud.records, id)
                                             && ListsAll(list, w'.resources) ::
                        u !in Events(zone, Index(Flatten(listing)), list)))
  {
    var p := Progress(w, PendingAfterPass(zone, pages, items));
    var id := w.zones[zone].id;
    PassStartsConverging(cfg, w, zone, members, pages, items);
    DrainKeepsConverging(cfg, w, zone, members, p, picks);
    DrainEnds(cfg, p, picks);
    var w' := Drain(cfg, p, picks).world;
    forall u | u in members && Single(w, id, u)
      ensures Matched(w', id, u) <==> !Stuck(w, id, u)
      ensures SilentForAll(w', id, u)
    {
      assert Single(w', id, u);
      if Stuck(w, id, u) {
        assert Stuck(w', id, u);
      }
    }
    forall listing, list, u | u in members && Single(w, id, u) && ValidBulk(Flatten(listing), w'.cloud.records, id)
                              && ListsAll(list, w'.resources)
      ensures u !in Events(zone, Index(Flatten(listing)), list)
    {
      PassSelects(zone, listing, list, w'.resources, u);
      SilenceIsExact(w', id, u);
    }
  }
}
