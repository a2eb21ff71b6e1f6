/** Crash idempotence: when the operator can hold two records of its own for one hostname, and
    what becomes of a create whose status write is lost. */
module Crashes {
  import opened Types
  import opened SSL
  import opened CloudflareAPI
  import opened Worker
  import opened Runs
  import opened Convergence

  // ---- One record per hostname ----

  // Where two records of one hostname are one too many: in one zone, or in all of Cloudflare.
  datatype Reach = InZone | Anywhere

  ghost predicate Clash(a: Record, b: Record, reach: Reach) {
    a.hostname == b.hostname && (reach.InZone? ==> a.zone == b.zone)
  }

  // No two records of one hostname exist that create calls of the operator made.
  ghost predicate SingleMade(cloud: Cloud, reach: Reach) {
    forall i, j | i in cloud.records && j in cloud.records && i in cloud.made && j in cloud.made ::
      Clash(cloud.records[i], cloud.records[j], reach) ==> i == j
  }

  // A record of the hostname that the operator made exists, in whatever zone.
  ghost predicate MadeSomewhere(cloud: Cloud, hostname: string) {
    exists id :: id in cloud.records && id in cloud.made && cloud.records[id].hostname == hostname
  }

  // Without a create call the made records stay as they are, or go.
  lemma OtherTurnsMakeNothing(cfg: Config, w: World, uid: Uid, o: Outcome)
    requires WorldInv(w) && uid in w.resources && ValidOutcome(cfg, w, uid, o) && !CallsNew(cfg, w, uid, o)
    ensures var after := Step(cfg, w, uid, o).cloud;
            && after.made == w.cloud.made
            && (forall id :: id in after.records ==>
                  && id in w.cloud.records
                  && after.records[id].zone == w.cloud.records[id].zone
                  && after.records[id].hostname == w.cloud.records[id].hostname)
  {
    OneWritingCall(cfg, w, uid, o);
    var call := WriteCall(cfg, w, uid, o);
    if CallsEdit(cfg, w, uid, o) {
      RetriedEdit(w.cloud, call.value, o.write, cfg.maxRetries);
    } else if CallsDelete(cfg, w, uid, o) {
      RetriedDelete(w.cloud, call.value, o.write, cfg.maxRetries);
    }
  }

  // The create call reaches Cloudflare at most once, and if it does it is the first of the
  // hostname there.
  ghost predicate AddsFirst(cfg: Config, w: World, uid: Uid, o: Outcome, reach: Reach)
    requires uid in w.resources
  {
    || Reached(o.write, cfg.maxRetries) == 0
    || (&& Reached(o.write, cfg.maxRetries) == 1
        && (reach.Anywhere? ==> !MadeSomewhere(w.cloud, w.resources[uid].spec.hostname)))
  }

  /** A creating reconcile keeps the records of a hostname unique in each zone exactly when at
      most one of its attempts reaches Cloudflare: a create whose response is lost and that is
      then retried makes a second record. It keeps them unique in all of Cloudflare exactly
      when there was none in another zone besides: the search looks into its own zone only. */
  lemma CreateKeepsSingleMade(cfg: Config, w: World, uid: Uid, o: Outcome, reach: Reach)
    requires WorldInv(w) && uid in w.resources && ValidOutcome(cfg, w, uid, o)
    requires SingleMade(w.cloud, reach) && CallsNew(cfg, w, uid, o)
    ensures SingleMade(Step(cfg, w, uid, o).cloud, reach) <==> AddsFirst(cfg, w, uid, o, reach)
  {
    var call := WriteCall(cfg, w, uid, o).value;
    OneWritingCall(cfg, w, uid, o);
    SearchReplyIsTruthful(cfg, w, uid, o);
    RetriedNew(w.cloud, call, o.write, cfg.maxRetries);
    AddedKeepsSingleMade(w.cloud, Step(cfg, w, uid, o).cloud, call, reach);
  }

  lemma AddedKeepsSingleMade(before: Cloud, after: Cloud, call: Call, reach: Reach)
    requires CloudWF(before) && call.New? && Adds(before, after, call) && SingleMade(before, reach)
    requires Search(before.records, call.zone, call.hostname, None)
    ensures SingleMade(after, reach) <==>
            || after.next == before.next
            || (after.next == before.next + 1 && (reach.Anywhere? ==> !MadeSomewhere(before, call.hostname)))
  {
    var i := before.next;
    if after.next > before.next + 1 {
      assert MadeBy(call, after.records[i]) && MadeBy(call, after.records[i + 1]);
      assert Clash(after.records[i], after.records[i + 1], reach);
    } else if after.next == before.next + 1 && reach.Anywhere? && MadeSomewhere(before, call.hostname) {
      var id :| id in before.records && id in before.made && before.records[id].hostname == call.hostname;
      assert MadeBy(call, after.records[i]) && Clash(after.records[i], after.records[id], reach);
    } else {
      forall j, k | j in after.records && k in after.records && j in after.made && k in after.made
                    && Clash(after.records[j], after.records[k], reach)
        ensures j == k
      {
        if j in before.records && k in before.records {
          assert j in before.made && k in before.made;
        } else {
          assert MadeBy(call, after.records[i]);
        }
      }
    }
  }

  /** With no retries, or with no lost response, at most one attempt reaches Cloudflare. */
  lemma {:induction false} AtMostOneReaches(attempts: seq<Attempt>, maxRetries: nat)
    requires maxRetries == 0 || forall a :: a in attempts ==> !a.fate.ResponseLost?
    ensures Reached(attempts, maxRetries) <= 1
    decreases maxRetries
  {
    if maxRetries > 0 {
      assert attempts != [] ==> attempts[0] in attempts;
      AtMostOneReaches(Rest(attempts), maxRetries - 1);
    }
  }

  // If the reconcile creates under this outcome, it leaves no two records of the operator.
  ghost predicate StaysSingle(cfg: Config, w: World, uid: Uid, o: Outcome, reach: Reach)
    requires uid in w.resources
  {
    ValidOutcome(cfg, w, uid, o) && CallsNew(cfg, w, uid, o) ==> SingleMade(Step(cfg, w, uid, o).cloud, reach)
  }

  /** What an operator can do about it: under every outcome a create leaves no second record of
      the hostname in its zone if and only if there are no retries, and none in all of
      Cloudflare if and only if besides there is none yet. The default is one retry. */
  lemma RetriesAllowDuplicates(cfg: Config, w: World, uid: Uid, o: Outcome, reach: Reach)
    requires WorldInv(w) && uid in w.resources && ValidOutcome(cfg, w, uid, o)
    requires SingleMade(w.cloud, reach) && CallsNew(cfg, w, uid, o)
    ensures (forall o' :: StaysSingle(cfg, w, uid, o', reach)) <==>
            cfg.maxRetries == 0 && (reach.Anywhere? ==> !MadeSomewhere(w.cloud, w.resources[uid].spec.hostname))
  {
    var ssl := CFSSL("", SSLConfig("", "", "", ""), "", "", "", "", false, [], ZERO_TIME, ZERO_TIME, [], []);
    var fill := Fill("", "", ssl);
    if reach.Anywhere? && MadeSomewhere(w.cloud, w.resources[uid].spec.hostname) {
      var once := o.(write := [Attempt(Processed(fill), false)]);
      assert Reached(once.write, cfg.maxRetries) == 1;
      CreateKeepsSingleMade(cfg, w, uid, once, reach);
      assert !StaysSingle(cfg, w, uid, once, reach);
    } else if cfg.maxRetries == 0 {
      forall o' ensures StaysSingle(cfg, w, uid, o', reach) {
        if ValidOutcome(cfg, w, uid, o') && CallsNew(cfg, w, uid, o') {
          AtMostOneReaches(o'.write, cfg.maxRetries);
          CreateKeepsSingleMade(cfg, w, uid, o', reach);
        }
      }
    } else {
      var lost := o.(write := [Attempt(ResponseLost(fill), false), Attempt(Processed(fill), false)]);
      assert Rest(lost.write)[0] == Attempt(Processed(fill), false);
      assert Reached(lost.write, cfg.maxRetries) == 2;
      CreateKeepsSingleMade(cfg, w, uid, lost, reach);
      assert !StaysSingle(cfg, w, uid, lost, reach);
    }
  }

  // Every create call of the run adds the first record of its hostname, or none.
  ghost predicate CreatesAddFirst(s: State, events: seq<Event>, reach: Reach)
    requires Feasible(s, events)
    decreases events
  {
    events == []
    || (&& CreateAddsFirst(s, events[0], reach)
        && CreatesAddFirst(Occur(s, events[0]), events[1..], reach))
  }

  ghost predicate CreateAddsFirst(s: State, e: Event, reach: Reach)
    requires Enabled(s, e)
  {
    e.Work? && CallsNew(e.cfg, s.world, e.uid, e.o) ==> AddsFirst(e.cfg, s.world, e.uid, e.o, reach)
  }

  // In no state of the run there are two records of the operator for one hostname.
  ghost predicate AlwaysSingleMade(s: State, events: seq<Event>, reach: Reach)
    requires Feasible(s, events)
    decreases events
  {
    && SingleMade(s.world.cloud, reach)
    && (events == [] || AlwaysSingleMade(Occur(s, events[0]), events[1..], reach))
  }

  // Made records that stay as they are, or go, stay unique.
  lemma FewerKeepSingleMade(before: Cloud, after: Cloud, reach: Reach)
    requires SingleMade(before, reach) && after.made == before.made
    requires forall id :: id in after.records && id in after.made ==>
               && id in before.records
               && after.records[id].zone == before.records[id].zone
               && after.records[id].hostname == before.records[id].hostname
    ensures SingleMade(after, reach)
  {
    forall i, j | i in after.records && j in after.records && i in after.made && j in after.made
                  && Clash(after.records[i], after.records[j], reach)
      ensures i == j
    {
      assert Clash(before.records[i], before.records[j], reach);
    }
  }

  lemma EventKeepsSingleMade(s: State, e: Event, reach: Reach)
    requires Inv(s) && Enabled(s, e) && SingleMade(s.world.cloud, reach)
    ensures SingleMade(Occur(s, e).world.cloud, reach) <==> CreateAddsFirst(s, e, reach)
  {
    if e.Work? && CallsNew(e.cfg, s.world, e.uid, e.o) {
      CreateKeepsSingleMade(e.cfg, s.world, e.uid, e.o, reach);
    } else {
      if e.Work? {
        OtherTurnsMakeNothing(e.cfg, s.world, e.uid, e.o);
      } else {
        assert s.world.cloud.next !in s.world.cloud.made;
      }
      FewerKeepSingleMade(s.world.cloud, Occur(s, e).world.cloud, reach);
    }
  }

  /** Crashes at any point included, a run never holds two records made by the operator for
      one hostname of a zone if and only if each of its create calls reaches Cloudflare at
      most once. It never holds two for one hostname at all if and only if besides no create
      call reaches Cloudflare while a made record of the hostname exists in any zone. */
  lemma {:induction false} RunsKeepSingleMade(s: State, events: seq<Event>, reach: Reach)
    requires Inv(s) && Feasible(s, events) && SingleMade(s.world.cloud, reach)
    ensures AlwaysSingleMade(s, events, reach) <==> CreatesAddFirst(s, events, reach)
    decreases events
  {
    if events != [] {
      var next := Occur(s, events[0]);
      EventKeepsInv(s, events[0]);
      EventKeepsSingleMade(s, events[0], reach);
      if SingleMade(next.world.cloud, reach) {
        RunsKeepSingleMade(next, events[1..], reach);
      } else {
        assert !AlwaysSingleMade(next, events[1..], reach);
      }
    }
  }

  // A create that is carried out at once reaches Cloudflare once.
  lemma CarriedOutReachesOnce(cfg: Config, w: World, uid: Uid, o: Outcome)
    requires uid in w.resources && FailureFree(cfg, w, uid, o)
    ensures Reached(o.write, cfg.maxRetries) == 1
  {
  }

  // The CR would create in a zone without the hostname.
  ghost predicate FreeToCreate(cfg: Config, w: World, uid: Uid)
    requires uid in w.resources
  {
    && Proceeds(cfg, w, uid) && !cfg.dryRun && !Management(cfg, w.resources[uid].spec).Observe?
    && Search(w.cloud.records, ZoneOf(cfg, w, uid).value.id, w.resources[uid].spec.hostname, None)
  }

  // Without a failure it does create, once; a made record elsewhere makes that the second.
  lemma FreeCreates(cfg: Config, w: World, uid: Uid, o: Outcome)
    requires WorldInv(w) && uid in w.resources && FreeToCreate(cfg, w, uid) && FailureFree(cfg, w, uid, o)
    requires MadeSomewhere(w.cloud, w.resources[uid].spec.hostname)
    ensures CallsNew(cfg, w, uid, o) && Reached(o.write, cfg.maxRetries) == 1
    ensures uid in Step(cfg, w, uid, o).resources && Step(cfg, w, uid, o).resources[uid].status.id == w.cloud.next
    ensures !SingleMade(Step(cfg, w, uid, o).cloud, Anywhere)
  {
    SearchSucceeds(cfg, w, uid, o);
    SearchReplyIsTruthful(cfg, w, uid, o);
    CarriedOutReachesOnce(cfg, w, uid, o);
    CreatedReports(cfg, w, uid, o);
    if SingleMade(w.cloud, Anywhere) {
      CreateKeepsSingleMade(cfg, w, uid, o, Anywhere);
    } else {
      MadeStayMade(cfg, w, uid, o);
    }
  }

  // Creating takes no record away.
  lemma MadeStayMade(cfg: Config, w: World, uid: Uid, o: Outcome)
    requires WorldInv(w) && uid in w.resources && CallsNew(cfg, w, uid, o) && !SingleMade(w.cloud, Anywhere)
    ensures !SingleMade(Step(cfg, w, uid, o).cloud, Anywhere)
  {
    var call, after := WriteCall(cfg, w, uid, o).value, Step(cfg, w, uid, o).cloud;
    OneWritingCall(cfg, w, uid, o);
    RetriedNew(w.cloud, call, o.write, cfg.maxRetries);
    var i, j :| i in w.cloud.records && j in w.cloud.records && i in w.cloud.made && j in w.cloud.made
                && Clash(w.cloud.records[i], w.cloud.records[j], Anywhere) && i != j;
    assert i in after.made && j in after.made && Clash(after.records[i], after.records[j], Anywhere);
  }

  // What a lost create leaves: the same CRs, a made record, and nothing new in other zones.
  lemma LostCreateLeaves(cfg: Config, w: World, u: Uid, o: Outcome, other: string)
    requires WorldInv(w) && u in w.resources && CallsNew(cfg, w, u, o) && !o.persisted
    requires Reached(o.write, cfg.maxRetries) == 1
    requires other != ZoneOf(cfg, w, u).value.id
    ensures var w', host := Step(cfg, w, u, o), w.resources[u].spec.hostname;
            && w'.resources == w.resources && w'.zones == w.zones
            && MadeSomewhere(w'.cloud, host) && w'.cloud.next == w.cloud.next + 1
            && (Search(w.cloud.records, other, host, None) ==> Search(w'.cloud.records, other, host, None))
  {
    var call, id := WriteCall(cfg, w, u, o).value, w.cloud.next;
    OneWritingCall(cfg, w, u, o);
    RetriedNew(w.cloud, call, o.write, cfg.maxRetries);
    assert MadeBy(call, Step(cfg, w, u, o).cloud.records[id]);
  }

  /** Two zones get two records of one hostname although every create call reaches Cloudflare
      once: the status write of one CR's create is lost, and a duplicate that refers to a Zone
      of another Cloudflare zone searches only there, creates, and holds the second id. */
  lemma LostCreateIsRepeatedElsewhere(s: State, cfg: Config, u: Uid, crashed: Outcome, cfg': Config, v: Uid, o: Outcome)
    requires Inv(s) && Enabled(s, Work(cfg, u, crashed)) && CallsNew(cfg, s.world, u, crashed)
    requires !crashed.persisted && Reached(crashed.write, cfg.maxRetries) == 1
    requires v in s.world.resources && s.world.resources[v].spec.hostname == s.world.resources[u].spec.hostname
    requires FreeToCreate(cfg', s.world, v)
    requires ZoneOf(cfg', s.world, v).value.id != ZoneOf(cfg, s.world, u).value.id
    requires FailureFree(cfg', Step(cfg, s.world, u, crashed), v, o)
    ensures var events := [Work(cfg, u, crashed), Work(cfg', v, o)];
            && Feasible(s, events) && CreatesAddFirst(s, events, InZone)
            && var w' := Run(s, events).world;
            && !SingleMade(w'.cloud, Anywhere)
            && v in w'.resources && w'.resources[v].status.id == s.world.cloud.next + 1
  {
    var first, second := Work(cfg, u, crashed), Work(cfg', v, o);
    var s1 := Occur(s, first);
    EventKeepsInv(s, first);
    LostCreateLeaves(cfg, s.world, u, crashed, ZoneOf(cfg', s.world, v).value.id);
    FreeCreates(cfg', s1.world, v, o);
    TwoEvents(s, first, second);
    assert CreatesAddFirst(s1, [second], InZone) by {
      assert [second][1..] == [];
    }
    assert [first, second][1..] == [second];
  }

  /** No failure is needed: a user moves a created CR to a Zone of another Cloudflare zone, and
      its next reconcile creates there, next to the record left in the old zone. */
  lemma MovedCreatesAgain(s: State, cfg: Config, u: Uid, to: ZoneRef, o: Outcome)
    requires Inv(s) && u in s.world.resources
    requires var id := s.world.resources[u].status.id; id in s.world.cloud.records && id in s.world.cloud.made
    requires var moved := EditSpec(s.world.resources[u], s.world.resources[u].spec.(zoneRef := to));
             var w' := s.world.(resources := s.world.resources[u := moved]);
             FreeToCreate(cfg, w', u) && FailureFree(cfg, w', u, o)
    ensures var events := [UserEdit(u, s.world.resources[u].spec.(zoneRef := to)), Work(cfg, u, o)];
            && Feasible(s, events) && CreatesAddFirst(s, events, InZone)
            && !SingleMade(Run(s, events).world.cloud, Anywhere)
  {
    var edit, work := UserEdit(u, s.world.resources[u].spec.(zoneRef := to)), Work(cfg, u, o);
    var s1 := Occur(s, edit);
    assert StatusOK(s.world.cloud, s.world.resources[u]);
    EventKeepsInv(s, edit);
    assert MadeSomewhere(s1.world.cloud, s1.world.resources[u].spec.hostname);
    FreeCreates(cfg, s1.world, u, o);
    TwoEvents(s, edit, work);
    assert CreatesAddFirst(s1, [work], InZone) by {
      assert [work][1..] == [];
    }
    assert [edit, work][1..] == [work];
  }

  // ---- A lost create ----

  // This is the only record of the hostname in the zone.
  ghost predicate Sole(records: map<Id, Record>, zone: string, hostname: string, id: Id) {
    forall r :: IsRecordOf(records, zone, hostname, r) <==> r == id
  }

  /** A create of which one attempt reaches Cloudflare leaves one record, which meets the spec,
      whether or not the status write is stored. */
  lemma CreateLeavesSole(cfg: Config, w: World, uid: Uid, o: Outcome)
    requires WorldInv(w) && uid in w.resources && ValidOutcome(cfg, w, uid, o) && CallsNew(cfg, w, uid, o)
    requires Reached(o.write, cfg.maxRetries) == 1
    ensures var after, spec, zone := Step(cfg, w, uid, o).cloud, w.resources[uid].spec, ZoneOf(cfg, w, uid).value.id;
            && after.records.Keys == w.cloud.records.Keys + {w.cloud.next}
            && Sole(after.records, zone, spec.hostname, w.cloud.next)
            && !Drifted(spec, after.records[w.cloud.next])
  {
    var spec, zone := w.resources[uid].spec, ZoneOf(cfg, w, uid).value.id;
    OneWritingCall(cfg, w, uid, o);
    SearchReplyIsTruthful(cfg, w, uid, o);
    RetriedNew(w.cloud, NewCall(cfg, zone, spec), o.write, cfg.maxRetries);
    AddedIsSole(w.cloud, Step(cfg, w, uid, o).cloud, cfg, zone, spec);
  }

  lemma AddedIsSole(before: Cloud, after: Cloud, cfg: Config, zone: string, spec: Spec)
    requires CloudWF(before) && Adds(before, after, NewCall(cfg, zone, spec)) && after.next == before.next + 1
    requires Search(before.records, zone, spec.hostname, None)
    ensures after.records.Keys == before.records.Keys + {before.next}
    ensures Sole(after.records, zone, spec.hostname, before.next) && !Drifted(spec, after.records[before.next])
  {
    MadeMeetsSpec(cfg, zone, spec, after.records[before.next]);
  }

  // The event is not a deletion of this record, nor somebody else's creation of another of the
  // hostname in the zone.
  ghost predicate Spares(s: State, e: Event, zone: string, hostname: string, id: Id)
    requires Enabled(s, e)
  {
    match e
    case Work(cfg, uid, o) => !DeletesRecord(cfg, s.world, uid, o, id)
    case ExternalCreate(record) => record.zone != zone || record.hostname != hostname
    case ExternalDelete(other) => other != id
    case _ => true
  }

  // The reconcile calls delete on this record.
  ghost predicate DeletesRecord(cfg: Config, w: World, uid: Uid, o: Outcome, id: Id)
    requires uid in w.resources
  {
    CallsDelete(cfg, w, uid, o) && w.resources[uid].status.id == id
  }

  ghost predicate AllSpare(s: State, events: seq<Event>, zone: string, hostname: string, id: Id)
    requires Feasible(s, events)
    decreases events
  {
    events == []
    || (&& Spares(s, events[0], zone, hostname, id)
        && AllSpare(Occur(s, events[0]), events[1..], zone, hostname, id))
  }

  // No reconcile, failed or not, by whatever CR and under whatever configuration, adds to or
  // takes from the one record of a hostname in a zone, unless it calls delete on it.
  lemma WorkKeepsSole(cfg: Config, w: World, uid: Uid, o: Outcome, zone: string, hostname: string, id: Id)
    requires WorldInv(w) && uid in w.resources && ValidOutcome(cfg, w, uid, o)
    requires !DeletesRecord(cfg, w, uid, o, id)
    requires Sole(w.cloud.records, zone, hostname, id)
    ensures Sole(Step(cfg, w, uid, o).cloud.records, zone, hostname, id)
  {
    var before, after := w.cloud.records, Step(cfg, w, uid, o).cloud.records;
    assert IsRecordOf(before, zone, hostname, id);
    if w.resources[uid].spec.hostname != hostname {
      StepIsLocal(cfg, w, uid, o, hostname);
      forall r ensures IsRecordOf(after, zone, hostname, r) <==> IsRecordOf(before, zone, hostname, r) {
      }
    } else {
      OneWritingCall(cfg, w, uid, o);
      if CallsNew(cfg, w, uid, o) {
        OtherZoneCreates(cfg, w, uid, o, zone, id);
      } else {
        OtherTurnsMakeNothing(cfg, w, uid, o);
        if CallsEdit(cfg, w, uid, o) {
          RetriedEdit(w.cloud, WriteCall(cfg, w, uid, o).value, o.write, cfg.maxRetries);
        } else if CallsDelete(cfg, w, uid, o) {
          RetriedDelete(w.cloud, WriteCall(cfg, w, uid, o).value, o.write, cfg.maxRetries);
        }
        forall r ensures IsRecordOf(after, zone, hostname, r) <==> IsRecordOf(before, zone, hostname, r) {
        }
      }
    }
  }

  // Where there is a record, a create is of another zone.
  lemma OtherZoneCreates(cfg: Config, w: World, uid: Uid, o: Outcome, zone: string, id: Id)
    requires WorldInv(w) && uid in w.resources && ValidOutcome(cfg, w, uid, o) && CallsNew(cfg, w, uid, o)
    requires Sole(w.cloud.records, zone, w.resources[uid].spec.hostname, id)
    ensures Sole(Step(cfg, w, uid, o).cloud.records, zone, w.resources[uid].spec.hostname, id)
  {
    var call, host := WriteCall(cfg, w, uid, o).value, w.resources[uid].spec.hostname;
    var before, after := w.cloud, Step(cfg, w, uid, o).cloud;
    assert IsRecordOf(before.records, zone, host, id);
    OneWritingCall(cfg, w, uid, o);
    SearchReplyIsTruthful(cfg, w, uid, o);
    RetriedNew(w.cloud, call, o.write, cfg.maxRetries);
    assert call.zone != zone;
    forall r ensures IsRecordOf(after.records, zone, host, r) <==> IsRecordOf(before.records, zone, host, r) {
      if r in after.records && r !in before.records {
        assert MadeBy(call, after.records[r]);
      }
    }
  }

  lemma EventKeepsSole(s: State, e: Event, zone: string, hostname: string, id: Id)
    requires Inv(s) && Enabled(s, e) && Spares(s, e, zone, hostname, id)
    requires Sole(s.world.cloud.records, zone, hostname, id)
    ensures Sole(Occur(s, e).world.cloud.records, zone, hostname, id)
  {
    if e.Work? {
      WorkKeepsSole(e.cfg, s.world, e.uid, e.o, zone, hostname, id);
    } else {
      var before, after := s.world.cloud.records, Occur(s, e).world.cloud.records;
      assert e.ExternalCreate? ==> s.world.cloud.next !in before;
      forall r ensures IsRecordOf(after, zone, hostname, r) <==> IsRecordOf(before, zone, hostname, r) {
      }
    }
  }

  lemma {:induction false} RunKeepsSole(s: State, events: seq<Event>, zone: string, hostname: string, id: Id)
    requires Inv(s) && Feasible(s, events) && AllSpare(s, events, zone, hostname, id)
    requires Sole(s.world.cloud.records, zone, hostname, id)
    ensures Inv(Run(s, events)) && Sole(Run(s, events).world.cloud.records, zone, hostname, id)
    decreases events
  {
    if events != [] {
      EventKeepsInv(s, events[0]);
      EventKeepsSole(s, events[0], zone, hostname, id);
      RunKeepsSole(Occur(s, events[0]), events[1..], zone, hostname, id);
    }
  }

  // The first reconcile that gets through to a sole record takes up its id.
  lemma SoleIsAdopted(cfg: Config, w: World, uid: Uid, o: Outcome, id: Id)
    requires WorldInv(w) && uid in w.resources && ValidOutcome(cfg, w, uid, o) && o.persisted
    requires Proceeds(cfg, w, uid) && o.kubeReads.AllRead? && SearchReply(cfg, w, uid, o).Success?
    requires Sole(w.cloud.records, ZoneOf(cfg, w, uid).value.id, w.resources[uid].spec.hostname, id)
    ensures var w' := Step(cfg, w, uid, o);
            && w'.cloud.records.Keys == w.cloud.records.Keys
            && uid in w'.resources && w'.resources[uid].status.id == id
  {
    var ch, zone := w.resources[uid], ZoneOf(cfg, w, uid).value;
    SearchReplyIsTruthful(cfg, w, uid, o);
    FindChangesNothing(w.cloud, o.pages, ch.spec.hostname, o.lookup, cfg.maxRetries);
    assert IsRecordOf(w.cloud.records, zone.id, ch.spec.hostname, id);
    var found := SearchReply(cfg, w, uid, o).record;
    assert found.Some? && IsRecordOf(w.cloud.records, zone.id, ch.spec.hostname, found.value.id);
    assert Reconcile(cfg, w, uid, o) == AdoptAndCorrect(cfg, zone, w.cloud, ch, found.value, o);
    AdoptTakesId(cfg, zone, w.cloud, ch, found.value, o);
  }

  /** A create whose status write may be lost is never repeated: after any further events that
      spare the record, crashes, failures, restarts under other configurations and reconciles
      of other CRs among them, the next reconcile of a CR of the hostname that gets through
      to the zone adds no record, and records the id of the one that was created. */
  lemma CrashedCreateIsAdopted(s: State, cfg: Config, u: Uid, crashed: Outcome, events: seq<Event>,
                               cfg': Config, v: Uid, next: Outcome)
    requires Inv(s) && Enabled(s, Work(cfg, u, crashed)) && CallsNew(cfg, s.world, u, crashed)
    requires Reached(crashed.write, cfg.maxRetries) == 1
    requires var s1, spec := Occur(s, Work(cfg, u, crashed)), s.world.resources[u].spec;
             && Feasible(s1, events)
             && AllSpare(s1, events, ZoneOf(cfg, s.world, u).value.id, spec.hostname, s.world.cloud.next)
             && var w := Run(s1, events).world;
             && Enabled(Run(s1, events), Work(cfg', v, next)) && next.persisted
             && w.resources[v].spec.hostname == spec.hostname
             && Proceeds(cfg', w, v) && ZoneOf(cfg', w, v).value.id == ZoneOf(cfg, s.world, u).value.id
             && next.kubeReads.AllRead? && SearchReply(cfg', w, v, next).Success?
    ensures var w := Run(Occur(s, Work(cfg, u, crashed)), events).world;
            var w' := Step(cfg', w, v, next);
            && w'.cloud.records.Keys == w.cloud.records.Keys
            && v in w'.resources && w'.resources[v].status.id == s.world.cloud.next
  {
    var s1, spec, zone := Occur(s, Work(cfg, u, crashed)), s.world.resources[u].spec, ZoneOf(cfg, s.world, u).value.id;
    CreateLeavesSole(cfg, s.world, u, crashed);
    EventKeepsInv(s, Work(cfg, u, crashed));
    RunKeepsSole(s1, events, zone, spec.hostname, s.world.cloud.next);
    SoleIsAdopted(cfg', Run(s1, events).world, v, next, s.world.cloud.next);
  }

  // A terminating CR without an id is released without a call.
  lemma ReleasedWithoutId(cfg: Config, w: World, u: Uid, o: Outcome)
    requires u in w.resources && !o.kubeReads.ObjectUnread? && o.persisted
    requires var ch := w.resources[u]; ch.deleting && ch.finalizer && !ch.otherFinalizers && ch.status.id == 0
    ensures Step(cfg, w, u, o) == w.(resources := w.resources - {u})
  {
  }

  /** How the operator leaves its own record behind: the status write of a first create is
      lost, and the user deletes the CR before it is reconciled again. Without an id the
      finalizer is released without a call, under every delete policy and whatever fails
      after the read of the CR. */
  lemma LostCreateIsLeftBehind(s: State, cfg: Config, u: Uid, crashed: Outcome, cfg': Config, o: Outcome)
    requires Inv(s) && Enabled(s, Work(cfg, u, crashed)) && CallsNew(cfg, s.world, u, crashed)
    requires !crashed.persisted && Reached(crashed.write, cfg.maxRetries) > 0
    requires s.world.resources[u].status.id == 0 && !s.world.resources[u].otherFinalizers
    requires !o.kubeReads.ObjectUnread? && o.persisted
    requires ValidOutcome(cfg', Step(cfg, s.world, u, crashed), u, o)
    ensures var events, id := [Work(cfg, u, crashed), UserDelete(u), Work(cfg', u, o)], s.world.cloud.next;
            && Feasible(s, events)
            && var w' := Run(s, events).world;
            && u !in w'.resources
            && id in w'.cloud.records && id in w'.cloud.made
            && w'.cloud.records[id].hostname == s.world.resources[u].spec.hostname
  {
    var work, delete, release := Work(cfg, u, crashed), UserDelete(u), Work(cfg', u, o);
    var spec, zone := s.world.resources[u].spec, ZoneOf(cfg, s.world, u).value.id;
    var s1 := Occur(s, work);
    var s2 := Occur(s1, delete);
    OneWritingCall(cfg, s.world, u, crashed);
    RetriedNew(s.world.cloud, NewCall(cfg, zone, spec), crashed.write, cfg.maxRetries);
    assert MadeBy(NewCall(cfg, zone, spec), s1.world.cloud.records[s.world.cloud.next]);
    assert s1.world.resources == s.world.resources && s2.world.cloud == s1.world.cloud;
    assert s2.world.resources[u].deleting && s2.world.resources[u].spec == spec;
    ReleasedWithoutId(cfg', s2.world, u, o);
    ThreeEvents(s, work, delete, release);
  }
}
