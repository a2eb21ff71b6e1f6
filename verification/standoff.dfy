/** A finer view of the worker, in which the conflict check and the work it admits are
    separate actions that other reconciles may come between. Two CRs of one hostname can
    then both take up an id; from there on they block each other and nothing is written. */
module StandOff {
  import opened Types
  import opened Listing
  import opened CloudflareAPI
  import opened Worker
  import opened Convergence

  // cleared: the CRs that have passed the conflict check and are about to act.
  datatype Split = Split(world: World, cleared: set<Uid>)

  datatype Action = Check(cfg: Config, uid: Uid, o: Outcome) | Act(cfg: Config, uid: Uid, o: Outcome)

  // Only reconciles of CRs that are not terminating, each CR by one worker at a time.
  // Drift passes change nothing but the queue, so they need no action of their own.
  ghost predicate CanAct(s: Split, a: Action) {
    && a.uid in s.world.resources && !s.world.resources[a.uid].deleting
    && ValidOutcome(a.cfg, s.world, a.uid, a.o)
    && (a.Check? ==> a.uid !in s.cleared)
    && (a.Act? ==> a.uid in s.cleared && ZoneOf(a.cfg, s.world, a.uid).Some?)
  }

  function ActTurn(cfg: Config, w: World, uid: Uid, o: Outcome): Turn
    requires uid in w.resources && ZoneOf(cfg, w, uid).Some?
  {
    ReconcileCloudflareState(cfg, ZoneOf(cfg, w, uid).value, w.cloud, w.resources[uid], o)
  }

  // Check does everything up to the conflict check, and stops when it passes it.
  function Do(s: Split, a: Action): Split
    requires a.uid in s.world.resources && (a.Act? ==> ZoneOf(a.cfg, s.world, a.uid).Some?)
  {
    var w := s.world;
    match a
    case Check(cfg, uid, o) =>
      if Proceeds(cfg, w, uid) && o.kubeReads.AllRead? then s.(cleared := s.cleared + {uid})
      else s.(world := Step(cfg, w, uid, o))
    case Act(cfg, uid, o) =>
      var turn := ActTurn(cfg, w, uid, o);
      Split(World(if o.persisted then Store(w.resources, uid, turn.write) else w.resources, w.zones, turn.cloud),
            s.cleared - {uid})
  }

  ghost predicate CanDo(s: Split, actions: seq<Action>)
    decreases actions
  {
    actions == [] || (CanAct(s, actions[0]) && CanDo(Do(s, actions[0]), actions[1..]))
  }

  ghost function DoAll(s: Split, actions: seq<Action>): Split
    requires CanDo(s, actions)
    decreases actions
  {
    if actions == [] then s else DoAll(Do(s, actions[0]), actions[1..])
  }

  // Two CRs of the hostname hold an id.
  ghost predicate HeldTwice(s: Split, hostname: string, u: Uid, v: Uid) {
    var r := s.world.resources;
    && CloudWF(s.world.cloud)
    && u != v && u in r && v in r
    && r[u].spec.hostname == hostname && r[v].spec.hostname == hostname
    && r[u].status.id != 0 && r[v].status.id != 0
  }

  // The CRs of the hostname that have passed the check and are still to act.
  ghost function InFlight(s: Split, hostname: string): set<Uid> {
    set x | x in s.cleared && x in s.world.resources && s.world.resources[x].spec.hostname == hostname
  }

  lemma AdoptIsLocal(cfg: Config, zone: ZoneInfo, cloud: Cloud, ch: Resource, existing: Record, o: Outcome,
                     hostname: string)
    requires CloudWF(cloud) && hostname != ch.spec.hostname
    requires Search(cloud.records, zone.id, ch.spec.hostname, Some(existing))
    ensures SameRecords(cloud.records, AdoptAndCorrect(cfg, zone, cloud, ch, existing, o).cloud.records, hostname)
  {
    EditsAreLocal(cloud, EditCall(zone.id, ch.spec, existing), o.write, cfg.maxRetries, hostname);
  }

  lemma CreateIsLocal(cfg: Config, zone: ZoneInfo, cloud: Cloud, ch: Resource, o: Outcome, hostname: string)
    requires CloudWF(cloud) && hostname != ch.spec.hostname
    ensures SameRecords(cloud.records, HandleCreate(cfg, zone, cloud, ch, o).cloud.records, hostname)
  {
    CreatesAreLocal(cloud, NewCall(cfg, zone.id, ch.spec), o.write, cfg.maxRetries, hostname);
  }

  // The work on one hostname leaves the records of others alone.
  lemma WorkIsLocal(cfg: Config, w: World, uid: Uid, o: Outcome, hostname: string)
    requires CloudWF(w.cloud) && uid in w.resources && ZoneOf(cfg, w, uid).Some? && ValidOutcome(cfg, w, uid, o)
    requires hostname != w.resources[uid].spec.hostname
    ensures SameRecords(w.cloud.records, ActTurn(cfg, w, uid, o).cloud.records, hostname)
  {
    var ch, zone, reply := w.resources[uid], ZoneOf(cfg, w, uid).value, SearchReply(cfg, w, uid, o);
    SearchReplyIsTruthful(cfg, w, uid, o);
    if reply.Success? && reply.record.Some? {
      AdoptIsLocal(cfg, zone, w.cloud, ch, reply.record.value, o, hostname);
    } else {
      CreateIsLocal(cfg, zone, w.cloud, ch, o, hostname);
    }
  }

  // A check that is not passed changes no id and nothing in Cloudflare.
  lemma CheckChangesNoId(cfg: Config, w: World, uid: Uid, o: Outcome)
    requires uid in w.resources && !w.resources[uid].deleting
    requires !(Proceeds(cfg, w, uid) && o.kubeReads.AllRead?)
    ensures var w' := Step(cfg, w, uid, o);
            && w'.cloud == w.cloud && uid in w'.resources
            && w'.resources[uid].status.id == w.resources[uid].status.id
            && w'.resources[uid].spec == w.resources[uid].spec && !w'.resources[uid].deleting
  {
  }

  // Acting does not take an id away.
  lemma ActKeepsId(cfg: Config, w: World, uid: Uid, o: Outcome)
    requires CloudWF(w.cloud) && uid in w.resources && ZoneOf(cfg, w, uid).Some? && ValidOutcome(cfg, w, uid, o)
    ensures var turn := ActTurn(cfg, w, uid, o);
            && CloudWF(turn.cloud) && turn.write.PutStatus?
            && (w.resources[uid].status.id != 0 ==> turn.write.status.id != 0)
  {
    var ch, zone, reply := w.resources[uid], ZoneOf(cfg, w, uid).value, SearchReply(cfg, w, uid, o);
    SearchReplyIsTruthful(cfg, w, uid, o);
    if reply.Success? && reply.record.Some? {
      assert reply.record.value.id in w.cloud.issued;
      AdoptTakesId(cfg, zone, w.cloud, ch, reply.record.value, o);
    } else {
      CreateKeepsId(cfg, zone, w.cloud, ch, o);
    }
  }

  // An action concerns one CR, and keeps specs.
  lemma ActionIsLocal(s: Split, a: Action)
    requires CloudWF(s.world.cloud) && CanAct(s, a)
    ensures var w, w' := s.world, Do(s, a).world;
            && CloudWF(w'.cloud)
            && w'.resources.Keys == w.resources.Keys
            && (forall y :: y in w.resources ==> w'.resources[y].spec == w.resources[y].spec)
            && (forall y :: y in w.resources && y != a.uid ==> w'.resources[y] == w.resources[y])
            && (w.resources[a.uid].status.id != 0 ==> w'.resources[a.uid].status.id != 0)
  {
    if a.Act? {
      ActKeepsId(a.cfg, s.world, a.uid, a.o);
    } else if !(Proceeds(a.cfg, s.world, a.uid) && a.o.kubeReads.AllRead?) {
      CheckChangesNoId(a.cfg, s.world, a.uid, a.o);
      forall y ensures y in Do(s, a).world.resources <==> y in s.world.resources {
      }
    }
  }

  // While two CRs hold an id no further CR passes the check; only those in flight can act.
  lemma ActionKeepsStandOff(s: Split, a: Action, hostname: string, u: Uid, v: Uid)
    requires HeldTwice(s, hostname, u, v) && CanAct(s, a)
    ensures var s', r, r' := Do(s, a), s.world.resources, Do(s, a).world.resources;
            && HeldTwice(s', hostname, u, v)
            && InFlight(s', hostname) <= InFlight(s, hostname) - (if a.Act? then {a.uid} else {})
            && (a.uid !in InFlight(s, hostname) ==>
                  && r'[u].status.id == r[u].status.id && r'[v].status.id == r[v].status.id
                  && SameRecords(s.world.cloud.records, s'.world.cloud.records, hostname))
  {
    var w, x := s.world, a.uid;
    ActionIsLocal(s, a);
    if a.Check? {
      if w.resources[x].spec.hostname == hostname {
        assert Opposed(w.resources, x) by {
          var peer := if x == u then v else u;
          assert peer in w.resources && peer != x;
        }
      }
      if !(Proceeds(a.cfg, w, x) && a.o.kubeReads.AllRead?) {
        CheckChangesNoId(a.cfg, w, x, a.o);
      }
    } else if w.resources[x].spec.hostname != hostname {
      WorkIsLocal(a.cfg, w, x, a.o, hostname);
    }
  }

  /** From a state where two CRs of a hostname both hold an id, no sequence of reconciles of CRs
      that are not terminating admits another CR of the hostname, or takes either id away.
      Once those already past the check have acted, it writes nothing to the hostname in
      Cloudflare and changes neither id: the conflict neither ping-pongs nor heals. */
  lemma {:induction false} MutualConflictIsAStandOff(s: Split, actions: seq<Action>, hostname: string, u: Uid, v: Uid)
    requires HeldTwice(s, hostname, u, v) && CanDo(s, actions)
    ensures var s' := DoAll(s, actions);
            && HeldTwice(s', hostname, u, v)
            && InFlight(s', hostname) <= InFlight(s, hostname)
            && (InFlight(s, hostname) == {} ==>
                  && s'.world.resources[u].status.id == s.world.resources[u].status.id
                  && s'.world.resources[v].status.id == s.world.resources[v].status.id
                  && SameRecords(s.world.cloud.records, s'.world.cloud.records, hostname))
    decreases actions
  {
    if actions != [] {
      ActionKeepsStandOff(s, actions[0], hostname, u, v);
      MutualConflictIsAStandOff(Do(s, actions[0]), actions[1..], hostname, u, v);
    }
  }

  // Two CRs of a hostname that Cloudflare does not have, both free to provision it.
  ghost predicate Racing(cfg: Config, w: World, u: Uid, v: Uid) {
    && CloudWF(w.cloud) && u != v && u in w.resources && v in w.resources && !cfg.dryRun
    && w.resources[u].spec.hostname == w.resources[v].spec.hostname
    && Proceeds(cfg, w, u) && Proceeds(cfg, w, v) && ZoneOf(cfg, w, u) == ZoneOf(cfg, w, v)
    && !Management(cfg, w.resources[u].spec).Observe?
    && (forall id :: !IsRecordOf(w.cloud.records, ZoneOf(cfg, w, u).value.id, w.resources[u].spec.hostname, id))
  }

  // Creating: the CR takes up the new record.
  lemma ActCreates(cfg: Config, w: World, u: Uid, v: Uid, o: Outcome)
    requires Racing(cfg, w, u, v) && FailureFree(cfg, w, u, o)
    ensures var turn, zone := ActTurn(cfg, w, u, o), ZoneOf(cfg, w, u).value;
            && turn.write.PutStatus? && turn.write.status.id == w.cloud.next
            && CloudWF(turn.cloud)
            && (forall id ::
                  IsRecordOf(turn.cloud.records, zone.id, w.resources[u].spec.hostname, id) <==> id == w.cloud.next)
  {
    var ch, zone := w.resources[u], ZoneOf(cfg, w, u).value;
    var call := NewCall(cfg, zone.id, ch.spec);
    SearchSucceeds(cfg, w, u, o);
    SearchReplyIsTruthful(cfg, w, u, o);
    FindChangesNothing(w.cloud, o.pages, ch.spec.hostname, o.lookup, cfg.maxRetries);
    var found := FirstMatch(Flatten(o.pages), ch.spec.hostname);
    if found.Some? {
      assert IsRecordOf(w.cloud.records, zone.id, ch.spec.hostname, found.value.id);
    }
    FirstAttemptDecides(w.cloud, call, o.write, cfg.maxRetries);
    RetryKeepsCloudWF(w.cloud, call, o.write, cfg.maxRetries);
    assert ActTurn(cfg, w, u, o) == HandleCreate(cfg, zone, w.cloud, ch, o);
    var after := ActTurn(cfg, w, u, o).cloud.records;
    assert after == w.cloud.records[w.cloud.next := NewRecord(w.cloud.next, call, First(o.write).fate.fill)];
    forall id ensures IsRecordOf(after, zone.id, ch.spec.hostname, id) <==> id == w.cloud.next {
      if id != w.cloud.next {
        assert !IsRecordOf(w.cloud.records, zone.id, ch.spec.hostname, id);
      }
    }
  }

  // Adopting: the CR takes up the one record there is.
  lemma ActAdopts(cfg: Config, w: World, v: Uid, o: Outcome, id: Id)
    requires CloudWF(w.cloud) && v in w.resources && FailureFree(cfg, w, v, o) && ZoneOf(cfg, w, v).Some?
    requires forall r ::
               IsRecordOf(w.cloud.records, ZoneOf(cfg, w, v).value.id, w.resources[v].spec.hostname, r) <==> r == id
    ensures var turn := ActTurn(cfg, w, v, o);
            turn.write.PutStatus? && turn.write.status.id == id && CloudWF(turn.cloud)
  {
    ActKeepsId(cfg, w, v, o);
    var ch, zone := w.resources[v], ZoneOf(cfg, w, v).value;
    SearchSucceeds(cfg, w, v, o);
    SearchReplyIsTruthful(cfg, w, v, o);
    FindChangesNothing(w.cloud, o.pages, ch.spec.hostname, o.lookup, cfg.maxRetries);
    assert IsRecordOf(w.cloud.records, zone.id, ch.spec.hostname, id);
    var found := FirstMatch(Flatten(o.pages), ch.spec.hostname);
    assert found.Some? && IsRecordOf(w.cloud.records, zone.id, ch.spec.hostname, found.value.id);
    assert ActTurn(cfg, w, v, o) == AdoptAndCorrect(cfg, zone, w.cloud, ch, found.value, o);
  }

  /** How the stand-off comes about: both CRs pass the check before either acts; the first
      creates the record, the second adopts it, and both hold its id. */
  lemma RaceEndsInStandOff(cfg: Config, w: World, u: Uid, v: Uid, first: Outcome, second: Outcome)
    requires Racing(cfg, w, u, v) && FailureFree(cfg, w, u, first)
    requires var s := Do(Do(Do(Split(w, {}), Check(cfg, u, first)), Check(cfg, v, second)), Act(cfg, u, first));
             v in s.world.resources && FailureFree(cfg, s.world, v, second)
    ensures var checked := Do(Do(Split(w, {}), Check(cfg, u, first)), Check(cfg, v, second));
            var s := Do(Do(checked, Act(cfg, u, first)), Act(cfg, v, second));
            && checked == Split(w, {u, v})
            && s.cleared == {}
            && HeldTwice(s, w.resources[u].spec.hostname, u, v)
            && s.world.resources[u].status.id == s.world.resources[v].status.id == w.cloud.next
  {
    var checked := Do(Do(Split(w, {}), Check(cfg, u, first)), Check(cfg, v, second));
    assert checked.cleared == {u, v};
    ActCreates(cfg, w, u, v, first);
    var acted := Do(checked, Act(cfg, u, first));
    assert acted.world.resources[v] == w.resources[v];
    ActAdopts(cfg, acted.world, v, second, w.cloud.next);
  }
}
