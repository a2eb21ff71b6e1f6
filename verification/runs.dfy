/** Every run of the operator among its users and other Cloudflare clients: the invariants
    each event keeps, and what justifies each write to Cloudflare. */
module Runs {
  import opened Types
  import opened SSL
  import opened CloudflareAPI
  import opened Worker

  // Successful creates and recreates counted for one CR incarnation.
  datatype Tally = Tally(creates: nat, recreates: nat)

  // tally is history: operations_total, summed over restarts and split by incarnation.
  datatype State = State(world: World, nextUid: Uid, tally: map<Uid, Tally>)

  // Queues, drift passes and restarts only decide which CR is reconciled next, so a run
  // lets any CR be reconciled at any time, under any operator configuration.
  datatype Event =
    | Work(cfg: Config, uid: Uid, o: Outcome)
    | UserCreate(spec: Spec)
    | UserEdit(uid: Uid, spec: Spec)
    | UserDelete(uid: Uid)
    | SetFinalizers(uid: Uid, ours: bool, others: bool)
    | ZonesChange(zones: map<ZoneRef, Zone>)
    | ExternalCreate(record: Record)
    | ExternalEdit(record: Record)
    | ExternalDelete(id: Id)

  ghost predicate Enabled(s: State, e: Event) {
    var w := s.world;
    match e
    case Work(cfg, uid, o) => uid in w.resources && ValidOutcome(cfg, w, uid, o)
    case UserCreate(_) => true
    case UserEdit(uid, spec) => uid in w.resources && spec.hostname == w.resources[uid].spec.hostname
    case UserDelete(uid) => uid in w.resources
    case SetFinalizers(uid, _, _) => uid in w.resources
    case ZonesChange(_) => true
    case ExternalCreate(record) => record.id == w.cloud.next
    case ExternalEdit(record) =>
      record.id in w.cloud.records && record.hostname == w.cloud.records[record.id].hostname
      && record.zone == w.cloud.records[record.id].zone
    case ExternalDelete(id) => id in w.cloud.records
  }

  function TallyOf(s: State, uid: Uid): Tally {
    if uid in s.tally then s.tally[uid] else Tally(0, 0)
  }

  function Count(t: Tally, op: Operation): Tally {
    match op
    case NoOperation => t
    case CreateOperation => t.(creates := t.creates + 1)
    case RecreateOperation => t.(recreates := t.recreates + 1)
  }

  // The API server raises the generation when the spec changes or a deletion begins.
  function EditSpec(r: Resource, spec: Spec): Resource {
    r.(spec := spec, generation := r.generation + if spec != r.spec then 1 else 0)
  }

  // The user deletes a CR: it goes at once when nothing holds it.
  function MarkDeleted(resources: map<Uid, Resource>, uid: Uid): map<Uid, Resource>
    requires uid in resources
  {
    var r := resources[uid];
    if !r.finalizer && !r.otherFinalizers then resources - {uid}
    else if r.deleting then resources
    else resources[uid := r.(deleting := true, generation := r.generation + 1)]
  }

  function Occur(s: State, e: Event): State
    requires Enabled(s, e)
  {
    var w := s.world;
    match e
    case Work(cfg, uid, o) =>
      s.(world := Step(cfg, w, uid, o),
         tally := s.tally[uid := Count(TallyOf(s, uid), Reconcile(cfg, w, uid, o).operation)])
    case UserCreate(spec) =>
      State(w.(resources := w.resources[s.nextUid := Resource(spec, false, false, false, 1, EMPTY_STATUS)]),
            s.nextUid + 1, s.tally)
    case UserEdit(uid, spec) =>
      s.(world := w.(resources := w.resources[uid := EditSpec(w.resources[uid], spec)]))
    case UserDelete(uid) => s.(world := w.(resources := MarkDeleted(w.resources, uid)))
    case SetFinalizers(uid, ours, others) =>
      var r := w.resources[uid];
      s.(world := w.(resources :=
           if r.deleting && !ours && !others then w.resources - {uid}
           else w.resources[uid := r.(finalizer := ours, otherFinalizers := others)]))
    case ZonesChange(zones) => s.(world := w.(zones := zones))
    case ExternalCreate(record) =>
      var c := w.cloud;
      var c' := Cloud(c.records[c.next := record], c.next + 1, c.issued[c.next := record.hostname], c.made);
      s.(world := w.(cloud := c'))
    case ExternalEdit(record) => s.(world := w.(cloud := w.cloud.(records := w.cloud.records[record.id := record])))
    case ExternalDelete(id) => s.(world := w.(cloud := w.cloud.(records := w.cloud.records - {id})))
  }

  // A run from the start: no CR yet, any zones, any Cloudflare account.
  ghost predicate Initial(s: State) {
    && s.world.resources == map[] && s.tally == map[] && s.nextUid > 0
    && CloudWF(s.world.cloud) && s.world.cloud.made == {}
  }

  ghost predicate Feasible(s: State, events: seq<Event>)
    decreases events
  {
    events == [] || (Enabled(s, events[0]) && Feasible(Occur(s, events[0]), events[1..]))
  }

  ghost function Run(s: State, events: seq<Event>): State
    requires Feasible(s, events)
    decreases events
  {
    if events == [] then s else Run(Occur(s, events[0]), events[1..])
  }

  lemma TwoEvents(s: State, a: Event, b: Event)
    requires Enabled(s, a) && Enabled(Occur(s, a), b)
    ensures Feasible(s, [a, b]) && Run(s, [a, b]) == Occur(Occur(s, a), b)
  {
    var first := Occur(s, a);
    assert [a, b][1..] == [b] && [b][1..] == [];
    assert Feasible(first, [b]) && Run(first, [b]) == Occur(first, b);
  }

  lemma ThreeEvents(s: State, a: Event, b: Event, c: Event)
    requires Enabled(s, a) && Enabled(Occur(s, a), b) && Enabled(Occur(Occur(s, a), b), c)
    ensures Feasible(s, [a, b, c]) && Run(s, [a, b, c]) == Occur(Occur(Occur(s, a), b), c)
  {
    assert [a, b, c][1..] == [b, c];
    TwoEvents(Occur(s, a), b, c);
  }

  // ---- The invariant ----

  // What holds of every CR's status.
  ghost predicate StatusOK(cloud: Cloud, ch: Resource) {
    var s := ch.status;
    // The id is, or was, a Cloudflare record of the CR's hostname.
    && (s.id != 0 ==> s.id in cloud.issued && cloud.issued[s.id] == ch.spec.hostname)
    // Without an id nothing of Cloudflare has been reported.
    && (s.id == 0 ==> s.ssl.None? && s.hostnameStatus == "")
    // True and Ready come together, about a generation that the CR has or had.
    && (s.ready.Some? ==>
          && (s.ready.value.isTrue <==> s.ready.value.reason.Ready?)
          && s.ready.value.observedGeneration <= ch.generation)
    // The provisioning timer has been started exactly for a CR that the operator has created.
    && (s.createCount > 0 <==> s.sslProvisioningStartedAt.Some?)
    // A conflict-marked CR holds no id.
    && (s.ready.Some? && s.ready.value.reason.HostnameConflict? ==> s.id == 0)
    // Ready means that Cloudflare reported an active certificate for a known record.
    && (s.ready.Some? && s.ready.value.isTrue ==>
          s.ssl.Some? && s.ssl.value.status == ACTIVE && s.consecutiveErrors == 0 && s.id != 0)
  }

  // At most one CR per hostname holds an id.
  ghost predicate SingleOwner(resources: map<Uid, Resource>) {
    forall u, v :: u in resources && v in resources && u != v
                   && resources[u].spec.hostname == resources[v].spec.hostname
                   ==> resources[u].status.id == 0 || resources[v].status.id == 0
  }

  ghost predicate WorldInv(w: World) {
    && CloudWF(w.cloud)
    && SingleOwner(w.resources)
    && (forall u :: u in w.resources ==> StatusOK(w.cloud, w.resources[u]))
  }

  ghost predicate Inv(s: State) {
    && WorldInv(s.world)
    && (forall u :: u in s.world.resources || u in s.tally ==> u < s.nextUid)
    && (forall u :: u in s.world.resources ==>
                      s.world.resources[u].status.createCount <= TallyOf(s, u).creates + TallyOf(s, u).recreates)
  }

  // ---- One reconcile ----

  // Reporting a response under an id of the hostname gives a sound status.
  lemma ReportIsSound(cloud: Cloud, ch: Resource, s: Status, response: Record)
    requires s.id != 0 && s.id in cloud.issued && cloud.issued[s.id] == ch.spec.hostname
    requires s.createCount > 0 <==> s.sslProvisioningStartedAt.Some?
    ensures StatusOK(cloud, ch.(status := RequeueOrReady(Refresh(s, response), ch.generation)))
  {
  }

  // A status that is sound stays so when the store knows more.
  lemma SoundStaysSound(before: Cloud, after: Cloud, ch: Resource)
    requires StatusOK(before, ch) && Extends(before, after)
    ensures StatusOK(after, ch)
  {
  }

  // So does one that takes up a known id and an error.
  lemma FailedAdoptIsSound(cloud: Cloud, ch: Resource, id: Id)
    requires StatusOK(cloud, ch) && id != 0 && id in cloud.issued && cloud.issued[id] == ch.spec.hostname
    ensures StatusOK(cloud, ch.(status := SetError(ch.status.(id := id), ch.generation, UpdateFailed)))
  {
  }

  lemma AdoptIsSound(cfg: Config, zone: ZoneInfo, cloud: Cloud, ch: Resource, existing: Record, o: Outcome)
    requires CloudWF(cloud) && StatusOK(cloud, ch)
    requires Search(cloud.records, zone.id, ch.spec.hostname, Some(existing))
    ensures var t := AdoptAndCorrect(cfg, zone, cloud, ch, existing, o);
            && t.write.PutStatus? && t.operation.NoOperation?
            && StatusOK(t.cloud, ch.(status := t.write.status)) && t.write.status.createCount == ch.status.createCount
            && CloudWF(t.cloud) && Extends(cloud, t.cloud)
  {
    var adopted := ch.status.(id := existing.id);
    assert existing.id in cloud.issued;
    if Drifted(ch.spec, existing) && Management(cfg, ch.spec).Manage? && !cfg.dryRun {
      var r := Retry(cloud, EditCall(zone.id, ch.spec, existing), o.write, cfg.maxRetries);
      RetryKeepsCloudWF(cloud, EditCall(zone.id, ch.spec, existing), o.write, cfg.maxRetries);
      if r.reply.Success? && r.reply.record.Some? {
        ReportIsSound(r.cloud, ch, adopted, r.reply.record.value);
      } else {
        SoundStaysSound(cloud, r.cloud, ch);
        FailedAdoptIsSound(r.cloud, ch, existing.id);
      }
    } else {
      ReportIsSound(cloud, ch, adopted, existing);
    }
  }

  lemma CreateIsSound(cfg: Config, zone: ZoneInfo, cloud: Cloud, ch: Resource, o: Outcome)
    requires CloudWF(cloud) && StatusOK(cloud, ch)
    ensures var t := HandleCreate(cfg, zone, cloud, ch, o);
            && t.write.PutStatus?
            && t.write.status.createCount == ch.status.createCount + (if t.operation.NoOperation? then 0 else 1)
            && StatusOK(t.cloud, ch.(status := t.write.status))
            && CloudWF(t.cloud) && Extends(cloud, t.cloud)
  {
    var call := NewCall(cfg, zone.id, ch.spec);
    RetryKeepsCloudWF(cloud, call, o.write, cfg.maxRetries);
    CreatedIsIssued(cloud, call, o.write, cfg.maxRetries);
    var r := Retry(cloud, call, o.write, cfg.maxRetries);
    if r.reply.Success? {
      var resp := r.reply.record.value;
      var s := ch.status.(sslProvisioningStartedAt := Some(o.now),
                          createCount := ch.status.createCount + 1,
                          id := resp.id);
      ReportIsSound(r.cloud, ch, s, resp);
    }
  }

  // A turn keeps the store sound and writes only sound statuses; it takes up an id only for
  // an unopposed CR.
  ghost predicate SoundTurn(w: World, uid: Uid, t: Turn)
    requires uid in w.resources
  {
    var ch := w.resources[uid];
    && CloudWF(t.cloud) && Extends(w.cloud, t.cloud)
    && (t.write.PutStatus? ==>
          && StatusOK(t.cloud, ch.(status := t.write.status))
          && (t.write.status.id != ch.status.id ==> !Opposed(w.resources, uid))
          && t.write.status.createCount == ch.status.createCount + (if t.operation.NoOperation? then 0 else 1))
    && (!t.operation.NoOperation? ==> t.write.PutStatus?)
  }

  lemma DeleteIsSound(cfg: Config, w: World, ch: Resource, o: Outcome)
    requires CloudWF(w.cloud)
    ensures var t := ReconcileDeleting(cfg, w, ch, o);
            && CloudWF(t.cloud) && Extends(w.cloud, t.cloud)
            && !t.write.PutStatus? && t.operation.NoOperation? && t.observed.None?
  {
    var zone := BuildClient(cfg, w.zones, ch.spec.zoneRef, o);
    if zone.Some? {
      RetryKeepsCloudWF(w.cloud, Delete(zone.value.id, ch.status.id), o.write, cfg.maxRetries);
    }
  }

  lemma DeletingTurnIsSound(cfg: Config, w: World, uid: Uid, o: Outcome)
    requires WorldInv(w) && uid in w.resources && w.resources[uid].deleting
    ensures SoundTurn(w, uid, Reconcile(cfg, w, uid, o))
  {
    DeleteIsSound(cfg, w, w.resources[uid], o);
  }

  // A false condition, with or without a new error, leaves a sound status sound.
  lemma MarkIsSound(cloud: Cloud, ch: Resource, reason: Reason)
    requires StatusOK(cloud, ch) && !reason.Ready? && (reason.HostnameConflict? ==> ch.status.id == 0)
    ensures StatusOK(cloud, ch.(status := SetCondition(ch.status, ch.generation, false, reason)))
    ensures StatusOK(cloud, ch.(status := SetError(ch.status, ch.generation, reason)))
  {
  }

  // What a reconcile writes that does not get as far as Cloudflare.
  lemma WaitingTurn(cfg: Config, w: World, uid: Uid, o: Outcome)
    requires uid in w.resources && !w.resources[uid].deleting
    requires !(Proceeds(cfg, w, uid) && o.kubeReads.AllRead?)
    ensures var t, ch := Reconcile(cfg, w, uid, o), w.resources[uid];
            && t.cloud == w.cloud && t.operation.NoOperation? && t.observed.None?
            && (t.write.PutStatus? ==>
                  || t.write.status == SetError(ch.status, ch.generation, ZoneError)
                  || t.write.status == SetError(ch.status, ch.generation, OriginNotInZone)
                  || (Opposed(w.resources, uid)
                      && t.write.status == SetCondition(ch.status, ch.generation, false, HostnameConflict)))
  {
  }

  lemma WaitingTurnIsSound(cfg: Config, w: World, uid: Uid, o: Outcome)
    requires WorldInv(w) && uid in w.resources && !w.resources[uid].deleting
    requires !(Proceeds(cfg, w, uid) && o.kubeReads.AllRead?)
    ensures SoundTurn(w, uid, Reconcile(cfg, w, uid, o))
  {
    var t, ch := Reconcile(cfg, w, uid, o), w.resources[uid];
    WaitingTurn(cfg, w, uid, o);
    if t.write.PutStatus? {
      if t.write.status == SetError(ch.status, ch.generation, ZoneError) {
        MarkIsSound(w.cloud, ch, ZoneError);
      } else if t.write.status == SetError(ch.status, ch.generation, OriginNotInZone) {
        MarkIsSound(w.cloud, ch, OriginNotInZone);
      } else {
        OpposedHoldsNoId(w, uid);
        MarkIsSound(w.cloud, ch, HostnameConflict);
      }
    }
  }

  lemma OpposedHoldsNoId(w: World, uid: Uid)
    requires WorldInv(w) && uid in w.resources && Opposed(w.resources, uid)
    ensures w.resources[uid].status.id == 0
  {
  }

  lemma WorkingTurnIsSound(cfg: Config, w: World, uid: Uid, o: Outcome)
    requires WorldInv(w) && uid in w.resources && ValidOutcome(cfg, w, uid, o)
    requires Proceeds(cfg, w, uid) && o.kubeReads.AllRead?
    ensures SoundTurn(w, uid, Reconcile(cfg, w, uid, o))
  {
    var ch, zone := w.resources[uid], ZoneOf(cfg, w, uid).value;
    var reply := SearchReply(cfg, w, uid, o);
    SearchReplyIsTruthful(cfg, w, uid, o);
    assert Reconcile(cfg, w, uid, o) == ReconcileCloudflareState(cfg, zone, w.cloud, ch, o);
    if reply.Success? && reply.record.Some? {
      AdoptIsSound(cfg, zone, w.cloud, ch, reply.record.value, o);
    } else if reply.Success? && !Management(cfg, ch.spec).Observe? {
      CreateIsSound(cfg, zone, w.cloud, ch, o);
    }
  }

  lemma TurnIsSound(cfg: Config, w: World, uid: Uid, o: Outcome)
    requires WorldInv(w) && uid in w.resources && ValidOutcome(cfg, w, uid, o)
    ensures SoundTurn(w, uid, Reconcile(cfg, w, uid, o))
  {
    if w.resources[uid].deleting {
      DeletingTurnIsSound(cfg, w, uid, o);
    } else if Proceeds(cfg, w, uid) && o.kubeReads.AllRead? {
      WorkingTurnIsSound(cfg, w, uid, o);
    } else {
      WaitingTurnIsSound(cfg, w, uid, o);
    }
  }

  // What a sound turn leaves, stored or not.
  ghost predicate Leaves(w: World, uid: Uid, t: Turn, w': World)
    requires uid in w.resources
  {
    w'.cloud == t.cloud && (w'.resources == w.resources || w'.resources == Store(w.resources, uid, t.write))
  }

  lemma SoundTurnKeepsOwner(w: World, uid: Uid, t: Turn, w': World)
    requires SingleOwner(w.resources) && uid in w.resources && SoundTurn(w, uid, t) && Leaves(w, uid, t, w')
    ensures SingleOwner(w'.resources)
  {
    forall u, v | u in w'.resources && v in w'.resources && u != v
                  && w'.resources[u].spec.hostname == w'.resources[v].spec.hostname
      ensures w'.resources[u].status.id == 0 || w'.resources[v].status.id == 0
    {
      assert w.resources[u].status.id == 0 || w.resources[v].status.id == 0;
    }
  }

  // Storing the write of a sound turn, or losing it, keeps the invariant.
  lemma SoundTurnKeepsWorldInv(w: World, uid: Uid, t: Turn, w': World)
    requires WorldInv(w) && uid in w.resources && SoundTurn(w, uid, t) && Leaves(w, uid, t, w')
    ensures WorldInv(w')
  {
    SoundTurnKeepsOwner(w, uid, t, w');
    forall u | u in w'.resources
      ensures StatusOK(w'.cloud, w'.resources[u])
    {
      SoundStaysSound(w.cloud, t.cloud, w.resources[u]);
    }
  }

  lemma StepKeepsWorldInv(cfg: Config, w: World, uid: Uid, o: Outcome)
    requires WorldInv(w) && uid in w.resources && ValidOutcome(cfg, w, uid, o)
    ensures WorldInv(Step(cfg, w, uid, o))
  {
    TurnIsSound(cfg, w, uid, o);
    SoundTurnKeepsWorldInv(w, uid, Reconcile(cfg, w, uid, o), Step(cfg, w, uid, o));
  }

  // ---- Every run ----

  // A CR after a user event: as it was in status and hostname, or new.
  ghost predicate Untouched(before: map<Uid, Resource>, u: Uid, after: Resource) {
    if u in before then
      && after.status == before[u].status
      && after.spec.hostname == before[u].spec.hostname
      && after.generation >= before[u].generation
    else after.status == EMPTY_STATUS
  }

  lemma UserEventLeavesStatuses(s: State, e: Event, u: Uid)
    requires Enabled(s, e)
    requires e.UserCreate? || e.UserEdit? || e.UserDelete? || e.SetFinalizers? || e.ZonesChange?
    requires u in Occur(s, e).world.resources
    ensures u == s.nextUid || u in s.world.resources
    ensures u != s.nextUid || !e.UserCreate? ==> Untouched(s.world.resources, u, Occur(s, e).world.resources[u])
    ensures u == s.nextUid && e.UserCreate? ==> Occur(s, e).world.resources[u].status == EMPTY_STATUS
  {
  }

  // Statuses and hostnames that stay as they are, or are new and empty, keep the invariant.
  lemma UntouchedKeepsInv(s: State, s': State)
    requires Inv(s)
    requires s'.world.cloud == s.world.cloud && s'.tally == s.tally && s.nextUid <= s'.nextUid
    requires forall u :: u in s'.world.resources ==>
               u < s'.nextUid && Untouched(s.world.resources, u, s'.world.resources[u])
    ensures Inv(s')
  {
    var r, r' := s.world.resources, s'.world.resources;
    forall u | u in r' ensures StatusOK(s'.world.cloud, r'[u]) {
      if u in r {
        assert StatusOK(s.world.cloud, r[u]);
      }
    }
    forall u, v | u in r' && v in r' && u != v && r'[u].spec.hostname == r'[v].spec.hostname
      ensures r'[u].status.id == 0 || r'[v].status.id == 0
    {
      assert Untouched(r, u, r'[u]) && Untouched(r, v, r'[v]);
    }
  }

  lemma UserEventKeepsInv(s: State, e: Event)
    requires Inv(s) && Enabled(s, e)
    requires e.UserCreate? || e.UserEdit? || e.UserDelete? || e.SetFinalizers? || e.ZonesChange?
    ensures Inv(Occur(s, e))
  {
    var r, s' := s.world.resources, Occur(s, e);
    assert s'.world.cloud == s.world.cloud && s'.tally == s.tally && s.nextUid <= s'.nextUid;
    forall u | u in s'.world.resources
      ensures u < s'.nextUid && Untouched(r, u, s'.world.resources[u])
    {
      UserEventLeavesStatuses(s, e, u);
    }
    UntouchedKeepsInv(s, s');
  }

  // Another store keeps the invariant if it knows what the old one knew.
  lemma ExtensionKeepsInv(s: State, s': State)
    requires Inv(s) && CloudWF(s'.world.cloud) && Extends(s.world.cloud, s'.world.cloud)
    requires s'.world.resources == s.world.resources && s'.tally == s.tally && s'.nextUid == s.nextUid
    ensures Inv(s')
  {
    forall u | u in s'.world.resources ensures StatusOK(s'.world.cloud, s'.world.resources[u]) {
      assert StatusOK(s.world.cloud, s.world.resources[u]);
    }
  }

  // Other clients of Cloudflare change no CR, and no hostname of an id.
  lemma ExternalEventKeepsInv(s: State, e: Event)
    requires Inv(s) && Enabled(s, e)
    requires e.ExternalCreate? || e.ExternalEdit? || e.ExternalDelete?
    ensures Inv(Occur(s, e))
  {
    assert CloudWF(Occur(s, e).world.cloud) && Extends(s.world.cloud, Occur(s, e).world.cloud);
    ExtensionKeepsInv(s, Occur(s, e));
  }

  // A reconcile counts an operation whenever it raises createCount.
  lemma WorkKeepsBound(s: State, e: Event, u: Uid)
    requires Inv(s) && Enabled(s, e) && e.Work? && u in Occur(s, e).world.resources
    ensures u in s.world.resources
    ensures Occur(s, e).world.resources[u].status.createCount
            <= TallyOf(Occur(s, e), u).creates + TallyOf(Occur(s, e), u).recreates
  {
    TurnIsSound(e.cfg, s.world, e.uid, e.o);
  }

  lemma WorkKeepsInv(s: State, e: Event)
    requires Inv(s) && Enabled(s, e) && e.Work?
    ensures Inv(Occur(s, e))
  {
    var s' := Occur(s, e);
    StepKeepsWorldInv(e.cfg, s.world, e.uid, e.o);
    forall u | u in s'.world.resources
      ensures u in s.world.resources
      ensures s'.world.resources[u].status.createCount <= TallyOf(s', u).creates + TallyOf(s', u).recreates
    {
      WorkKeepsBound(s, e, u);
    }
  }

  lemma EventKeepsInv(s: State, e: Event)
    requires Inv(s) && Enabled(s, e)
    ensures Inv(Occur(s, e))
  {
    if e.Work? {
      WorkKeepsInv(s, e);
    } else if e.ExternalCreate? || e.ExternalEdit? || e.ExternalDelete? {
      ExternalEventKeepsInv(s, e);
    } else {
      UserEventKeepsInv(s, e);
    }
  }

  /** Every state of every run satisfies the invariant: one owner per hostname, ids that
      belong to the hostname, conflict marks without ids, truthful Ready conditions. */
  lemma {:induction false} RunsKeepInv(s: State, events: seq<Event>)
    requires Inv(s) && Feasible(s, events)
    ensures Inv(Run(s, events))
    decreases events
  {
    if events != [] {
      EventKeepsInv(s, events[0]);
      RunsKeepInv(Occur(s, events[0]), events[1..]);
    }
  }

  lemma InitialInv(s: State)
    requires Initial(s)
    ensures Inv(s)
  {
  }
}
