/** What one reconcile of a CustomHostname does, as a function of the cluster, the zones,
    Cloudflare and the outcome of the calls it makes. */
module Worker {
  import opened Types
  import opened SSL
  import opened Listing
  import opened CloudflareAPI
  import SSLGauge

  datatype World = World(resources: map<Uid, Resource>, zones: map<ZoneRef, Zone>, cloud: Cloud)

  // The first read of the API server that fails, if any: of the CR, of its Zone or token, or
  // of the CRs that share its hostname.
  datatype Reads = AllRead | ObjectUnread | ZoneUnread | PeersUnread

  // How the outside answers one reconcile: the reads, the listing behind the search by hostname, the
  // attempts of the search and of the write, the clock, and whether the one Kubernetes
  // write of the reconcile is stored. A crash, or a lost or rejected update, is
  // persisted == false; a crash between attempts is also a cancelled attempt.
  datatype Outcome = Outcome(
    kubeReads: Reads,
    pages: seq<seq<Record>>,
    lookup: seq<Attempt>,
    write: seq<Attempt>,
    now: Time,
    persisted: bool)

  // The one Kubernetes write of a reconcile.
  datatype Write = NoWrite | PutStatus(status: Status) | PutFinalizer(held: bool)

  datatype Operation = NoOperation | CreateOperation | RecreateOperation

  // A call of setSSLProvisioningDuration; SSLGauge says what becomes of it.
  datatype Observation = Observation(series: SSLGauge.Series, duration: int)

  // failed: the reconcile returns an error even if its write is stored.
  datatype Turn = Turn(cloud: Cloud, write: Write, requeue: bool, failed: bool, operation: Operation,
                       observed: Option<Observation>)

  // What the worker knows of a zone: its Cloudflare id and its domain.
  datatype ZoneInfo = ZoneInfo(id: string, domain: string)

  // ---- Policies ----

  function EffectiveManagementPolicy(crPolicy: ManagementPolicy, operatorDefault: ManagementPolicy): ManagementPolicy {
    if !crPolicy.InheritManagement? then crPolicy else operatorDefault
  }

  function EffectiveDeletePolicy(crPolicy: DeletePolicy, operatorDefault: DeletePolicy): DeletePolicy {
    if !crPolicy.InheritDelete? then crPolicy else operatorDefault
  }

  function Management(cfg: Config, spec: Spec): ManagementPolicy {
    EffectiveManagementPolicy(spec.managementPolicy, cfg.managementPolicy)
  }

  function Deletion(cfg: Config, spec: Spec): DeletePolicy {
    EffectiveDeletePolicy(spec.deletePolicy, cfg.deletePolicy)
  }

  predicate ShouldDeleteInCF(statusID: Id, current: Option<Record>) {
    current.Some? && current.value.id == statusID
  }

  // ---- Zone resolution ----

  function ResolveRef(cfg: Config, ref: ZoneRef): ZoneRef {
    if ref.namespace == "" then ref.(namespace := cfg.operatorNamespace) else ref
  }

  // buildCloudflareClient: needs the Zone and its API token.
  function ResolveZone(cfg: Config, zones: map<ZoneRef, Zone>, ref: ZoneRef): Option<ZoneInfo> {
    var key := ResolveRef(cfg, ref);
    if key in zones && zones[key].credentials then Some(ZoneInfo(zones[key].id, zones[key].domain)) else None
  }

  // The same when the read of the Zone or of its token may fail.
  function BuildClient(cfg: Config, zones: map<ZoneRef, Zone>, ref: ZoneRef, o: Outcome): Option<ZoneInfo> {
    if o.kubeReads.ZoneUnread? then None else ResolveZone(cfg, zones, ref)
  }

  predicate HasSuffix(s: string, suffix: string) {
    |suffix| <= |s| && s[|s| - |suffix|..] == suffix
  }

  predicate OriginInZone(domain: string, origin: string) {
    domain == "" || HasSuffix(origin, "." + domain) || origin == domain
  }

  // ---- Conflicts ----

  // Another CR of the hostname holds an id.
  predicate Opposed(resources: map<Uid, Resource>, uid: Uid)
    requires uid in resources
  {
    exists peer :: peer in resources && peer != uid
                   && resources[peer].spec.hostname == resources[uid].spec.hostname
                   && resources[peer].status.id != 0
  }

  // ---- Status updates ----

  function SetCondition(s: Status, generation: nat, isTrue: bool, reason: Reason): Status {
    s.(ready := Some(Condition(isTrue, reason, generation)))
  }

  function SetError(s: Status, generation: nat, reason: Reason): Status {
    SetCondition(s.(consecutiveErrors := s.consecutiveErrors + 1), generation, false, reason)
  }

  function Refresh(s: Status, response: Record): Status {
    s.(ssl := Some(SSLStatusOf(response.ssl)), hostnameStatus := response.status)
  }

  function RequeueOrReady(s: Status, generation: nat): Status {
    var cleared := s.(consecutiveErrors := 0);
    if cleared.ssl.Some? && cleared.ssl.value.status == ACTIVE
    then SetCondition(cleared, generation, true, Ready)
    else SetCondition(cleared, generation, false, SSLPending)
  }

  // The provisioning duration that requeueOrReady observes when it finds the certificate
  // active, the timer started, and the Ready condition not yet true.
  function Observed(spec: Spec, s: Status, now: Time): Option<Observation> {
    if && s.ssl.Some? && s.ssl.value.status == ACTIVE && s.sslProvisioningStartedAt.Some?
       && !(s.ready.Some? && s.ready.value.isTrue)
    then
      var specified := if spec.ssl.Some? then spec.ssl.value.dcvMethod else "";
      var dcvMethod := OrElse(s.ssl.value.config.dcvMethod, OrElse(specified, METHOD_HTTP));
      Some(Observation(SSLGauge.Series(spec.zoneRef.name, spec.hostname, dcvMethod),
                       now - s.sslProvisioningStartedAt.value))
    else None
  }

  // ---- Requests ----

  function NewCall(cfg: Config, zone: string, spec: Spec): Call {
    New(zone, spec.hostname, spec.originServer, spec.originSNI,
        BuildSSLParams(Settings(spec), cfg.sslDefaults))
  }

  function EditCall(zone: string, spec: Spec, existing: Record): Call {
    Edit(zone, existing.id, spec.originServer, spec.originSNI,
         if spec.ssl.Some? then Some(BuildSSLEditParams(spec.ssl.value, existing.ssl.config)) else None)
  }

  // ---- Reconcile ----

  function StatusTurn(cloud: Cloud, status: Status): Turn {
    Turn(cloud, PutStatus(status), false, false, NoOperation, None)
  }

  // Ends in requeueOrReady.
  function ReadyTurn(cloud: Cloud, ch: Resource, s: Status, operation: Operation, o: Outcome): Turn {
    Turn(cloud, PutStatus(RequeueOrReady(s, ch.generation)), false, false, operation, Observed(ch.spec, s, o.now))
  }

  function Release(cloud: Cloud): Turn {
    Turn(cloud, PutFinalizer(false), false, false, NoOperation, None)
  }

  function Abort(cloud: Cloud): Turn {
    Turn(cloud, NoWrite, false, true, NoOperation, None)
  }

  function RecordCreation(cloud: Cloud, ch: Resource, resp: Record, o: Outcome): Turn {
    var s := ch.status.(sslProvisioningStartedAt := Some(o.now),
                        createCount := ch.status.createCount + 1,
                        id := resp.id);
    ReadyTurn(cloud, ch, Refresh(s, resp), if ch.status.createCount > 0 then RecreateOperation else CreateOperation, o)
  }

  function HandleCreate(cfg: Config, zone: ZoneInfo, cloud: Cloud, ch: Resource, o: Outcome): Turn {
    if cfg.dryRun then StatusTurn(cloud, SetCondition(ch.status, ch.generation, false, DryRun))
    else
      var created := Retry(cloud, NewCall(cfg, zone.id, ch.spec), o.write, cfg.maxRetries);
      if created.reply.Success? && created.reply.record.Some? then
        RecordCreation(created.cloud, ch, created.reply.record.value, o)
      else StatusTurn(created.cloud, SetError(ch.status, ch.generation, CreateFailed))
  }

  function AdoptAndCorrect(cfg: Config, zone: ZoneInfo, cloud: Cloud, ch: Resource, existing: Record,
                           o: Outcome): Turn
  {
    var adopted := ch.status.(id := existing.id);
    if Drifted(ch.spec, existing) && Management(cfg, ch.spec).Manage? && !cfg.dryRun then
      var edited := Retry(cloud, EditCall(zone.id, ch.spec, existing), o.write, cfg.maxRetries);
      if edited.reply.Success? && edited.reply.record.Some? then
        ReadyTurn(edited.cloud, ch, Refresh(adopted, edited.reply.record.value), NoOperation, o)
      else StatusTurn(edited.cloud, SetError(adopted, ch.generation, UpdateFailed))
    else ReadyTurn(cloud, ch, Refresh(adopted, existing), NoOperation, o)
  }

  function ReconcileCloudflareState(cfg: Config, zone: ZoneInfo, cloud: Cloud, ch: Resource, o: Outcome): Turn {
    var look := Retry(cloud, Find(o.pages, ch.spec.hostname), o.lookup, cfg.maxRetries);
    if look.reply.Failed? then StatusTurn(cloud, SetError(ch.status, ch.generation, LookupFailed))
    else if look.reply.record.Some? then AdoptAndCorrect(cfg, zone, cloud, ch, look.reply.record.value, o)
    else if Management(cfg, ch.spec).Observe? then
      StatusTurn(cloud, SetCondition(ch.status.(consecutiveErrors := 0), ch.generation, false, WaitingForExternal))
    else HandleCreate(cfg, zone, cloud, ch, o)
  }

  function HandleDelete(cfg: Config, zone: ZoneInfo, cloud: Cloud, ch: Resource, o: Outcome): Turn {
    if cfg.dryRun || !ch.finalizer then Release(cloud)
    else
      var look := Retry(cloud, Find(o.pages, ch.spec.hostname), o.lookup, cfg.maxRetries);
      if Deletion(cfg, ch.spec).OwnOnly? && look.reply.Failed? then Abort(cloud)
      else if Deletion(cfg, ch.spec).OwnOnly? && !ShouldDeleteInCF(ch.status.id, look.reply.record) then Release(cloud)
      else
        var deleted := Retry(cloud, Delete(zone.id, ch.status.id), o.write, cfg.maxRetries);
        if deleted.reply.Success? || deleted.reply.code == NotFound then Release(deleted.cloud)
        else Abort(deleted.cloud)
  }

  function ReconcileDeleting(cfg: Config, w: World, ch: Resource, o: Outcome): Turn {
    if ch.finalizer && (ch.status.id == 0 || Management(cfg, ch.spec).Observe? || Deletion(cfg, ch.spec).Never?) then
      Release(w.cloud)
    else
      match BuildClient(cfg, w.zones, ch.spec.zoneRef, o)
      case None => Abort(w.cloud)
      case Some(zone) => HandleDelete(cfg, zone, w.cloud, ch, o)
  }

  function ReconcileLive(cfg: Config, w: World, uid: Uid, o: Outcome): Turn
    requires uid in w.resources
  {
    var ch := w.resources[uid];
    match BuildClient(cfg, w.zones, ch.spec.zoneRef, o)
    case None => StatusTurn(w.cloud, SetError(ch.status, ch.generation, ZoneError))
    case Some(zone) =>
      if !OriginInZone(zone.domain, ch.spec.originServer) then
        StatusTurn(w.cloud, SetError(ch.status, ch.generation, OriginNotInZone))
      else if !ch.finalizer then Turn(w.cloud, PutFinalizer(true), true, false, NoOperation, None)
      else if o.kubeReads.PeersUnread? then Abort(w.cloud)
      else if Opposed(w.resources, uid) then
        StatusTurn(w.cloud, SetCondition(ch.status, ch.generation, false, HostnameConflict))
      else ReconcileCloudflareState(cfg, zone, w.cloud, ch, o)
  }

  function Reconcile(cfg: Config, w: World, uid: Uid, o: Outcome): Turn
    requires uid in w.resources
  {
    if o.kubeReads.ObjectUnread? then Abort(w.cloud)
    else if w.resources[uid].deleting then ReconcileDeleting(cfg, w, w.resources[uid], o)
    else ReconcileLive(cfg, w, uid, o)
  }

  // The API server stores a write. An object that is being deleted is gone once the last
  // finalizer is.
  function Store(resources: map<Uid, Resource>, uid: Uid, write: Write): map<Uid, Resource>
    requires uid in resources
  {
    match write
    case NoWrite => resources
    case PutStatus(status) => resources[uid := resources[uid].(status := status)]
    case PutFinalizer(held) =>
      if resources[uid].deleting && !held && !resources[uid].otherFinalizers then resources - {uid}
      else resources[uid := resources[uid].(finalizer := held)]
  }

  // The world after one reconcile.
  function Step(cfg: Config, w: World, uid: Uid, o: Outcome): World
    requires uid in w.resources
  {
    var turn := Reconcile(cfg, w, uid, o);
    World(if o.persisted then Store(w.resources, uid, turn.write) else w.resources, w.zones, turn.cloud)
  }

  // The listing shows records as they are, of the zone, and misses none of the hostname.
  ghost predicate ValidListing(listing: seq<Record>, records: map<Id, Record>, zone: string, hostname: string) {
    && (forall r :: r in listing ==> r.id in records && records[r.id] == r && r.zone == zone)
    && (forall id :: id in records && records[id].zone == zone && records[id].hostname == hostname
                     ==> records[id] in listing)
  }

  // The outcome answers searches of the CR's zone truthfully.
  ghost predicate ValidOutcome(cfg: Config, w: World, uid: Uid, o: Outcome)
    requires uid in w.resources
  {
    var spec := w.resources[uid].spec;
    var zone := ResolveZone(cfg, w.zones, spec.zoneRef);
    zone.Some? ==> ValidListing(Flatten(o.pages), w.cloud.records, zone.value.id, spec.hostname)
  }

  // ---- Facts about single reconciles ----

  // What a truthful search finds.
  ghost predicate Search(records: map<Id, Record>, zone: string, hostname: string, found: Option<Record>) {
    match found
    case Some(r) => r.id in records && records[r.id] == r && r.zone == zone && r.hostname == hostname
    case None => forall id :: id in records ==> records[id].zone != zone || records[id].hostname != hostname
  }

  lemma SearchIsTruthful(cfg: Config, w: World, uid: Uid, o: Outcome)
    requires uid in w.resources && ValidOutcome(cfg, w, uid, o)
    ensures var spec := w.resources[uid].spec;
            var zone := ResolveZone(cfg, w.zones, spec.zoneRef);
            zone.Some? ==>
              Search(w.cloud.records, zone.value.id, spec.hostname, FirstMatch(Flatten(o.pages), spec.hostname))
  {
    FirstMatchIsFirst(Flatten(o.pages), w.resources[uid].spec.hostname);
  }

  // A record that the worker's create call made is of the hostname and meets the spec.
  lemma MadeMeetsSpec(cfg: Config, zone: string, spec: Spec, record: Record)
    requires MadeBy(NewCall(cfg, zone, spec), record)
    ensures record.zone == zone && record.hostname == spec.hostname && !Drifted(spec, record)
    ensures Meets(spec, record) && AppliesDefaults(spec, cfg.sslDefaults, record)
  {
  }

  // A record that the worker's edit call changed meets the spec, and is the same record.
  lemma EditedMeetsSpec(zone: string, spec: Spec, was: Record, record: Record)
    requires EditedBy(EditCall(zone, spec, was), was, record)
    ensures record.id == was.id && record.zone == was.zone && record.hostname == was.hostname && !Drifted(spec, record)
    ensures Meets(spec, record) && KeepsUnset(spec, was, record)
  {
  }

  // Adopting takes up the id of the record, whatever becomes of the edit, and makes no record.
  lemma AdoptTakesId(cfg: Config, zone: ZoneInfo, cloud: Cloud, ch: Resource, existing: Record, o: Outcome)
    ensures var turn := AdoptAndCorrect(cfg, zone, cloud, ch, existing, o);
            && turn.cloud.records.Keys == cloud.records.Keys
            && turn.write.PutStatus? && turn.write.status.id == existing.id
            && (CloudWF(cloud) ==> CloudWF(turn.cloud))
  {
    var call := EditCall(zone.id, ch.spec, existing);
    RetriedEdit(cloud, call, o.write, cfg.maxRetries);
    if CloudWF(cloud) {
      RetryKeepsCloudWF(cloud, call, o.write, cfg.maxRetries);
    }
  }

  // Creating, or failing to, leaves no CR without an id that had one.
  lemma CreateKeepsId(cfg: Config, zone: ZoneInfo, cloud: Cloud, ch: Resource, o: Outcome)
    requires CloudWF(cloud)
    ensures var turn := HandleCreate(cfg, zone, cloud, ch, o);
            && CloudWF(turn.cloud) && turn.write.PutStatus?
            && (ch.status.id != 0 ==> turn.write.status.id != 0)
  {
    RetryKeepsCloudWF(cloud, NewCall(cfg, zone.id, ch.spec), o.write, cfg.maxRetries);
    CreatedIsIssued(cloud, NewCall(cfg, zone.id, ch.spec), o.write, cfg.maxRetries);
  }

  // ---- The calls of a reconcile ----

  function ZoneOf(cfg: Config, w: World, uid: Uid): Option<ZoneInfo>
    requires uid in w.resources
  {
    ResolveZone(cfg, w.zones, w.resources[uid].spec.zoneRef)
  }

  // The reconcile of this CR gets as far as Cloudflare if all reads succeed, and may create or
  // edit: not terminating, zone resolved, origin in the zone, finalizer stored, no peer with
  // an id.
  predicate Proceeds(cfg: Config, w: World, uid: Uid)
    requires uid in w.resources
  {
    var ch, zone := w.resources[uid], ZoneOf(cfg, w, uid);
    && !ch.deleting && zone.Some? && OriginInZone(zone.value.domain, ch.spec.originServer)
    && ch.finalizer && !Opposed(w.resources, uid)
  }

  // The answer to the search by hostname.
  function SearchReply(cfg: Config, w: World, uid: Uid, o: Outcome): Reply
    requires uid in w.resources
  {
    Retry(w.cloud, Find(o.pages, w.resources[uid].spec.hostname), o.lookup, cfg.maxRetries).reply
  }

  predicate CallsNew(cfg: Config, w: World, uid: Uid, o: Outcome)
    requires uid in w.resources
  {
    && Proceeds(cfg, w, uid) && o.kubeReads.AllRead? && !cfg.dryRun
    && !Management(cfg, w.resources[uid].spec).Observe?
    && SearchReply(cfg, w, uid, o) == Success(None)
  }

  predicate CallsEdit(cfg: Config, w: World, uid: Uid, o: Outcome)
    requires uid in w.resources
  {
    var spec, reply := w.resources[uid].spec, SearchReply(cfg, w, uid, o);
    && Proceeds(cfg, w, uid) && o.kubeReads.AllRead? && !cfg.dryRun
    && Management(cfg, spec).Manage?
    && reply.Success? && reply.record.Some? && Drifted(spec, reply.record.value)
  }

  predicate CallsDelete(cfg: Config, w: World, uid: Uid, o: Outcome)
    requires uid in w.resources
  {
    var ch, reply := w.resources[uid], SearchReply(cfg, w, uid, o);
    && !o.kubeReads.ObjectUnread? && !o.kubeReads.ZoneUnread?
    && ch.deleting && ch.finalizer && ch.status.id != 0 && ZoneOf(cfg, w, uid).Some? && !cfg.dryRun
    && !Management(cfg, ch.spec).Observe? && !Deletion(cfg, ch.spec).Never?
    && (Deletion(cfg, ch.spec).OwnOnly? ==> reply.Success? && ShouldDeleteInCF(ch.status.id, reply.record))
  }

  // The one call that writes, if any.
  function WriteCall(cfg: Config, w: World, uid: Uid, o: Outcome): Option<Call>
    requires uid in w.resources
  {
    var ch, zone := w.resources[uid], ZoneOf(cfg, w, uid);
    if CallsNew(cfg, w, uid, o) then Some(NewCall(cfg, zone.value.id, ch.spec))
    else if CallsEdit(cfg, w, uid, o) then
      Some(EditCall(zone.value.id, ch.spec, SearchReply(cfg, w, uid, o).record.value))
    else if CallsDelete(cfg, w, uid, o) then Some(Delete(zone.value.id, ch.status.id))
    else None
  }

  // A reconcile changes Cloudflare by its one writing call and its retries, or not at all.
  lemma OneWritingCall(cfg: Config, w: World, uid: Uid, o: Outcome)
    requires uid in w.resources
    ensures var call := WriteCall(cfg, w, uid, o);
            Step(cfg, w, uid, o).cloud
            == if call.Some? then Retry(w.cloud, call.value, o.write, cfg.maxRetries).cloud else w.cloud
  {
  }

  // What the search answers is true of the store.
  lemma SearchReplyIsTruthful(cfg: Config, w: World, uid: Uid, o: Outcome)
    requires uid in w.resources && ValidOutcome(cfg, w, uid, o)
    ensures var zone, reply := ZoneOf(cfg, w, uid), SearchReply(cfg, w, uid, o);
            zone.Some? && reply.Success? ==>
              Search(w.cloud.records, zone.value.id, w.resources[uid].spec.hostname, reply.record)
  {
    FindChangesNothing(w.cloud, o.pages, w.resources[uid].spec.hostname, o.lookup, cfg.maxRetries);
    SearchIsTruthful(cfg, w, uid, o);
  }

  /** While the domain is not known every origin passes. Then an origin is in the zone exactly
      when it is the domain or a name below it: a shared ending that does not start at a label
      is not enough. */
  lemma OriginMatchesAtLabel(domain: string, origin: string)
    ensures OriginInZone(domain, origin) <==>
            domain == "" || exists below :: origin == below + domain && (below == "" || below[|below| - 1] == '.')
  {
    if domain != "" && OriginInZone(domain, origin) {
      var below := origin[..|origin| - |domain|];
      if origin != domain {
        assert origin[|below| - 1..] == "." + domain;
        assert origin == origin[..|below| - 1] + origin[|below| - 1..];
        assert below == origin[..|below| - 1] + ".";
      }
      assert origin == below + domain;
    }
    if domain == "" {
    } else if below :| origin == below + domain && (below == "" || below[|below| - 1] == '.') {
      if below == "" {
        assert origin == domain;
      } else {
        assert origin[|below| - 1..] == "." + domain;
      }
    }
  }

  // The world in which the CR has this management policy.
  function WithPolicy(w: World, uid: Uid, policy: ManagementPolicy): World
    requires uid in w.resources
  {
    var ch := w.resources[uid];
    w.(resources := w.resources[uid := ch.(spec := ch.spec.(managementPolicy := policy))])
  }

  lemma PolicyKeepsOpposed(w: World, uid: Uid, policy: ManagementPolicy)
    requires uid in w.resources
    ensures Opposed(WithPolicy(w, uid, policy).resources, uid) == Opposed(w.resources, uid)
  {
    var w' := WithPolicy(w, uid, policy);
    forall peer | peer in w.resources && peer != uid ensures w'.resources[peer] == w.resources[peer] {
    }
    if Opposed(w.resources, uid) {
      var peer :| peer in w.resources && peer != uid && w.resources[peer].status.id != 0
                  && w.resources[peer].spec.hostname == w.resources[uid].spec.hostname;
      assert peer in w'.resources;
    }
  }

  // The policy plays no part before the reconcile gets to Cloudflare.
  lemma PolicyMattersAtCloudflare(cfg: Config, w: World, uid: Uid, o: Outcome, policy: ManagementPolicy)
    requires uid in w.resources && !w.resources[uid].deleting
    ensures var w' := WithPolicy(w, uid, policy);
            if Proceeds(cfg, w, uid) && o.kubeReads.AllRead? then
              var zone := ZoneOf(cfg, w, uid).value;
              && Reconcile(cfg, w, uid, o) == ReconcileCloudflareState(cfg, zone, w.cloud, w.resources[uid], o)
              && Reconcile(cfg, w', uid, o) == ReconcileCloudflareState(cfg, zone, w.cloud, w'.resources[uid], o)
            else Reconcile(cfg, w, uid, o) == Reconcile(cfg, w', uid, o)
  {
    PolicyKeepsOpposed(w, uid, policy);
  }

  // At Cloudflare only an edit tells the policies apart that provision.
  lemma PoliciesThatProvision(cfg: Config, zone: ZoneInfo, cloud: Cloud, ch: Resource, ch': Resource, o: Outcome)
    requires ch'.(spec := ch'.spec.(managementPolicy := ch.spec.managementPolicy)) == ch
    requires Management(cfg, ch.spec).UnknownManagement? && !Management(cfg, ch'.spec).Observe?
    requires var look := Retry(cloud, Find(o.pages, ch.spec.hostname), o.lookup, cfg.maxRetries);
             Management(cfg, ch'.spec).Manage? && !cfg.dryRun && look.reply.Success? && look.reply.record.Some? ==>
               !Drifted(ch.spec, look.reply.record.value)
    ensures ReconcileCloudflareState(cfg, zone, cloud, ch, o) == ReconcileCloudflareState(cfg, zone, cloud, ch', o)
  {
  }

  /** A policy that bypassed admission acts like create: the turn of a CR that is not
      terminating is the one a create policy gives. It is the one of manage if and only if
      manage would not edit. */
  lemma UnknownPolicyActsLikeCreate(cfg: Config, w: World, uid: Uid, o: Outcome)
    requires uid in w.resources && ValidOutcome(cfg, w, uid, o)
    requires w.resources[uid].spec.managementPolicy.UnknownManagement? && !w.resources[uid].deleting
    ensures Reconcile(cfg, w, uid, o) == Reconcile(cfg, WithPolicy(w, uid, ManagementPolicy.Create), uid, o)
    ensures var managed := WithPolicy(w, uid, Manage);
            Reconcile(cfg, w, uid, o) == Reconcile(cfg, managed, uid, o) <==> !CallsEdit(cfg, managed, uid, o)
  {
    var ch := w.resources[uid];
    var created, managed := WithPolicy(w, uid, ManagementPolicy.Create), WithPolicy(w, uid, Manage);
    PolicyMattersAtCloudflare(cfg, w, uid, o, ManagementPolicy.Create);
    PolicyMattersAtCloudflare(cfg, w, uid, o, Manage);
    PolicyKeepsOpposed(w, uid, Manage);
    if Proceeds(cfg, w, uid) && o.kubeReads.AllRead? {
      var zone := ZoneOf(cfg, w, uid).value;
      PoliciesThatProvision(cfg, zone, w.cloud, ch, created.resources[uid], o);
      if CallsEdit(cfg, managed, uid, o) {
        EditsTellApart(cfg, w, uid, o);
      } else {
        PoliciesThatProvision(cfg, zone, w.cloud, ch, managed.resources[uid], o);
      }
    }
  }

  // Correcting drift leaves another store or another status than leaving it.
  lemma EditsTellApart(cfg: Config, w: World, uid: Uid, o: Outcome)
    requires uid in w.resources && ValidOutcome(cfg, w, uid, o)
    requires w.resources[uid].spec.managementPolicy.UnknownManagement?
    requires CallsEdit(cfg, WithPolicy(w, uid, Manage), uid, o)
    ensures Reconcile(cfg, w, uid, o) != Reconcile(cfg, WithPolicy(w, uid, Manage), uid, o)
  {
    var managed := WithPolicy(w, uid, Manage);
    var ch, zone := managed.resources[uid], ZoneOf(cfg, w, uid).value;
    var existing := SearchReply(cfg, managed, uid, o).record.value;
    var call := EditCall(zone.id, ch.spec, existing);
    PolicyKeepsOpposed(w, uid, Manage);
    FindChangesNothing(w.cloud, o.pages, ch.spec.hostname, o.lookup, cfg.maxRetries);
    SearchReplyIsTruthful(cfg, w, uid, o);
    assert Reconcile(cfg, managed, uid, o) == AdoptAndCorrect(cfg, zone, w.cloud, ch, existing, o);
    assert Reconcile(cfg, w, uid, o) == AdoptAndCorrect(cfg, zone, w.cloud, w.resources[uid], existing, o);
    assert Reconcile(cfg, w, uid, o).cloud == w.cloud;
    RetriedEdit(w.cloud, call, o.write, cfg.maxRetries);
    var edited := Retry(w.cloud, call, o.write, cfg.maxRetries);
    if edited.reply.Success? {
      EditedMeetsSpec(zone.id, ch.spec, existing, edited.cloud.records[existing.id]);
      assert edited.cloud != w.cloud;
    }
  }
}
