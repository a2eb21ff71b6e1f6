/** The coordinator's drift pass: which CRs it enqueues for the worker, and what it counts. */
module ZoneDrift {
  import opened Types
  import opened SSL
  import opened Listing

  datatype CRState = ConflictState | ReadyState | UnhealthyState | PendingState

  predicate IsHostnameConflict(s: Status) {
    s.ready.Some? && s.ready.value.reason.HostnameConflict?
  }

  function StateOf(s: Status): CRState {
    if IsHostnameConflict(s) then ConflictState
    else if s.ready.Some? && s.ready.value.isTrue then ReadyState
    else if s.consecutiveErrors > 0 then UnhealthyState
    else PendingState
  }

  predicate RefersToZone(spec: Spec, zone: ZoneRef) {
    spec.zoneRef.name == zone.name && (spec.zoneRef.namespace == "" || spec.zoneRef.namespace == zone.namespace)
  }

  function Lookup(index: map<string, Record>, hostname: string): Option<Record> {
    if hostname in index then Some(index[hostname]) else None
  }

  // The pass sends an event for a CR of the zone, given what the bulk map holds for it.
  predicate Enqueues(found: Option<Record>, ch: Resource) {
    match found
    case None => true
    case Some(cf) =>
      if Drifted(ch.spec, cf) then !IsHostnameConflict(ch.status)
      else
        || cf.status != ch.status.hostnameStatus
        || ChangedFields(ch.status.ssl, cf.ssl) != {}
        || ch.status.consecutiveErrors > 0
  }

  predicate Selects(index: map<string, Record>, ch: Resource) {
    Enqueues(Lookup(index, ch.spec.hostname), ch)
  }

  // A CR as the Kubernetes list returns it.
  datatype Item = Item(uid: Uid, resource: Resource)

  // The events of a pass, in list order.
  function Events(zone: ZoneRef, index: map<string, Record>, items: seq<Item>): seq<Uid> {
    if items == [] then []
    else
      var last := items[|items| - 1];
      Events(zone, index, items[..|items| - 1])
      + if RefersToZone(last.resource.spec, zone) && Selects(index, last.resource) then [last.uid] else []
  }

  // The number of CRs of the zone in a state.
  function CountState(zone: ZoneRef, items: seq<Item>, state: CRState): nat {
    if items == [] then 0
    else
      var last := items[|items| - 1].resource;
      CountState(zone, items[..|items| - 1], state)
      + if RefersToZone(last.spec, zone) && StateOf(last.status) == state then 1 else 0
  }

  function CountReferring(zone: ZoneRef, items: seq<Item>): nat {
    if items == [] then 0
    else
      CountReferring(zone, items[..|items| - 1])
      + if RefersToZone(items[|items| - 1].resource.spec, zone) then 1 else 0
  }

  // The hostnames that have a CR.
  ghost function HostnamesOf(zone: ZoneRef, items: seq<Item>): set<string> {
    set item | item in items && RefersToZone(item.resource.spec, zone) :: item.resource.spec.hostname
  }

  // ---- The pass ----

  // The hostnames with this Cloudflare status.
  ghost function WithStatus(index: map<string, Record>, hostnames: set<string>, status: string): set<string> {
    set h | h in hostnames && h in index && index[h].status == status
  }

  ghost function Sum(counts: map<string, nat>): nat {
    if counts == map[] then 0
    else
      var key :| key in counts;
      counts[key] + Sum(counts - {key})
  }

  lemma {:induction false} SumSplits(counts: map<string, nat>, key: string)
    requires key in counts
    ensures Sum(counts) == counts[key] + Sum(counts - {key})
    decreases |counts|
  {
    var k :| k in counts && Sum(counts) == counts[k] + Sum(counts - {k});
    if k != key {
      SumSplits(counts - {k}, key);
      SumSplits(counts - {key}, k);
      assert counts - {k} - {key} == counts - {key} - {k};
    }
  }

  function Raise(counts: map<string, nat>, key: string): map<string, nat> {
    counts[key := (if key in counts then counts[key] else 0) + 1]
  }

  lemma SumOfRaise(counts: map<string, nat>, key: string)
    ensures Sum(Raise(counts, key)) == Sum(counts) + 1
  {
    var raised := Raise(counts, key);
    SumSplits(raised, key);
    if key in counts {
      SumSplits(counts, key);
      assert raised - {key} == counts - {key};
    } else {
      assert raised - {key} == counts;
    }
  }

  lemma {:induction false} SumOfZeros(counts: map<string, nat>)
    requires forall key :: key in counts ==> counts[key] == 0
    ensures Sum(counts) == 0
    decreases |counts|
  {
    if counts != map[] {
      var k :| k in counts && Sum(counts) == counts[k] + Sum(counts - {k});
      SumOfZeros(counts - {k});
    }
  }

  datatype HostnameCounts = HostnameCounts(managed: nat, orphan: nat, drifted: nat, total: nat)

  /** The gauges of one Zone, and the events it has sent. */
  class ZoneGauges {
    // The common Cloudflare statuses, whose series are set in every pass.
    const initialStatuses: set<string>
    // customhostnames{state}
    var states: map<CRState, nat>
    // customhostname_status{status}: a series that is not set again keeps its value
    var statuses: map<string, nat>
    // zone_customhostnames{type}
    var hostnames: Option<HostnameCounts>
    // drift_detection_errors_total{source}
    var cfListErrors: nat
    var k8sListErrors: nat
    // Every send to the drift channel, in order; DriftChannel says what becomes of them.
    var sent: seq<Uid>

    constructor ()
      ensures sent == [] && states == map[] && statuses == map[] && hostnames == None
      ensures initialStatuses == {"active", "pending", "active_redeploying", "blocked", "moved", "deleted"}
    {
      initialStatuses := {"active", "pending", "active_redeploying", "blocked", "moved", "deleted"};
      states, statuses, sent := map[], map[], [];
      hostnames, cfListErrors, k8sListErrors := None, 0, 0;
    }

    // The decision for one CR of the zone.
    method Consider(index: map<string, Record>, uid: Uid, ch: Resource) returns (count: nat)
      modifies this`sent
      ensures sent == old(sent) + (if Selects(index, ch) then [uid] else [])
      ensures count == if Selects(index, ch) then 1 else 0
    {
      if ch.spec.hostname !in index {
        sent := sent + [uid];
        return 1;
      }
      var cf := index[ch.spec.hostname];
      if cf.originServer != ch.spec.originServer || SniDrifted(cf.originSNI, ch.spec)
         || SslDrifted(cf.ssl.config, ch.spec.ssl) {
        if IsHostnameConflict(ch.status) {
          return 0;
        }
        sent := sent + [uid];
        return 1;
      } else if cf.status != ch.status.hostnameStatus {
        sent := sent + [uid];
        return 1;
      } else if ChangedFields(ch.status.ssl, cf.ssl) != {} {
        sent := sent + [uid];
        return 1;
      } else if ch.status.consecutiveErrors > 0 {
        sent := sent + [uid];
        return 1;
      }
      return 0;
    }

    /** The Zone is gone: its series go, all but customhostname_status. */
    method DeleteSeries()
      modifies this`states, this`hostnames
      ensures states == map[] && hostnames == None
    {
      states, hostnames := map[], None;
    }

    // The pass over the CRs: state counts, known hostnames, events.
    method Enqueue(zone: ZoneRef, index: map<string, Record>, items: seq<Item>)
      returns (stateCounts: map<CRState, nat>, crHostnames: set<string>, count: nat)
      modifies this`sent
      ensures sent == old(sent) + Events(zone, index, items)
      ensures count == |Events(zone, index, items)|
      ensures crHostnames == HostnamesOf(zone, items)
      ensures CountsStates(zone, items, stateCounts) && PartitionsStates(zone, items, stateCounts)
    {
      stateCounts := map[ReadyState := 0, PendingState := 0, UnhealthyState := 0, ConflictState := 0];
      crHostnames, count := {}, 0;
      for i := 0 to |items|
        invariant Enqueued(zone, index, items[..i], old(sent), sent, count, crHostnames, stateCounts)
      {
        var ch := items[i].resource;
        EnqueueOne(zone, index, items, i, old(sent), sent, count, crHostnames, stateCounts);
        if !RefersToZone(ch.spec, zone) {
          continue;
        }
        var state := StateOf(ch.status);
        stateCounts := stateCounts[state := stateCounts[state] + 1];
        crHostnames := crHostnames + {ch.spec.hostname};
        var n := Consider(index, items[i].uid, ch);
        count := count + n;
      }
      assert items[..|items|] == items;
      StatesPartition(zone, items);
    }

    // The pass over the Cloudflare hostnames: managed, orphans, managed by status.
    method Tally(index: map<string, Record>, initial: set<string>, crHostnames: set<string>)
      returns (managedCount: nat, orphanCount: nat, statusCounts: map<string, nat>)
      ensures managedCount == |index.Keys * crHostnames|
      ensures managedCount + orphanCount == |index|
      ensures CountsStatuses(index, initial, crHostnames, statusCounts)
      ensures Sum(statusCounts) == managedCount
    {
      managedCount, orphanCount := 0, 0;
      statusCounts := map s | s in initial :: 0;
      var left := index.Keys;
      // The managed hostnames, and the orphans, that the loop has seen.
      ghost var managedDone: set<string>, orphanDone: set<string> := {}, {};
      StartTally(index, initial, crHostnames, statusCounts);
      while left != {}
        invariant Tallied(index, initial, crHostnames, left, managedDone, orphanDone, statusCounts)
        invariant managedCount == |managedDone| && orphanCount == |orphanDone|
        decreases left
      {
        var hostname :| hostname in left;
        TallyOne(index, initial, crHostnames, left, managedDone, orphanDone, statusCounts, hostname);
        left := left - {hostname};
        if hostname in crHostnames {
          managedCount := managedCount + 1;
          statusCounts := Raise(statusCounts, index[hostname].status);
          managedDone := managedDone + {hostname};
        } else {
          orphanCount := orphanCount + 1;
          orphanDone := orphanDone + {hostname};
        }
      }
      EndTally(index, initial, crHostnames, managedDone, orphanDone, statusCounts);
    }

    // The first half of the pass, over the CRs.
    method CompareCRs(zone: ZoneRef, index: map<string, Record>, items: seq<Item>)
      returns (crHostnames: set<string>, drifted: nat)
      modifies this`sent, this`states
      ensures crHostnames == HostnamesOf(zone, items) && drifted == |Events(zone, index, items)|
      ensures CRsCompared(zone, index, items)
    {
      var stateCounts, known, count := Enqueue(zone, index, items);
      states, crHostnames, drifted := stateCounts, known, count;
    }

    twostate predicate CRsCompared(zone: ZoneRef, index: map<string, Record>, items: seq<Item>)
      reads this
    {
      && sent == old(sent) + Events(zone, index, items)
      && CountsStates(zone, items, states) && PartitionsStates(zone, items, states)
    }

    // The second half, over the Cloudflare hostnames.
    method CompareRecords(index: map<string, Record>, crHostnames: set<string>, initial: set<string>, drifted: nat)
      modifies this`statuses, this`hostnames
      ensures RecordsCompared(index, crHostnames, initial, drifted)
    {
      var managedCount, orphanCount, statusCounts := Tally(index, initial, crHostnames);
      Publish(index, initial, crHostnames, statusCounts, statuses);
      statuses := statuses + statusCounts;
      hostnames := Some(HostnameCounts(managedCount, orphanCount, drifted, |index|));
    }

    twostate predicate RecordsCompared(index: map<string, Record>, crHostnames: set<string>, initial: set<string>,
                                       drifted: nat)
      reads this
    {
      && hostnames.Some?
      && hostnames.value.drifted == drifted
      && hostnames.value.total == |index| == hostnames.value.managed + hostnames.value.orphan
      && hostnames.value.managed == |index.Keys * crHostnames|
      && PublishesStatuses(index, initial, crHostnames, old(statuses), statuses)
    }

    /** detectCustomHostnameDrift: if a list fails, no event is sent and no hostname gauge
        changes. */
    method DetectCustomHostnameDrift(zone: ZoneRef, pages: seq<seq<Record>>, pagesFailed: bool,
                                     items: seq<Item>, itemsFailed: bool)
      returns (err: bool)
      modifies this
      ensures err == (pagesFailed || itemsFailed)
      ensures cfListErrors == old(cfListErrors) + (if pagesFailed then 1 else 0)
      ensures k8sListErrors == old(k8sListErrors) + (if itemsFailed && !pagesFailed then 1 else 0)
      ensures err ==>
                sent == old(sent) && states == old(states) && statuses == old(statuses) && hostnames == old(hostnames)
      ensures !err ==>
                && CRsCompared(zone, Index(Flatten(pages)), items)
                && RecordsCompared(Index(Flatten(pages)), HostnamesOf(zone, items), initialStatuses,
                                   |Events(zone, Index(Flatten(pages)), items)|)
    {
      var index, listErr := ListCloudflareHostnames(pages, pagesFailed);
      if listErr {
        cfListErrors := cfListErrors + 1;
        return true;
      }
      if itemsFailed {
        k8sListErrors := k8sListErrors + 1;
        return true;
      }
      var crHostnames, drifted := CompareCRs(zone, index, items);
      CompareRecords(index, crHostnames, initialStatuses, drifted);
      return false;
    }
  }

  ghost predicate CountsStates(zone: ZoneRef, items: seq<Item>, counts: map<CRState, nat>) {
    && counts.Keys == {ReadyState, PendingState, UnhealthyState, ConflictState}
    && (forall state :: state in counts ==> counts[state] == CountState(zone, items, state))
  }

  // The hostnames are what is left, what is managed and what is orphaned, and the managed
  // ones are counted.
  ghost predicate Tallied(index: map<string, Record>, initial: set<string>, known: set<string>,
                          left: set<string>, managed: set<string>, orphans: set<string>, counts: map<string, nat>)
  {
    && Parted(index.Keys, known, left, managed, orphans)
    && CountsStatuses(index, initial, managed, counts)
    && Sum(counts) == |managed|
  }

  ghost predicate Parted(keys: set<string>, known: set<string>,
                         left: set<string>, managed: set<string>, orphans: set<string>)
  {
    && keys == left + managed + orphans
    && left !! managed && left !! orphans
    && managed <= known && orphans !! known
  }

  lemma PartOne(keys: set<string>, known: set<string>,
                left: set<string>, managed: set<string>, orphans: set<string>, h: string)
    requires Parted(keys, known, left, managed, orphans) && h in left
    ensures h in keys
    ensures h in known ==>
              && Parted(keys, known, left - {h}, managed + {h}, orphans)
              && h !in managed && |managed + {h}| == |managed| + 1
    ensures h !in known ==>
              Parted(keys, known, left - {h}, managed, orphans + {h}) && |orphans + {h}| == |orphans| + 1
  {
  }

  lemma StartTally(index: map<string, Record>, initial: set<string>, known: set<string>, counts: map<string, nat>)
    requires counts == map s | s in initial :: 0
    ensures Tallied(index, initial, known, index.Keys, {}, {}, counts)
  {
    SumOfZeros(counts);
    forall s ensures WithStatus(index, {}, s) == {} {
    }
  }

  lemma TallyOne(index: map<string, Record>, initial: set<string>, known: set<string>,
                 left: set<string>, managed: set<string>, orphans: set<string>, counts: map<string, nat>, h: string)
    requires Tallied(index, initial, known, left, managed, orphans, counts) && h in left
    ensures h in index
    ensures h in known ==>
              && Tallied(index, initial, known, left - {h}, managed + {h}, orphans, Raise(counts, index[h].status))
              && |managed + {h}| == |managed| + 1
    ensures h !in known ==>
              && Tallied(index, initial, known, left - {h}, managed, orphans + {h}, counts)
              && |orphans + {h}| == |orphans| + 1
  {
    PartOne(index.Keys, known, left, managed, orphans, h);
    if h in known {
      CountOne(index, initial, managed, counts, h);
    }
  }

  lemma CountOne(index: map<string, Record>, initial: set<string>, managed: set<string>, counts: map<string, nat>,
                 h: string)
    requires CountsStatuses(index, initial, managed, counts) && h in index && h !in managed
    ensures CountsStatuses(index, initial, managed + {h}, Raise(counts, index[h].status))
    ensures Sum(Raise(counts, index[h].status)) == Sum(counts) + 1
  {
    SumOfRaise(counts, index[h].status);
    StatusesGrow(index, initial, managed, h, counts);
  }

  lemma EndTally(index: map<string, Record>, initial: set<string>, known: set<string>,
                 managed: set<string>, orphans: set<string>, counts: map<string, nat>)
    requires Tallied(index, initial, known, {}, managed, orphans, counts)
    ensures |managed| == |index.Keys * known| == Sum(counts) && |managed| + |orphans| == |index|
    ensures CountsStatuses(index, initial, known, counts)
  {
    assert managed == index.Keys * known && index.Keys == managed + orphans;
    SameStatuses(index, initial, known, counts);
  }

  // The state counts add up to the CRs of the zone.
  ghost predicate PartitionsStates(zone: ZoneRef, items: seq<Item>, counts: map<CRState, nat>)
    requires counts.Keys == {ReadyState, PendingState, UnhealthyState, ConflictState}
  {
    counts[ReadyState] + counts[PendingState] + counts[UnhealthyState] + counts[ConflictState]
    == CountReferring(zone, items)
  }

  // The counts of the managed hostnames by status, with the initial zeros.
  ghost predicate CountsStatuses(index: map<string, Record>, initial: set<string>, hostnames: set<string>,
                                 counts: map<string, nat>)
  {
    && (forall s :: s in counts <==> s in initial || WithStatus(index, hostnames, s) != {})
    && (forall s :: s in counts ==> counts[s] == |WithStatus(index, hostnames, s)|)
  }

  // A status that is common or present gets its count; the series of any other status
  // keeps the value it had.
  ghost predicate PublishesStatuses(index: map<string, Record>, initial: set<string>, hostnames: set<string>,
                                    before: map<string, nat>, after: map<string, nat>)
  {
    && (forall s :: s in after <==> s in initial || WithStatus(index, hostnames, s) != {} || s in before)
    && (forall s :: s in after ==>
          after[s] == if s in initial || WithStatus(index, hostnames, s) != {}
                      then |WithStatus(index, hostnames, s)| else before[s])
  }

  lemma Publish(index: map<string, Record>, initial: set<string>, hostnames: set<string>, counts: map<string, nat>,
                before: map<string, nat>)
    requires CountsStatuses(index, initial, hostnames, counts)
    ensures PublishesStatuses(index, initial, hostnames, before, before + counts)
  {
  }

  lemma StatusesGrow(index: map<string, Record>, initial: set<string>, hostnames: set<string>, hostname: string,
                     counts: map<string, nat>)
    requires hostname in index && hostname !in hostnames && CountsStatuses(index, initial, hostnames, counts)
    ensures CountsStatuses(index, initial, hostnames + {hostname}, Raise(counts, index[hostname].status))
  {
    var status := index[hostname].status;
    var more := hostnames + {hostname};
    assert WithStatus(index, more, status) == WithStatus(index, hostnames, status) + {hostname};
    assert hostname !in WithStatus(index, hostnames, status);
    forall s | s != status ensures WithStatus(index, more, s) == WithStatus(index, hostnames, s) {
    }
  }

  // Hostnames outside the index have no status.
  lemma SameStatuses(index: map<string, Record>, initial: set<string>, hostnames: set<string>, counts: map<string, nat>)
    requires CountsStatuses(index, initial, index.Keys * hostnames, counts)
    ensures CountsStatuses(index, initial, hostnames, counts)
  {
    forall s ensures WithStatus(index, index.Keys * hostnames, s) == WithStatus(index, hostnames, s) {
    }
  }

  // The pass over these CRs is done.
  ghost predicate Enqueued(zone: ZoneRef, index: map<string, Record>, items: seq<Item>,
                           before: seq<Uid>, sent: seq<Uid>, count: nat, hostnames: set<string>,
                           counts: map<CRState, nat>)
  {
    && sent == before + Events(zone, index, items)
    && count == |Events(zone, index, items)|
    && hostnames == HostnamesOf(zone, items)
    && CountsStates(zone, items, counts)
  }

  lemma EnqueueOne(zone: ZoneRef, index: map<string, Record>, items: seq<Item>, i: nat,
                   before: seq<Uid>, sent: seq<Uid>, count: nat, hostnames: set<string>, counts: map<CRState, nat>)
    requires i < |items| && Enqueued(zone, index, items[..i], before, sent, count, hostnames, counts)
    ensures var item := items[i];
            var state := StateOf(item.resource.status);
            if !RefersToZone(item.resource.spec, zone) then
              Enqueued(zone, index, items[..i + 1], before, sent, count, hostnames, counts)
            else
              && state in counts
              && var selected := Selects(index, item.resource);
              Enqueued(zone, index, items[..i + 1], before, sent + (if selected then [item.uid] else []),
                       count + (if selected then 1 else 0), hostnames + {item.resource.spec.hostname},
                       counts[state := counts[state] + 1])
  {
    OneMoreItem(zone, index, items, i);
    CountOneState(zone, items, i, counts);
  }

  lemma OneMoreItem(zone: ZoneRef, index: map<string, Record>, items: seq<Item>, i: nat)
    requires i < |items|
    ensures var before, after, item := items[..i], items[..i + 1], items[i];
            var refers := RefersToZone(item.resource.spec, zone);
            && Events(zone, index, after)
               == Events(zone, index, before) + (if refers && Selects(index, item.resource) then [item.uid] else [])
            && HostnamesOf(zone, after)
               == HostnamesOf(zone, before) + (if refers then {item.resource.spec.hostname} else {})
  {
    var before, after := items[..i], items[..i + 1];
    assert after == before + [items[i]] && after[..i] == before;
    assert forall item :: item in after <==> item in before || item == items[i];
  }

  lemma CountOneState(zone: ZoneRef, items: seq<Item>, i: nat, counts: map<CRState, nat>)
    requires i < |items| && CountsStates(zone, items[..i], counts)
    ensures var ch := items[i].resource;
            var state := StateOf(ch.status);
            CountsStates(zone, items[..i + 1],
                         if RefersToZone(ch.spec, zone) then counts[state := counts[state] + 1] else counts)
  {
    assert items[..i + 1][..i] == items[..i];
  }

  /** The four states partition the CRs of the zone. */
  lemma {:induction false} StatesPartition(zone: ZoneRef, items: seq<Item>)
    ensures CountState(zone, items, ReadyState) + CountState(zone, items, PendingState)
            + CountState(zone, items, UnhealthyState) + CountState(zone, items, ConflictState)
            == CountReferring(zone, items)
  {
    if items != [] {
      StatesPartition(zone, items[..|items| - 1]);
    }
  }

  /** An event is sent for exactly the CRs that refer to the zone and meet the test. */
  lemma {:induction false} EventsAreExact(zone: ZoneRef, index: map<string, Record>, items: seq<Item>, uid: Uid)
    ensures uid in Events(zone, index, items) <==>
            exists item :: item in items && item.uid == uid && RefersToZone(item.resource.spec, zone)
                           && Selects(index, item.resource)
  {
    if items != [] {
      var init, last := items[..|items| - 1], items[|items| - 1];
      EventsAreExact(zone, index, init, uid);
      assert items == init + [last];
    }
  }

  // The CRs of the zone in a state, by their places in the list.
  ghost function PlacesOf(zone: ZoneRef, items: seq<Item>, state: CRState): set<nat> {
    set i: nat | i < |items| && RefersToZone(items[i].resource.spec, zone) && StateOf(items[i].resource.status) == state
  }

  /** One more item adds its own place, if it is in the state, and keeps the places before it. */
  lemma PlacesStep(zone: ZoneRef, init: seq<Item>, item: Item, state: CRState)
    ensures var counted := RefersToZone(item.resource.spec, zone) && StateOf(item.resource.status) == state;
            PlacesOf(zone, init + [item], state)
            == PlacesOf(zone, init, state) + if counted then {|init|} else {}
  {
    var items := init + [item];
    forall i: nat | i < |init|
      ensures i in PlacesOf(zone, items, state) <==> i in PlacesOf(zone, init, state)
    {
      assert items[i] == init[i];
    }
  }

  /** The count of a state is the number of CRs of the zone in it, and no CR of another zone,
      or in another state, is in it. */
  lemma {:induction false} StateCountIsExact(zone: ZoneRef, items: seq<Item>, state: CRState)
    ensures CountState(zone, items, state) == |PlacesOf(zone, items, state)|
  {
    if items != [] {
      var n := |items| - 1;
      var init := items[..n];
      StateCountIsExact(zone, init, state);
      assert items == init + [items[n]];
      PlacesStep(zone, init, items[n], state);
    }
  }

  /** A hostname is known to the pass exactly if a CR of the zone has it: one that only CRs of
      other zones have is counted as an orphan. */
  lemma KnownHostnamesAreOwn(zone: ZoneRef, items: seq<Item>, hostname: string)
    ensures hostname in HostnamesOf(zone, items) <==>
            exists i :: 0 <= i < |items| && items[i].resource.spec.hostname == hostname
                        && items[i].resource.spec.zoneRef.name == zone.name
                        && items[i].resource.spec.zoneRef.namespace in {"", zone.namespace}
  {
    if hostname in HostnamesOf(zone, items) {
      var item :| item in items && RefersToZone(item.resource.spec, zone) && item.resource.spec.hostname == hostname;
    }
  }
}
