/** The Zone coordinator: initialization, then one drift pass per cycle. */
module ZoneController {
  import opened Types
  import opened Listing
  import opened ZoneDrift
  import opened SSLGauge

  // A Zone as the API server stores it. initialized: the observed generation of the
  // Initialized condition.
  datatype ZoneObject = ZoneObject(id: string, generation: nat, name: string, initialized: Option<nat>)

  // How the outside answers one reconcile. getFails: the read of the Zone fails. fetched: the
  // name from the zone GET, None when it fails after its retries. stored: the status update is
  // stored.
  datatype ZoneOutcome = ZoneOutcome(
    getFails: bool,
    token: bool,
    fetched: Option<string>,
    stored: bool,
    pages: seq<seq<Record>>,
    pagesFailed: bool,
    items: seq<Item>,
    itemsFailed: bool,
    now: Time)

  predicate NeedsInit(zone: ZoneObject) {
    zone.name == "" || zone.initialized.None? || zone.initialized.value < zone.generation
  }

  function Initialize(zone: ZoneObject, name: string): ZoneObject {
    zone.(name := name, initialized := Some(zone.generation))
  }

  // The reconcile reaches the drift pass.
  predicate Proceeds(zone: ZoneObject, o: ZoneOutcome) {
    !o.getFails && o.token && (NeedsInit(zone) ==> o.fetched.Some? && o.stored)
  }

  // The stored Zone after one reconcile.
  function AfterReconcile(zone: ZoneObject, o: ZoneOutcome): ZoneObject {
    if Proceeds(zone, o) && NeedsInit(zone) then Initialize(zone, o.fetched.value) else zone
  }

  // The stored Zone after several, with no edit of its spec in between.
  function AfterAll(zone: ZoneObject, outcomes: seq<ZoneOutcome>): ZoneObject
    decreases outcomes
  {
    if outcomes == [] then zone else AfterAll(AfterReconcile(zone, outcomes[0]), outcomes[1..])
  }

  // The reconcile gives a Zone that needs it a name.
  predicate Names(zone: ZoneObject, o: ZoneOutcome) {
    Proceeds(zone, o) && NeedsInit(zone) && o.fetched.value != ""
  }

  /** The domain that origins are checked against is the first non-empty name that a reconcile
      of the uninitialized Zone fetches and stores: later reconciles, whatever Cloudflare
      answers then, do not alter it, and without such a reconcile the Zone stays
      uninitialized. */
  lemma {:induction false} DomainIsFixed(zone: ZoneObject, outcomes: seq<ZoneOutcome>)
    ensures !NeedsInit(zone) ==> AfterAll(zone, outcomes) == zone
    ensures NeedsInit(AfterAll(zone, outcomes)) <==> NeedsInit(zone) && forall o :: o in outcomes ==> !Names(zone, o)
    ensures forall k :: 0 <= k < |outcomes| && Names(zone, outcomes[k])
                        && (forall j :: 0 <= j < k ==> !Names(zone, outcomes[j])) ==>
              AfterAll(zone, outcomes) == Initialize(zone, outcomes[k].fetched.value)
    decreases outcomes
  {
    if outcomes != [] {
      var next, rest := AfterReconcile(zone, outcomes[0]), outcomes[1..];
      DomainIsFixed(next, rest);
      assert forall o :: o in outcomes <==> o == outcomes[0] || o in rest;
      if NeedsInit(zone) && !Names(zone, outcomes[0]) {
        assert NeedsInit(next) && forall o :: Names(next, o) == Names(zone, o);
        forall k | 0 <= k < |outcomes| && Names(zone, outcomes[k])
                   && (forall j :: 0 <= j < k ==> !Names(zone, outcomes[j]))
          ensures AfterAll(zone, outcomes) == Initialize(zone, outcomes[k].fetched.value)
        {
          assert rest[k - 1] == outcomes[k];
          forall j | 0 <= j < k - 1 ensures !Names(next, rest[j]) {
            assert rest[j] == outcomes[j + 1];
          }
        }
      }
    }
  }

  // The spec of the Zone is edited.
  function EditZone(zone: ZoneObject): ZoneObject {
    zone.(generation := zone.generation + 1)
  }

  // The stored Zone after stretches of reconciles, with an edit of its spec between each two.
  function AfterEdits(zone: ZoneObject, first: seq<ZoneOutcome>, stretches: seq<seq<ZoneOutcome>>): ZoneObject
    decreases stretches
  {
    var after := AfterAll(zone, first);
    if stretches == [] then after else AfterEdits(EditZone(after), stretches[0], stretches[1..])
  }

  // The reconcile fetches and stores a name if the Zone needs one, whatever its state.
  predicate Fetches(o: ZoneOutcome) {
    !o.getFails && o.token && o.fetched.Some? && o.stored && o.fetched.value != ""
  }

  // The Initialized condition is about a generation that the Zone has or had.
  predicate Current(zone: ZoneObject) {
    zone.initialized.Some? ==> zone.initialized.value <= zone.generation
  }

  lemma {:induction false} AfterAllIsCurrent(zone: ZoneObject, outcomes: seq<ZoneOutcome>)
    requires Current(zone)
    ensures Current(AfterAll(zone, outcomes))
    decreases outcomes
  {
    if outcomes != [] {
      AfterAllIsCurrent(AfterReconcile(zone, outcomes[0]), outcomes[1..]);
    }
  }

  /** Every edit of the spec has the name fetched again, and only the reconciles since the last
      edit count: the domain is the first non-empty name that one of them fetches and stores,
      and until then the Zone is uninitialized again. */
  lemma {:induction false} SpecEditRefetches(zone: ZoneObject, first: seq<ZoneOutcome>,
                                             stretches: seq<seq<ZoneOutcome>>)
    requires Current(zone) && stretches != []
    ensures var zone', last := AfterEdits(zone, first, stretches), stretches[|stretches| - 1];
            && (NeedsInit(zone') <==> forall o :: o in last ==> !Fetches(o))
            && (forall k :: 0 <= k < |last| && Fetches(last[k]) && (forall j :: 0 <= j < k ==> !Fetches(last[j])) ==>
                  zone'.name == last[k].fetched.value)
    decreases stretches
  {
    var edited := EditZone(AfterAll(zone, first));
    AfterAllIsCurrent(zone, first);
    if |stretches| == 1 {
      DomainIsFixed(edited, stretches[0]);
      assert AfterEdits(edited, stretches[0], stretches[1..]) == AfterAll(edited, stretches[0]);
      assert forall o :: Names(edited, o) == Fetches(o);
    } else {
      SpecEditRefetches(edited, stretches[0], stretches[1..]);
    }
  }

  class ZoneReconciler {
    const ref: ZoneRef
    const gauges: ZoneGauges
    const ssl: SSLProvisioning
    // The stored Zone; None when it does not exist.
    var zone: Option<ZoneObject>
    // zone_initialized
    var initializedGauge: Option<nat>

    constructor (ref: ZoneRef, gauges: ZoneGauges, ssl: SSLProvisioning, zone: Option<ZoneObject>)
      ensures this.ref == ref && this.gauges == gauges && this.ssl == ssl && this.zone == zone
      ensures initializedGauge == None
    {
      this.ref, this.gauges, this.ssl, this.zone, initializedGauge := ref, gauges, ssl, zone, None;
    }

    method InitializeZone(o: ZoneOutcome) returns (err: bool)
      requires zone.Some?
      modifies this`zone, this`initializedGauge
      ensures err == !(o.fetched.Some? && o.stored)
      ensures err ==> zone == old(zone) && initializedGauge == old(initializedGauge)
      ensures !err ==> zone == Some(Initialize(old(zone).value, o.fetched.value)) && initializedGauge == Some(1)
    {
      if o.fetched.None? {
        return true;
      }
      var updated := zone.value.(name := o.fetched.value);
      updated := updated.(initialized := Some(updated.generation));
      if !o.stored {
        return true;
      }
      zone := Some(updated);
      initializedGauge := Some(1);
      return false;
    }

    // The drift pass of a cycle and the clean-up after it. A failed pass is not an error.
    method RunCycle(o: ZoneOutcome)
      requires ssl.Valid()
      modifies gauges, ssl
      ensures ssl.Valid() && ssl.inFlight == old(ssl.inFlight)
      ensures gauges.sent == old(gauges.sent) + EventsOf(o)
      ensures NothingExpired(o.now)
    {
      var _ := gauges.DetectCustomHostnameDrift(ref, o.pages, o.pagesFailed, o.items, o.itemsFailed);
      ssl.CleanExpired(o.now);
    }

    ghost function EventsOf(o: ZoneOutcome): seq<Uid> {
      if o.pagesFailed || o.itemsFailed then [] else Events(ref, Index(Flatten(o.pages)), o.items)
    }

    // No gauge series outlives its cache entry, but for those just being set.
    ghost predicate NothingExpired(now: Time)
      reads ssl
    {
      forall s :: s in ssl.series ==>
        s in ssl.inFlight || (Key(s) in ssl.cache && now <= ssl.cache[Key(s)].expiresAt)
    }

    // The Zone is gone: no series of it is left but those of customhostname_status.
    method Forget()
      requires ssl.Valid()
      modifies this`initializedGauge, gauges`states, gauges`hostnames, ssl`series
      ensures ssl.Valid()
      ensures initializedGauge == None && gauges.states == map[] && gauges.hostnames == None
      ensures forall s :: s in ssl.series <==> s in old(ssl.series) && s.zone != ref.name
    {
      initializedGauge := None;
      gauges.DeleteSeries();
      ssl.RemoveZone(ref.name);
    }

    /** Reconcile of the Zone: a pass runs exactly when the token is there and the zone is,
        or becomes, initialized. A failed pass is not an error; the Zone is requeued for the
        next cycle all the same. */
    method Reconcile(o: ZoneOutcome) returns (requeue: bool, err: bool)
      requires ssl.Valid()
      modifies this, gauges, ssl
      ensures ssl.Valid() && ssl.inFlight == old(ssl.inFlight)
      ensures o.getFails ==> !requeue && err && unchanged(this) && unchanged(gauges) && unchanged(ssl)
      ensures !o.getFails && !o.token && old(zone).Some? ==>
                !requeue && err && zone == old(zone) && unchanged(gauges) && unchanged(ssl)
      ensures !o.getFails && o.token && old(zone).Some? && !NeedsInit(old(zone).value) ==> requeue && !err
      ensures !o.getFails && old(zone).None? ==>
                && !requeue && !err && zone == None && initializedGauge == None
                && gauges.states == map[] && gauges.hostnames == None && gauges.sent == old(gauges.sent)
                && (forall s :: s in ssl.series <==> s in old(ssl.series) && s.zone != ref.name)
      ensures old(zone).Some? ==>
                && zone == Some(AfterReconcile(old(zone).value, o))
                && requeue == !err == Proceeds(old(zone).value, o)
                && (!o.getFails ==>
                      initializedGauge == Some(if zone.value.initialized.Some? then 1 else 0))
      ensures old(zone).Some? && err ==> unchanged(gauges) && unchanged(ssl)
      ensures old(zone).Some? && !err ==> gauges.sent == old(gauges.sent) + EventsOf(o) && NothingExpired(o.now)
    {
      if o.getFails {
        return false, true;
      }
      if zone.None? {
        Forget();
        return false, false;
      }
      initializedGauge := Some(if zone.value.initialized.None? then 0 else 1);
      if !o.token {
        return false, true;
      }
      if NeedsInit(zone.value) {
        var failed := InitializeZone(o);
        if failed {
          return false, true;
        }
      }
      RunCycle(o);
      return true, false;
    }
  }
}
