/** The create and recreate counters against the createCount of every CR there has ever been. */
module Counters {
  import opened Types
  import opened Worker
  import opened Runs

  // held: the createCount that each removed CR had last.
  ghost function Retire(before: map<Uid, Resource>, after: map<Uid, Resource>, held: map<Uid, nat>): map<Uid, nat> {
    held + map u | u in before && u !in after :: before[u].status.createCount
  }

  ghost function Ledger(s: State, events: seq<Event>, held: map<Uid, nat>): map<Uid, nat>
    requires Feasible(s, events)
    decreases events
  {
    if events == [] then held
    else
      var next := Occur(s, events[0]);
      Ledger(next, events[1..], Retire(s.world.resources, next.world.resources, held))
  }

  // The createCount of a CR, now or when it was removed.
  function LastCount(resources: map<Uid, Resource>, held: map<Uid, nat>, u: Uid): nat {
    if u in resources then resources[u].status.createCount else if u in held then held[u] else 0
  }

  function Operations(t: Tally): nat {
    t.creates + t.recreates
  }

  // createCount counts exactly the operations of the CR, of which the first alone is a create.
  ghost predicate Counted(s: State, held: map<Uid, nat>, u: Uid) {
    var count := LastCount(s.world.resources, held, u);
    TallyOf(s, u) == if count == 0 then Tally(0, 0) else Tally(1, count - 1)
  }

  // No CR is both live and removed, and uids are below nextUid.
  ghost predicate Filed(s: State, held: map<Uid, nat>, u: Uid) {
    && (u in s.tally || u in held || u in s.world.resources ==> u < s.nextUid)
    && (u in held ==> u !in s.world.resources)
  }

  ghost predicate CountsExact(s: State, held: map<Uid, nat>) {
    && (forall u: Uid :: Filed(s, held, u))
    && (forall u: Uid :: Counted(s, held, u))
  }

  lemma OperationsTellCounts(cfg: Config, w: World, uid: Uid, o: Outcome)
    requires uid in w.resources
    ensures var turn, n := Reconcile(cfg, w, uid, o), w.resources[uid].status.createCount;
            && (turn.operation.CreateOperation? ==> n == 0)
            && (turn.operation.RecreateOperation? ==> n > 0)
  {
  }

  // Storing a sound turn moves the count as its operation says.
  lemma StoredTurnCounts(w: World, uid: Uid, turn: Turn)
    requires uid in w.resources && SoundTurn(w, uid, turn)
    ensures var after, n := Store(w.resources, uid, turn.write), w.resources[uid].status.createCount;
            && (uid in after ==> after[uid].status.createCount == n + (if turn.operation.NoOperation? then 0 else 1))
            && (!turn.operation.NoOperation? ==> uid in after)
  {
  }

  // A turn counts an operation exactly when it raises createCount, and tells creates and
  // recreates apart by it.
  lemma TurnCountsExactly(cfg: Config, w: World, uid: Uid, o: Outcome)
    requires WorldInv(w) && uid in w.resources && ValidOutcome(cfg, w, uid, o)
    ensures var turn, n, after := Reconcile(cfg, w, uid, o), w.resources[uid].status.createCount, Step(cfg, w, uid, o);
            && (turn.operation.CreateOperation? ==> n == 0)
            && (turn.operation.RecreateOperation? ==> n > 0)
            && (o.persisted && uid in after.resources ==>
                  after.resources[uid].status.createCount == n + (if turn.operation.NoOperation? then 0 else 1))
            && (!turn.operation.NoOperation? ==> uid in after.resources)
  {
    TurnIsSound(cfg, w, uid, o);
    OperationsTellCounts(cfg, w, uid, o);
    StoredTurnCounts(w, uid, Reconcile(cfg, w, uid, o));
  }

  // Removing a CR keeps its count.
  lemma RetireKeepsCount(before: map<Uid, Resource>, after: map<Uid, Resource>, held: map<Uid, nat>, u: Uid)
    requires u in held ==> u !in before
    ensures var held' := Retire(before, after, held);
            && (u in held' <==> u in held || (u in before && u !in after))
            && LastCount(after, held', u)
               == if u in after then after[u].status.createCount else LastCount(before, held, u)
  {
  }

  // An event that is not the CR's own reconcile leaves its count as it is.
  lemma OtherEventCounts(s: State, e: Event, held: map<Uid, nat>, u: Uid)
    requires Inv(s) && Enabled(s, e) && Filed(s, held, u) && Counted(s, held, u)
    requires e.Work? ==> e.uid != u
    ensures var s', held' := Occur(s, e), Retire(s.world.resources, Occur(s, e).world.resources, held);
            Filed(s', held', u) && Counted(s', held', u)
  {
    var s' := Occur(s, e);
    assert TallyOf(s', u) == TallyOf(s, u) && (u in s'.tally <==> u in s.tally) && s.nextUid <= s'.nextUid;
    RetireKeepsCount(s.world.resources, s'.world.resources, held, u);
    if u in s'.world.resources {
      if e.UserCreate? || e.UserEdit? || e.UserDelete? || e.SetFinalizers? || e.ZonesChange? {
        UserEventLeavesStatuses(s, e, u);
      }
    }
  }

  // The event loses no status write of a reconcile that has created.
  ghost predicate Kept(s: State, e: Event)
    requires Enabled(s, e)
  {
    e.Work? ==> e.o.persisted || Reconcile(e.cfg, s.world, e.uid, e.o).operation.NoOperation?
  }

  // A reconcile that loses its write leaves all CRs as they are.
  lemma LostWrite(cfg: Config, w: World, u: Uid, o: Outcome)
    requires u in w.resources && !o.persisted
    ensures Step(cfg, w, u, o).resources == w.resources
  {
  }

  lemma WorkCounts(s: State, e: Event, held: map<Uid, nat>)
    requires Inv(s) && Enabled(s, e) && e.Work?
    requires Filed(s, held, e.uid) && Counted(s, held, e.uid)
    ensures var s', held' := Occur(s, e), Retire(s.world.resources, Occur(s, e).world.resources, held);
            Filed(s', held', e.uid) && (Counted(s', held', e.uid) <==> Kept(s, e))
  {
    TurnCountsExactly(e.cfg, s.world, e.uid, e.o);
    RetireKeepsCount(s.world.resources, Occur(s, e).world.resources, held, e.uid);
    if !e.o.persisted {
      LostWrite(e.cfg, s.world, e.uid, e.o);
    }
  }

  lemma EventKeepsCountsExact(s: State, e: Event, held: map<Uid, nat>)
    requires Inv(s) && Enabled(s, e) && CountsExact(s, held)
    ensures CountsExact(Occur(s, e), Retire(s.world.resources, Occur(s, e).world.resources, held)) <==> Kept(s, e)
  {
    var s' := Occur(s, e);
    var held' := Retire(s.world.resources, s'.world.resources, held);
    forall u: Uid
      ensures Filed(s', held', u)
      ensures !e.Work? || e.uid != u || Kept(s, e) ==> Counted(s', held', u)
    {
      assert Filed(s, held, u) && Counted(s, held, u);
      if e.Work? && e.uid == u {
        WorkCounts(s, e, held);
      } else {
        OtherEventCounts(s, e, held, u);
      }
    }
    if !Kept(s, e) {
      assert Filed(s, held, e.uid) && Counted(s, held, e.uid);
      WorkCounts(s, e, held);
      assert !Counted(s', held', e.uid);
    }
  }

  // ---- Sums over all CRs there have ever been ----

  ghost function SumBelow(n: nat, f: Uid -> nat): nat {
    if n == 0 then 0 else SumBelow(n - 1, f) + f(n - 1)
  }

  lemma {:induction false} SumsAgree(n: nat, f: Uid -> nat, g: Uid -> nat)
    requires forall u: Uid :: u < n ==> f(u) == g(u)
    ensures SumBelow(n, f) == SumBelow(n, g)
  {
    if n > 0 {
      SumsAgree(n - 1, f, g);
    }
  }

  // All operations ever counted, the creates among them, all createCounts last held, and the
  // number of CRs that were ever created in Cloudflare.
  ghost function AllOperations(s: State): nat {
    SumBelow(s.nextUid, u => Operations(TallyOf(s, u)))
  }

  ghost function AllCreates(s: State): nat {
    SumBelow(s.nextUid, u => TallyOf(s, u).creates)
  }

  ghost function AllCounts(s: State, held: map<Uid, nat>): nat {
    SumBelow(s.nextUid, u => LastCount(s.world.resources, held, u))
  }

  ghost function EverCreated(s: State, held: map<Uid, nat>): nat {
    SumBelow(s.nextUid, u => if LastCount(s.world.resources, held, u) > 0 then 1 else 0)
  }

  lemma TotalsAgree(s: State, held: map<Uid, nat>)
    requires CountsExact(s, held)
    ensures AllOperations(s) == AllCounts(s, held) && AllCreates(s) == EverCreated(s, held)
  {
    forall u: Uid
      ensures LastCount(s.world.resources, held, u) == Operations(TallyOf(s, u))
      ensures TallyOf(s, u).creates == if LastCount(s.world.resources, held, u) > 0 then 1 else 0
    {
      assert Counted(s, held, u);
    }
    SumsAgree(s.nextUid, u => Operations(TallyOf(s, u)), u => LastCount(s.world.resources, held, u));
    SumsAgree(s.nextUid, u => TallyOf(s, u).creates, u => if LastCount(s.world.resources, held, u) > 0 then 1 else 0);
  }

  ghost predicate AllKept(s: State, events: seq<Event>)
    requires Feasible(s, events)
    decreases events
  {
    events == [] || (Kept(s, events[0]) && AllKept(Occur(s, events[0]), events[1..]))
  }

  ghost predicate AlwaysExact(s: State, events: seq<Event>, held: map<Uid, nat>)
    requires Feasible(s, events)
    decreases events
  {
    && CountsExact(s, held)
    && (events == []
        || (var next := Occur(s, events[0]);
            AlwaysExact(next, events[1..], Retire(s.world.resources, next.world.resources, held))))
  }

  /** In every state of a run each CR's createCount is the number of create and recreate
      operations counted for it, if and only if the run loses no status write of a reconcile
      that has created. Over all CRs there have ever been, removed ones included, the
      operations then add up to the createCounts last held, and the creates alone to the
      number of CRs ever created. (Runs.RunsKeepInv gives createCount as a lower bound in all
      other runs.) */
  lemma {:induction false} RunsCountExactly(s: State, events: seq<Event>, held: map<Uid, nat>)
    requires Inv(s) && Feasible(s, events) && CountsExact(s, held)
    ensures AlwaysExact(s, events, held) <==> AllKept(s, events)
    ensures AllKept(s, events) ==>
              var s', held' := Run(s, events), Ledger(s, events, held);
              && CountsExact(s', held')
              && AllOperations(s') == AllCounts(s', held')
              && AllCreates(s') == EverCreated(s', held')
    decreases events
  {
    if events == [] {
      TotalsAgree(s, held);
    } else {
      var next := Occur(s, events[0]);
      var held' := Retire(s.world.resources, next.world.resources, held);
      EventKeepsInv(s, events[0]);
      EventKeepsCountsExact(s, events[0], held);
      if CountsExact(next, held') {
        RunsCountExactly(next, events[1..], held');
      } else {
        assert !AlwaysExact(next, events[1..], held');
      }
    }
  }

  lemma InitialCountsExact(s: State)
    requires Initial(s)
    ensures CountsExact(s, map[])
  {
    forall u ensures Filed(s, map[], u) && Counted(s, map[], u) {
    }
  }
}
