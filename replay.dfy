/**
 * Properties of the hub over whole sequences of driver updates: the store keeps
 * the last accepted record per bus, the emit log is the fan-out of the accepted
 * records in order, tokens are only ever removed by ingestion, and a token found
 * expired never authorises an update again.
 */
module Replay {
  import opened Wrappers
  import opened Registry
  import opened Hub

  /** One update submitted to the shared pipeline. */
  datatype Step = Step(payload: Payload, token: string, now: int)

  datatype Trace = Trace(world: World, outcomes: seq<Outcome>)

  /** Run the steps one after another from `w`, collecting each outcome. */
  function Run(w: World, steps: seq<Step>): (t: Trace)
    ensures |t.outcomes| == |steps|
    decreases |steps|
  {
    if steps == [] then Trace(w, [])
    else
      var prev := Run(w, steps[..|steps| - 1]);
      var s := steps[|steps| - 1];
      var res := Pipeline(prev.world, s.payload, s.token, s.now);
      Trace(res.world, prev.outcomes + [res.outcome])
  }

  /** The records of the accepted updates, in order. */
  function StoredRecords(outs: seq<Outcome>): (rs: seq<BusRecord>)
    ensures |rs| <= |outs|
    ensures forall r :: r in rs ==> Stored(r) in outs
  {
    if outs == [] then []
    else
      var last := outs[|outs| - 1];
      StoredRecords(outs[..|outs| - 1]) + (if last.Stored? then [last.record] else [])
  }

  /** The emits of a sequence of accepted records. */
  function FanoutAll(rs: seq<BusRecord>): (out: seq<Emit>)
    ensures |out| == 2 * |rs|
  {
    if rs == [] then []
    else FanoutAll(rs[..|rs| - 1]) + Fanout(rs[|rs| - 1])
  }

  /** The last record for bus `id` in `rs`, if any. */
  function LastFor(rs: seq<BusRecord>, id: string): (r: Option<BusRecord>)
    ensures r.Some? ==> r.value in rs && r.value.id == id
    ensures r.None? ==> forall x :: x in rs ==> x.id != id
  {
    if rs == [] then None
    else if rs[|rs| - 1].id == id then Some(rs[|rs| - 1])
    else LastFor(rs[..|rs| - 1], id)
  }

  /** Every stored record sits under its own id, has its defaults filled, and was broadcast. */
  ghost predicate StoreInvariant(w: World) {
    forall id :: id in w.buses ==>
      && w.buses[id].id == id
      && w.buses[id].busNumber != ""
      && w.buses[id].routeId != ""
      && Emit(Room(RoomOf(w.buses[id].routeId)), BusUpdate(w.buses[id])) in w.outbox
      && Emit(Everyone, BusUpdate(w.buses[id])) in w.outbox
  }

  lemma PipelinePreservesInvariant(w: World, p: Payload, tk: string, now: int)
    requires StoreInvariant(w)
    ensures StoreInvariant(Pipeline(w, p, tk, now).world)
  {
    var res := Pipeline(w, p, tk, now);
    if res.outcome.Stored? {
      NormalizeDefaultsAndFixpoint(p, now, tk);
      forall id | id in res.world.buses
        ensures Emit(Everyone, BusUpdate(res.world.buses[id])) in res.world.outbox
        ensures Emit(Room(RoomOf(res.world.buses[id].routeId)), BusUpdate(res.world.buses[id])) in res.world.outbox
      {
        if id != p.id {
          assert res.world.buses[id] == w.buses[id];
        } else {
          assert res.world.outbox[|w.outbox|..] == Fanout(res.outcome.record);
        }
      }
    }
  }

  /** The invariant holds after any sequence of updates started where it holds (e.g. the empty hub). */
  lemma {:induction false} RunPreservesInvariant(w: World, steps: seq<Step>)
    requires StoreInvariant(w)
    ensures StoreInvariant(Run(w, steps).world)
  {
    if steps != [] {
      var init := steps[..|steps| - 1];
      var s := steps[|steps| - 1];
      RunPreservesInvariant(w, init);
      PipelinePreservesInvariant(Run(w, init).world, s.payload, s.token, s.now);
    }
  }

  /** The emit log grows by exactly the two broadcasts of each accepted record, in order. */
  lemma {:induction false} RunOutbox(w: World, steps: seq<Step>)
    ensures Run(w, steps).world.outbox == w.outbox + FanoutAll(StoredRecords(Run(w, steps).outcomes))
  {
    if steps != [] {
      var init := steps[..|steps| - 1];
      var s := steps[|steps| - 1];
      RunOutbox(w, init);
      var prev := Run(w, init);
      var res := Pipeline(prev.world, s.payload, s.token, s.now);
      var outs := prev.outcomes + [res.outcome];
      assert Run(w, steps) == Trace(res.world, outs);
      assert outs[..|outs| - 1] == prev.outcomes;
      var before := StoredRecords(prev.outcomes);
      if res.outcome.Stored? {
        var r := res.outcome.record;
        assert StoredRecords(outs) == before + [r];
        FanoutAllSnoc(before, r);
        assert res.world.outbox == prev.world.outbox + Fanout(r);
      } else {
        assert StoredRecords(outs) == before;
        assert res.world.outbox == prev.world.outbox;
      }
    }
  }

  lemma FanoutAllSnoc(rs: seq<BusRecord>, r: BusRecord)
    ensures FanoutAll(rs + [r]) == FanoutAll(rs) + Fanout(r)
  {
    assert (rs + [r])[..|rs|] == rs;
  }

  /**
   * Last write wins: after the steps, a bus holds the last record accepted for it,
   * and a bus with no accepted update keeps whatever it had (or stays absent).
   */
  lemma {:induction false} RunLastWriteWins(w: World, steps: seq<Step>, id: string)
    ensures var t := Run(w, steps);
      match LastFor(StoredRecords(t.outcomes), id)
      case Some(r) => id in t.world.buses && t.world.buses[id] == r
      case None => (id in t.world.buses <==> id in w.buses) &&
                   (id in w.buses ==> t.world.buses[id] == w.buses[id])
  {
    if steps != [] {
      var init := steps[..|steps| - 1];
      var s := steps[|steps| - 1];
      RunLastWriteWins(w, init, id);
      var prev := Run(w, init);
      var res := Pipeline(prev.world, s.payload, s.token, s.now);
      var outs := prev.outcomes + [res.outcome];
      assert Run(w, steps) == Trace(res.world, outs);
      assert outs[..|outs| - 1] == prev.outcomes;
      var before := StoredRecords(prev.outcomes);
      StepBuses(prev.world, s);
      if res.outcome.Stored? {
        var r := res.outcome.record;
        assert StoredRecords(outs) == before + [r];
        LastForSnoc(before, r, id);
      } else {
        assert StoredRecords(outs) == before;
      }
    }
  }

  /** One step changes the store only by putting the accepted record under its own id. */
  lemma StepBuses(w: World, s: Step)
    ensures var res := Pipeline(w, s.payload, s.token, s.now);
      res.world.buses == if res.outcome.Stored? then w.buses[res.outcome.record.id := res.outcome.record] else w.buses
  {
  }

  lemma LastForSnoc(rs: seq<BusRecord>, r: BusRecord, id: string)
    ensures LastFor(rs + [r], id) == if r.id == id then Some(r) else LastFor(rs, id)
  {
    assert (rs + [r])[..|rs|] == rs;
  }

  /** Ingestion never issues or rewrites a token: what remains is a sub-map of where it started. */
  lemma {:induction false} RunTokensShrink(w: World, steps: seq<Step>)
    ensures Run(w, steps).world.tokens.Keys <= w.tokens.Keys
    ensures forall k :: k in Run(w, steps).world.tokens ==> Run(w, steps).world.tokens[k] == w.tokens[k]
  {
    if steps != [] {
      var init := steps[..|steps| - 1];
      var s := steps[|steps| - 1];
      RunTokensShrink(w, init);
      RetainedIsSubmap(Run(w, init).world.tokens, s.token, s.payload.id, s.now);
    }
  }

  /** The i-th outcome is what the pipeline decides in the world the first i steps left. */
  lemma {:induction false} RunOutcomeAt(w: World, steps: seq<Step>, i: nat)
    requires i < |steps|
    ensures Run(w, steps).outcomes[i] ==
              Pipeline(Run(w, steps[..i]).world, steps[i].payload, steps[i].token, steps[i].now).outcome
  {
    var init := steps[..|steps| - 1];
    if i < |steps| - 1 {
      RunOutcomeAt(w, init, i);
      assert init[..i] == steps[..i];
    } else {
      assert init == steps[..i];
    }
  }

  /**
   * A token that a verification found expired never authorises another update:
   * every later step that presents it is refused, at any time and for any bus.
   */
  lemma ExpiredTokenStaysRejected(w: World, p: Payload, tk: string, now: int, steps: seq<Step>)
    requires p.id != "" && Decide(w.tokens, tk, p.id, now) == ExpiredToken
    ensures Pipeline(w, p, tk, now).outcome == Unauthorized
    ensures forall i :: 0 <= i < |steps| && steps[i].token == tk ==>
              !Run(Pipeline(w, p, tk, now).world, steps).outcomes[i].Stored?
  {
    var w1 := Pipeline(w, p, tk, now).world;
    assert tk !in w1.tokens;
    forall i | 0 <= i < |steps| && steps[i].token == tk
      ensures !Run(w1, steps).outcomes[i].Stored?
    {
      RunOutcomeAt(w1, steps, i);
      RunTokensShrink(w1, steps[..i]);
      AbsentTokenRejected(Run(w1, steps[..i]).world.tokens, tk, steps[i].payload.id, steps[i].now);
    }
  }

  /** Two accepted updates for one bus: the store holds the second record only, no merge. */
  lemma TwoUpdatesKeepSecond(w: World, p1: Payload, t1: string, n1: int, p2: Payload, t2: string, n2: int)
    requires p1.id == p2.id
    requires Pipeline(w, p1, t1, n1).outcome.Stored?
    requires Pipeline(Pipeline(w, p1, t1, n1).world, p2, t2, n2).outcome.Stored?
    ensures Pipeline(Pipeline(w, p1, t1, n1).world, p2, t2, n2).world.buses[p2.id] == Normalize(p2, n2)
    ensures Pipeline(Pipeline(w, p1, t1, n1).world, p2, t2, n2).world.buses.Keys == w.buses.Keys + {p1.id}
  {
  }

  /**
   * A token issued for bus-42 on route-5, then an update from bus-42 with it,
   * stores the coordinates and emits them to `route:route-5` first.
   */
  lemma Bus42Example(tokens: TokenMap, lat: real, lng: real, now: int)
    ensures
      var w := World(tokens[("tk_bus42") := IssuedEntry("bus-42", Some("route-5"), None, now)], map[], []);
      var p := Payload("bus-42", "", Num(lat), Num(lng), NaN, "route-5", "tk_bus42");
      var res := Pipeline(w, p, p.token, now);
      && res.outcome.Stored?
      && res.world.buses["bus-42"].lat == Num(lat) && res.world.buses["bus-42"].lng == Num(lng)
      && res.world.outbox[0] == Emit(Room("route:route-5"), BusUpdate(res.world.buses["bus-42"]))
  {
  }

  /** A token bound to bus-1 does not let an update for bus-2 through, and bus-2 is left as it was. */
  lemma WrongBusRejected(w: World, tk: string, p: Payload, now: int)
    requires tk != "" && tk in w.tokens && w.tokens[tk].busId == "bus-1" && p.id == "bus-2"
    ensures Pipeline(w, p, tk, now).outcome == Unauthorized
    ensures Pipeline(w, p, tk, now).world.buses == w.buses
  {
  }
}
