/** The registry of accumulators as an object (ai_engine/pipeline.py): one
    accumulator per camera, replaced whenever its stream discontinues. */
module Registry {
  import opened Common
  import opened Config
  import opened Evidence
  import opened EvidenceRuns
  import opened History
  import opened Accumulate

  /** What the source keeps as a tuple. */
  datatype Slot<S> = Slot(stream: S, acc: Accumulator, segment: int, lastT: Option<real>)

  class AccumulatorRegistry<S(==)> {
    var slots: map<int, Slot<S>>
    ghost var entries: map<int, Entry<S>>
    ghost var accs: set<Accumulator>
    ghost var regions: set<Region>

    /** The slot's accumulator holds the entry's state. */
    ghost predicate Holds(slot: Slot<S>, e: Entry<S>)
      reads slot.acc, slot.acc.repr
    {
      && slot.acc.Valid() && slot.acc.P() == DEPLOYED
      && e == Entry(slot.stream, slot.acc.View(), slot.segment, slot.lastT)
    }

    ghost predicate Disjoint(a: Accumulator, b: Accumulator)
      reads a, b
    {
      a != b && a.repr !! b.repr
    }

    /** `entries` is what the accumulator objects hold; they share nothing. */
    ghost predicate Valid()
      reads this, accs, regions
    {
      && slots.Keys == entries.Keys
      && (forall c | c in slots :: slots[c].acc in accs && slots[c].acc.repr <= regions)
      && (forall c | c in slots :: Holds(slots[c], entries[c]))
      && (forall c, d | c in slots && d in slots && c != d :: Disjoint(slots[c].acc, slots[d].acc))
    }

    constructor ()
      ensures Valid() && entries == map[] && accs == {} && regions == {}
    {
      slots, entries, accs, regions := map[], map[], {}, {};
    }

    method StartAfresh(camera: int, stream: S, segment: int, t: Option<real>) returns (acc: Accumulator)
      requires Valid()
      modifies this
      ensures Valid() && fresh(accs - old(accs)) && regions == old(regions)
      ensures entries == old(entries)[camera := Entry(stream, EMPTY, segment, t)]
      ensures camera in slots && slots[camera].acc == acc
    {
      hide Accumulator.Valid, Accumulator.View, Accumulator.P;
      acc := new Accumulator(DEPLOYED);
      slots := slots[camera := Slot(stream, acc, segment, t)];
      entries := entries[camera := Entry(stream, acc.View(), segment, t)];
      accs := accs + {acc};
      assert Holds(slots[camera], entries[camera]);
      assert forall c | c in slots && c != camera :: Disjoint(slots[c].acc, acc) && Disjoint(acc, slots[c].acc);
      hide Holds, Disjoint;
    }

    method ResolveCamera(camera: int, stream: S, segment: int, t: Option<real>) returns (acc: Accumulator)
      requires Valid()
      modifies this
      ensures Valid() && fresh(accs - old(accs)) && regions == old(regions)
      ensures entries == old(entries)[camera := Resolve(old(entries), camera, stream, segment, t)]
      ensures camera in slots && slots[camera].acc == acc
    {
      hide Accumulator.Valid, Accumulator.View, Accumulator.P, Gapped, Disjoint;
      if camera in slots {
        var known := slots[camera];
        assert Holds(known, entries[camera]);
        if known.stream == stream && known.segment == segment && !Gapped(known.lastT, t) {
          slots := slots[camera := known.(lastT := t)];
          entries := entries[camera := entries[camera].(lastT := t)];
          assert Holds(slots[camera], entries[camera]);
          return known.acc;
        }
      }
      hide Holds;
      acc := StartAfresh(camera, stream, segment, t);
    }

    /** Update the accumulator held for a camera. */
    method UpdateCamera(camera: int, acc: Accumulator, f: Frame) returns (events: seq<Event>)
      requires Valid() && camera in slots && acc == slots[camera].acc
      modifies this`entries, this`regions, acc, acc.repr
      ensures Valid() && fresh(accs - old(accs)) && fresh(regions - old(regions))
      ensures entries == old(entries)[camera := Process(old(entries)[camera], f)]
      ensures events == Reports(f.t, StepOn(DEPLOYED, old(entries)[camera].acc, f).fired)
    {
      hide Step, Reports, Accumulator.Valid, Accumulator.View, Accumulator.P;
      assert Holds(slots[camera], entries[camera]);
      events := acc.Update(f.t, f.boxes, f.confs);
      entries := entries[camera := Process(entries[camera], f)];
      regions := regions + acc.repr;
      assert Holds(slots[camera], entries[camera]);
      forall c | c in slots && c != camera
        ensures Holds(slots[c], entries[c]) && slots[c].acc.repr == old(slots[c].acc.repr)
      {
        assert old(Holds(slots[c], entries[c])) && old(Disjoint(slots[c].acc, acc));
      }
      forall c, d | c in slots && d in slots && c != d
        ensures Disjoint(slots[c].acc, slots[d].acc)
      {
        assert old(Disjoint(slots[c].acc, slots[d].acc));
      }
      hide Holds, Disjoint, Process;
    }

    /** Resolve, then update the accumulator that came back: what the tick does
        with each inferred frame. */
    method ObserveFrame(camera: int, seen: Observation<S>) returns (events: seq<Event>)
      requires Valid()
      modifies this, accs, regions
      ensures Valid() && fresh(accs - old(accs)) && fresh(regions - old(regions))
      ensures entries == ApplyOp(old(entries), Observe(camera, seen))
      ensures var e := Resolve(old(entries), camera, seen.stream, seen.segment, Some(seen.frame.t));
              events == Reports(seen.frame.t, StepOn(DEPLOYED, e.acc, seen.frame).fired)
    {
      hide StepOn, Reports, Holds, Disjoint, Resolve;
      var acc := ResolveCamera(camera, seen.stream, seen.segment, Some(seen.frame.t));
      events := UpdateCamera(camera, acc, seen.frame);
    }

    method PruneCameras(live: set<int>)
      requires Valid()
      modifies this`slots, this`entries
      ensures Valid() && entries == Pruned(old(entries), live) && accs == old(accs) && regions == old(regions)
      ensures forall c :: c in entries <==> c in old(entries) && c in live
      ensures forall c :: c in entries ==> entries[c] == old(entries[c])
    {
      hide Holds, Disjoint;
      slots := map c | c in slots && c in live :: slots[c];
      entries := Pruned(entries, live);
    }
  }
}
