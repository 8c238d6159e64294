/** What one frame does to the evidence held for one camera
    (ai_engine/accumulate.py), as functions on values. Each region carries an
    identity and a log of what every frame since its creation contributed;
    nothing in the algorithm reads them. */
module Evidence {
  import opened Boxes
  import opened Common

  datatype Params = Params(iouLink: real, threshold: real, decay: real, ema: real, cooldown: real)

  /** How one frame treated a region: it matched a detection, or it did not. */
  datatype Sighting =
    | Hit(t: real, dt: real, conf: real, box: Box)
    | Miss(t: real, dt: real)

  datatype RegionState = RegionState(
    id: nat, box: Box, score: real, peak: real, firstT: real, lastT: real,
    fired: bool, cooldownUntil: real, log: seq<Sighting>)

  datatype State = State(regions: seq<RegionState>, prevT: Option<real>, nextId: nat)

  datatype Linking = Linking(regions: seq<RegionState>, matched: set<nat>, nextId: nat)

  /** The new state and the regions that fired, in order. */
  datatype Outcome = Outcome(state: State, fired: seq<RegionState>)

  const EMPTY := State([], None, 0)

  function Elapsed(prevT: Option<real>, t: real): real {
    if prevT.None? then 0.0 else Max(0.0, t - prevT.value)
  }

  // -- linking -----------------------------------------------------------

  function BestScore(link: real, box: Box, regions: seq<RegionState>, best: int): real
    requires -1 <= best < |regions|
  {
    if best < 0 then link else Iou(box, regions[best].box)
  }

  /** The region the scan over the first `n` regions settles on, or -1. Later
      regions win ties. */
  function BestMatch(link: real, box: Box, regions: seq<RegionState>, matched: set<nat>, n: nat): (best: int)
    requires n <= |regions|
    ensures -1 <= best < n
  {
    if n == 0 then -1
    else
      var best := BestMatch(link, box, regions, matched, n - 1);
      if n - 1 in matched then best
      else if Iou(box, regions[n - 1].box) >= BestScore(link, box, regions, best) then n - 1
      else best
  }

  function Created(id: nat, t: real, dt: real, box: Box, conf: real): RegionState {
    RegionState(id, box, conf * dt, conf, t, t, false, -1.0, [Hit(t, dt, conf, box)])
  }

  function Supported(p: Params, r: RegionState, t: real, dt: real, box: Box, conf: real): RegionState {
    r.(box := Smooth(p.ema, box, r.box),
       score := r.score + conf * dt,
       peak := Max(r.peak, conf),
       lastT := t,
       log := r.log + [Hit(t, dt, conf, box)])
  }

  function Link(p: Params, t: real, dt: real, l: Linking, box: Box, conf: real): Linking {
    var best := BestMatch(p.iouLink, box, l.regions, l.matched, |l.regions|);
    if best < 0 then
      Linking(l.regions + [Created(l.nextId, t, dt, box, conf)], l.matched + {|l.regions|}, l.nextId + 1)
    else
      Linking(l.regions[best := Supported(p, l.regions[best], t, dt, box, conf)], l.matched + {best}, l.nextId)
  }

  /** Boxes and confidences are paired up to the shorter of the two lists. */
  function Pairs(boxes: seq<Box>, confs: seq<real>): nat {
    if |boxes| <= |confs| then |boxes| else |confs|
  }

  function LinkAll(p: Params, t: real, dt: real, regions: seq<RegionState>, nextId: nat,
                   boxes: seq<Box>, confs: seq<real>, n: nat): Linking
    requires n <= Pairs(boxes, confs)
  {
    if n == 0 then Linking(regions, {}, nextId)
    else Link(p, t, dt, LinkAll(p, t, dt, regions, nextId, boxes, confs, n - 1), boxes[n - 1], confs[n - 1])
  }

  // -- leaking and firing ------------------------------------------------

  function Leak(p: Params, t: real, dt: real, r: RegionState, seen: bool): RegionState {
    if seen then r
    else r.(score := Max(0.0, r.score - p.decay * dt), log := r.log + [Miss(t, dt)])
  }

  predicate Fires(p: Params, t: real, r: RegionState) {
    !r.fired && r.score >= p.threshold && t >= r.cooldownUntil
  }

  function Settle(p: Params, t: real, dt: real, r: RegionState, seen: bool): RegionState {
    var leaked := Leak(p, t, dt, r, seen);
    if Fires(p, t, leaked) then leaked.(fired := true, cooldownUntil := t + p.cooldown) else leaked
  }

  function SettleAll(p: Params, t: real, dt: real, l: Linking, n: nat): (settled: seq<RegionState>)
    requires n <= |l.regions|
    ensures |settled| == n
  {
    if n == 0 then []
    else SettleAll(p, t, dt, l, n - 1) + [Settle(p, t, dt, l.regions[n - 1], n - 1 in l.matched)]
  }

  function Firings(p: Params, t: real, dt: real, l: Linking, n: nat): seq<RegionState>
    requires n <= |l.regions|
  {
    if n == 0 then []
    else
      var r := l.regions[n - 1];
      var seen := n - 1 in l.matched;
      var before := Firings(p, t, dt, l, n - 1);
      if Fires(p, t, Leak(p, t, dt, r, seen)) then before + [Settle(p, t, dt, r, seen)] else before
  }

  predicate Kept(r: RegionState) {
    r.score > 0.0 || r.fired
  }

  function Survivors(regions: seq<RegionState>): seq<RegionState> {
    if regions == [] then []
    else
      var r := regions[|regions| - 1];
      Survivors(regions[..|regions| - 1]) + (if Kept(r) then [r] else [])
  }

  // -- one frame ---------------------------------------------------------

  function Linked(p: Params, s: State, t: real, boxes: seq<Box>, confs: seq<real>): Linking {
    LinkAll(p, t, Elapsed(s.prevT, t), s.regions, s.nextId, boxes, confs, Pairs(boxes, confs))
  }

  function Step(p: Params, s: State, t: real, boxes: seq<Box>, confs: seq<real>): Outcome {
    var dt := Elapsed(s.prevT, t);
    var l := Linked(p, s, t, boxes, confs);
    Outcome(State(Survivors(SettleAll(p, t, dt, l, |l.regions|)), Some(t), l.nextId),
            Firings(p, t, dt, l, |l.regions|))
  }

  // -- reported events ---------------------------------------------------

  /** What leaves the accumulator: scores rounded to 3 digits, the age to 2. */
  datatype Event = Event(t: real, box: Box, score: real, peakConf: real, ageS: real)

  function Rounded(x: real, scale: int): real
    requires scale > 0
  {
    RoundHalfEven(x * scale as real) as real / scale as real
  }

  function Report(t: real, r: RegionState): Event {
    Event(t, r.box, Rounded(r.score, 1000), Rounded(r.peak, 1000), Rounded(t - r.firstT, 100))
  }

  function Reports(t: real, fired: seq<RegionState>): (events: seq<Event>)
    ensures |events| == |fired|
    ensures forall i :: 0 <= i < |fired| ==> events[i] == Report(t, fired[i])
  {
    seq(|fired|, i requires 0 <= i < |fired| => Report(t, fired[i]))
  }
}
