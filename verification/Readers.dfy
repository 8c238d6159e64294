/** Frame exchange between a reader thread and the inference thread: the bounded
    queue of ai_engine/gpu_camera.py and the single slot of ai_engine/camera.py,
    as atomic steps. */
module Readers {
  import opened Common

  /** A decoded image, whose contents the engine never looks into here. */
  datatype Image = Image(handle: nat)

  datatype FrameRead = FrameRead(frame: Image, t: real, segmentId: int)

  datatype ReaderOp = Ingest(frame: Image, t: real) | Read | Pause | Resume | Connect

  // -- the bounded queue -------------------------------------------------------

  /** `ingested` and `taken` (which of them were delivered) only record the run. */
  datatype Queue = Queue(frames: seq<FrameRead>, segmentId: int, paused: bool,
                         ingested: seq<FrameRead>, taken: seq<int>)

  /** `deque(maxlen=depth)`: appending to a full queue drops the oldest. */
  function Bounded(frames: seq<FrameRead>, depth: nat): (kept: seq<FrameRead>)
    ensures |kept| <= depth
  {
    if |frames| <= depth then frames else frames[|frames| - depth..]
  }

  function QueueStep(depth: nat, q: Queue, op: ReaderOp): Queue {
    match op
    case Ingest(frame, t) =>
      var read := FrameRead(frame, t, q.segmentId);
      q.(frames := Bounded(q.frames + [read], depth), ingested := q.ingested + [read])
    case Read =>
      if q.frames == [] then q
      else q.(frames := q.frames[1..], taken := q.taken + [|q.ingested| - |q.frames|])
    case Pause => q.(paused := true)
    case Resume => q.(paused := false, segmentId := q.segmentId + 1, frames := [])
    case Connect => q.(segmentId := q.segmentId + 1, frames := [])
  }

  function QueueAfter(depth: nat, ops: seq<ReaderOp>, n: nat): Queue
    requires n <= |ops|
  {
    if n == 0 then Queue([], 0, false, [], []) else QueueStep(depth, QueueAfter(depth, ops, n - 1), ops[n - 1])
  }

  predicate Increasing(s: seq<int>) {
    forall i, j :: 0 <= i < j < |s| ==> s[i] < s[j]
  }

  /** The newest `|frames|` of what was ingested. */
  predicate Newest(frames: seq<FrameRead>, ingested: seq<FrameRead>) {
    |frames| <= |ingested| && frames == ingested[|ingested| - |frames|..]
  }

  /** The queue is the newest part of what was ingested, all of it from the
      current segment; what was delivered is older, in order, without repeats. */
  predicate QueueSound(depth: nat, q: Queue) {
    && |q.frames| <= depth && Newest(q.frames, q.ingested)
    && (forall i :: 0 <= i < |q.frames| ==> q.frames[i].segmentId == q.segmentId)
    && Increasing(q.taken)
    && forall i :: 0 <= i < |q.taken| ==> 0 <= q.taken[i] < |q.ingested| - |q.frames|
  }

  lemma NewestAppend(depth: nat, frames: seq<FrameRead>, ingested: seq<FrameRead>, read: FrameRead)
    requires Newest(frames, ingested)
    ensures Newest(Bounded(frames + [read], depth), ingested + [read])
  {
    var all := ingested + [read];
    assert frames + [read] == all[|all| - |frames| - 1..];
    var kept := Bounded(frames + [read], depth);
    assert kept == all[|all| - |kept|..];
  }

  lemma IngestSound(depth: nat, q: Queue, frame: Image, t: real)
    requires depth >= 1 && QueueSound(depth, q)
    ensures QueueSound(depth, QueueStep(depth, q, Ingest(frame, t)))
  {
    hide Newest, Increasing;
    NewestAppend(depth, q.frames, q.ingested, FrameRead(frame, t, q.segmentId));
  }

  lemma NewestNone(ingested: seq<FrameRead>)
    ensures Newest([], ingested)
  {
  }

  lemma NewestRest(frames: seq<FrameRead>, ingested: seq<FrameRead>)
    requires Newest(frames, ingested) && frames != []
    ensures |frames| <= |ingested| && frames[0] == ingested[|ingested| - |frames|]
    ensures Newest(frames[1..], ingested)
  {
    assert frames[1..] == ingested[|ingested| - |frames| + 1..];
  }

  lemma TakenSound(depth: nat, q: Queue)
    requires QueueSound(depth, q) && q.frames != []
    ensures var q' := QueueStep(depth, q, ReaderOp.Read);
            && QueueSound(depth, q') && |q'.taken| == |q.taken| + 1
            && q.frames[0] == q.ingested[q'.taken[|q.taken|]] && q.frames[0].segmentId == q.segmentId
  {
    hide Newest;
    NewestRest(q.frames, q.ingested);
  }

  lemma QueueStepSound(depth: nat, q: Queue, op: ReaderOp)
    requires depth >= 1 && QueueSound(depth, q)
    ensures QueueSound(depth, QueueStep(depth, q, op))
    ensures op.Read? && q.frames != [] ==>
              var q' := QueueStep(depth, q, op);
              && |q'.taken| == |q.taken| + 1
              && q.frames[0] == q.ingested[q'.taken[|q.taken|]]
              && q.frames[0].segmentId == q.segmentId
  {
    hide Newest;
    match op
    case Ingest(frame, t) => IngestSound(depth, q, frame, t);
    case Read =>
      if q.frames != [] {
        TakenSound(depth, q);
      }
    case Pause =>
    case Resume =>
      NewestNone(q.ingested);
    case Connect =>
      NewestNone(q.ingested);
  }

  /** Over any interleaving of ingests, reads, pauses, resumes and reconnects:
      the queue is bounded and holds only frames of the current segment, and the
      delivered frames are an in-order subsequence of the ingested ones. */
  lemma {:induction false} QueueDiscipline(depth: nat, ops: seq<ReaderOp>, n: nat)
    requires depth >= 1 && n <= |ops|
    ensures QueueSound(depth, QueueAfter(depth, ops, n))
  {
    if n > 0 {
      QueueDiscipline(depth, ops, n - 1);
      QueueStepSound(depth, QueueAfter(depth, ops, n - 1), ops[n - 1]);
    }
  }

  /** Nothing decoded is passed over: each frame joins the queue behind the others, of
      which only the oldest goes, and only when the queue was full. */
  lemma IngestIsQueued(depth: nat, q: Queue, frame: Image, t: real)
    requires depth >= 1 && |q.frames| <= depth
    ensures var q' := QueueStep(depth, q, Ingest(frame, t));
            var lost := if |q.frames| < depth then 0 else 1;
            && |q'.frames| == |q.frames| + 1 - lost
            && q'.frames[|q'.frames| - 1] == FrameRead(frame, t, q.segmentId)
            && (forall i :: 0 <= i < |q'.frames| - 1 ==> q'.frames[i] == q.frames[i + lost])
            && q'.ingested == q.ingested + [FrameRead(frame, t, q.segmentId)]
            && q'.segmentId == q.segmentId && q'.paused == q.paused && q'.taken == q.taken
  {
    var all := q.frames + [FrameRead(frame, t, q.segmentId)];
    assert QueueStep(depth, q, Ingest(frame, t)).frames == if |q.frames| < depth then all else all[1..];
  }

  // -- the single slot ------------------------------------------------------------

  datatype Slot = Slot(latest: Option<FrameRead>, segmentId: int, paused: bool,
                       ingested: seq<FrameRead>, taken: seq<int>)

  /** The software reader decodes nothing while paused, and a new segment does
      not empty the slot. */
  function SlotStep(s: Slot, op: ReaderOp): Slot {
    match op
    case Ingest(frame, t) =>
      if s.paused then s
      else
        var read := FrameRead(frame, t, s.segmentId);
        s.(latest := Some(read), ingested := s.ingested + [read])
    case Read => if s.latest.None? then s else s.(latest := None, taken := s.taken + [|s.ingested| - 1])
    case Pause => s.(paused := true)
    case Resume => s.(paused := false, segmentId := s.segmentId + 1)
    case Connect => s.(segmentId := s.segmentId + 1)
  }

  function SlotAfter(ops: seq<ReaderOp>, n: nat): Slot
    requires n <= |ops|
  {
    if n == 0 then Slot(None, 0, false, [], []) else SlotStep(SlotAfter(ops, n - 1), ops[n - 1])
  }

  /** New segments opened since the frame in the slot was published. */
  function BumpsSinceIngest(ops: seq<ReaderOp>, n: nat): nat
    requires n <= |ops|
  {
    if n == 0 then 0
    else
      var before := BumpsSinceIngest(ops, n - 1);
      match ops[n - 1]
      case Ingest(_, _) => if SlotAfter(ops, n - 1).paused then before else 0
      case Read => before
      case Pause => before
      case Resume => before + 1
      case Connect => before + 1
  }

  /** The slot holds the newest frame if it was not delivered yet. It carries
      the current segment if and only if no segment was opened since. */
  lemma {:induction false} SlotDiscipline(ops: seq<ReaderOp>, n: nat)
    requires n <= |ops|
    ensures var s := SlotAfter(ops, n);
            && Increasing(s.taken)
            && (forall i :: 0 <= i < |s.taken| ==> 0 <= s.taken[i] < |s.ingested|)
            && (s.latest.Some? ==>
                  && s.ingested != [] && s.latest.value == s.ingested[|s.ingested| - 1]
                  && (forall i :: 0 <= i < |s.taken| ==> s.taken[i] < |s.ingested| - 1)
                  && s.segmentId == s.latest.value.segmentId + BumpsSinceIngest(ops, n))
    ensures SlotAfter(ops, n).latest.Some? ==>
              (SlotAfter(ops, n).latest.value.segmentId == SlotAfter(ops, n).segmentId
               <==> BumpsSinceIngest(ops, n) == 0)
  {
    if n > 0 {
      SlotDiscipline(ops, n - 1);
    }
  }

  /** So the software reader can deliver a frame of a closed segment after a
      resume, which the queue never does. */
  lemma SlotCanBeStale()
    ensures var ops := [Ingest(Image(0), 0.0), Pause, Resume];
            var s := SlotAfter(ops, 3);
            s.latest.Some? && s.latest.value.segmentId != s.segmentId
    ensures var ops := [Ingest(Image(0), 0.0), Pause, Resume];
            QueueAfter(3, ops, 3).frames == []
  {
    var ops := [Ingest(Image(0), 0.0), Pause, Resume];
    assert SlotAfter(ops, 1) == Slot(Some(FrameRead(Image(0), 0.0, 0)), 0, false, [FrameRead(Image(0), 0.0, 0)], []);
    assert SlotAfter(ops, 2).segmentId == 0;
  }

  /** A reader that is not paused holds every frame it decodes, until it is read or the
      next one comes; a paused one is left alone. */
  lemma IngestIsHeld(ops: seq<ReaderOp>, n: nat, frame: Image, t: real)
    requires n < |ops| && ops[n] == Ingest(frame, t)
    ensures var s, s' := SlotAfter(ops, n), SlotAfter(ops, n + 1);
            && s'.segmentId == s.segmentId && s'.taken == s.taken
            && if s.paused then s' == s
               else s'.latest == Some(FrameRead(frame, t, s.segmentId))
                    && s'.ingested == s.ingested + [FrameRead(frame, t, s.segmentId)]
  {
  }

  // -- segments and the pause flag ---------------------------------------------------

  /** How many segments the first `n` operations opened. */
  function Openings(ops: seq<ReaderOp>, n: nat): nat
    requires n <= |ops|
  {
    if n == 0 then 0 else Openings(ops, n - 1) + if ops[n - 1] == Resume || ops[n - 1] == Connect then 1 else 0
  }

  /** The last pause or resume among the first `n` operations was a pause. */
  predicate IsPausedBy(ops: seq<ReaderOp>, n: nat)
    requires n <= |ops|
  {
    exists k :: 0 <= k < n && ops[k] == Pause && forall j :: k < j < n ==> ops[j] != Resume
  }

  lemma PausedNext(ops: seq<ReaderOp>, n: nat)
    requires 0 < n <= |ops|
    ensures ops[n - 1] == Pause ==> IsPausedBy(ops, n)
    ensures ops[n - 1] == Resume ==> !IsPausedBy(ops, n)
    ensures ops[n - 1] != Pause && ops[n - 1] != Resume ==> (IsPausedBy(ops, n) <==> IsPausedBy(ops, n - 1))
  {
  }

  /** Both readers number their segments by the resumes and connections so far, and are
      paused exactly when the last pause was not followed by a resume. */
  lemma {:induction false} ReadersFollow(depth: nat, ops: seq<ReaderOp>, n: nat)
    requires n <= |ops|
    ensures var q, s := QueueAfter(depth, ops, n), SlotAfter(ops, n);
            && q.segmentId == s.segmentId == Openings(ops, n)
            && (q.paused <==> IsPausedBy(ops, n)) && (s.paused <==> IsPausedBy(ops, n))
  {
    if n > 0 {
      hide IsPausedBy, Bounded;
      ReadersFollow(depth, ops, n - 1);
      PausedNext(ops, n);
    } else {
      assert !IsPausedBy(ops, 0);
    }
  }
}
