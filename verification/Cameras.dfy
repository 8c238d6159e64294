/** The two interchangeable readers as objects (ai_engine/camera.py,
    ai_engine/gpu_camera.py). Each method is one atomic step. */
module Cameras {
  import opened Common
  import opened Rate
  import opened Readers
  import Window

  const UNRESPONSIVE_AFTER_FAILURES := 3

  datatype Connection = Reconnecting | Connected | Unresponsive

  datatype AiStatus = AiInactive | AiActive | AiPaused

  /** What a stream object lived through: an event was reported for it, it was
      paused, or it was resumed. */
  datatype Act = Reported | Blinded | Resumed

  /** Health as the heartbeat reports it. */
  datatype Health = Health(connection: Connection, ai: AiStatus, failures: nat, error: Option<string>,
                           processingError: Option<string>)

  function Failed(h: Health, code: string): Health {
    var n := h.failures + 1;
    h.(failures := n, error := Some(code), ai := AiInactive,
       connection := if n >= UNRESPONSIVE_AFTER_FAILURES then Unresponsive else Reconnecting)
  }

  function Succeeded(h: Health): Health {
    h.(failures := 0, error := None)
  }

  /** Is the stream paused after its first `n` acts? A report pauses it. */
  predicate PausedAfter(acts: seq<Act>, n: nat)
    requires n <= |acts|
  {
    n > 0 && !acts[n - 1].Resumed?
  }

  /** A stream is reported on only while it is not paused. */
  predicate Orderly(acts: seq<Act>) {
    forall n :: 0 <= n < |acts| && acts[n].Reported? ==> !PausedAfter(acts, n)
  }

  /** Between two events reported for one stream object there is a resume. */
  lemma ReportsNeedResume(acts: seq<Act>, i: nat, j: nat)
    requires Orderly(acts)
    requires i < j < |acts| && acts[i].Reported? && acts[j].Reported?
    ensures exists k :: i < k < j && acts[k].Resumed?
  {
    assert !PausedAfter(acts, j);
    assert acts[j - 1].Resumed?;
  }

  class CameraStream {
    const channelId: int
    const cameraId: int
    const url: string
    var appliedVersion: Option<int>
    var latest: Option<FrameRead>
    var segmentId: int
    var isPaused: bool
    var running: bool
    var health: Health
    var inferenceTimes: seq<real>
    var windowStartedAt: Option<real>
    var decodeTimes: seq<real>
    var decodedFps: Option<real>
    ghost var ingested: seq<FrameRead>
    ghost var taken: seq<int>
    ghost var acts: seq<Act>

    ghost function Exchange(): Slot
      reads this
    {
      Slot(latest, segmentId, isPaused, ingested, taken)
    }

    ghost function Measured(): Meter
      reads this
    {
      Meter(inferenceTimes, windowStartedAt)
    }

    ghost predicate Valid()
      reads this`acts, this`isPaused
    {
      Orderly(acts) && isPaused == PausedAfter(acts, |acts|)
    }

    constructor (channelId: int, cameraId: int, url: string)
      ensures this.channelId == channelId && this.cameraId == cameraId && this.url == url
      ensures Valid() && acts == [] && running && appliedVersion == None
      ensures Exchange() == Slot(None, 0, false, [], []) && Measured() == Meter([], None)
      ensures health == Health(Reconnecting, AiInactive, 0, None, None)
    {
      this.channelId, this.cameraId, this.url := channelId, cameraId, url;
      appliedVersion, latest, segmentId, isPaused, running := None, None, 0, false, true;
      health := Health(Reconnecting, AiInactive, 0, None, None);
      inferenceTimes, windowStartedAt, decodeTimes, decodedFps := [], None, [], None;
      ingested, taken, acts := [], [], [];
    }

    /** Also of a stream just reported on. */
    method Pause()
      requires Orderly(acts)
      modifies this`isPaused, this`health, this`inferenceTimes, this`windowStartedAt, this`acts
      ensures Valid() && Exchange() == SlotStep(old(Exchange()), ReaderOp.Pause)
      ensures Measured() == ApplyRate(old(Measured()), Clear)
      ensures health == old(health).(ai := AiPaused) && acts == old(acts) + [Blinded]
    {
      isPaused := true;
      acts := acts + [Blinded];
      health := health.(ai := AiPaused);
      inferenceTimes, windowStartedAt := [], None;
    }

    method StartInferenceMeasurement(now: real)
      modifies this`inferenceTimes, this`windowStartedAt
      ensures Measured() == ApplyRate(old(Measured()), Start(now))
    {
      inferenceTimes, windowStartedAt := [], Some(now);
    }

    method Resume(now: real)
      requires Valid()
      modifies this`isPaused, this`health, this`segmentId, this`inferenceTimes, this`windowStartedAt, this`acts
      ensures Valid() && Exchange() == SlotStep(old(Exchange()), ReaderOp.Resume)
      ensures Measured() == ApplyRate(old(Measured()), Start(now))
      ensures health == old(health).(ai := AiActive) && acts == old(acts) + [Resumed]
    {
      isPaused := false;
      health := health.(ai := AiActive);
      segmentId := segmentId + 1;
      StartInferenceMeasurement(now);
      acts := acts + [Resumed];
    }

    /** An event of this stream, collected unpaused, is reported. */
    ghost method NoteReport()
      requires Valid() && !isPaused
      modifies this`acts
      ensures Orderly(acts) && acts == old(acts) + [Reported]
    {
      acts := acts + [Reported];
    }

    method OnConnected(now: real)
      requires Valid()
      modifies this`health, this`segmentId, this`inferenceTimes, this`windowStartedAt
      ensures Valid() && Exchange() == SlotStep(old(Exchange()), Connect)
      ensures Measured() == if isPaused then old(Measured()) else ApplyRate(old(Measured()), Start(now))
      ensures health == Succeeded(old(health)).(connection := Connected, ai := if isPaused then AiPaused else AiActive)
    {
      health := Succeeded(health).(connection := Connected, ai := if isPaused then AiPaused else AiActive);
      if !isPaused {
        StartInferenceMeasurement(now);
      }
      segmentId := segmentId + 1;
    }

    method OnDropped(code: string)
      modifies this`health
      ensures health == Failed(old(health), code)
    {
      health := Failed(health, code);
    }

    method RecordFrameDecoded(now: real)
      modifies this`decodeTimes, this`decodedFps
      ensures decodeTimes == Decoded(old(decodeTimes), now)
      ensures decodedFps == DecodedFps(decodeTimes, old(decodedFps))
    {
      decodeTimes := Window.Prune(decodeTimes + [now], now - FPS_WINDOW_SECONDS);
      if |decodeTimes| >= 2 {
        var span := decodeTimes[|decodeTimes| - 1] - decodeTimes[0];
        decodedFps := Some(if span > 0.0 then (|decodeTimes| - 1) as real / span else 0.0);
      }
    }

    /** One turn of the read loop on a live connection, with the frame read, or none
        when the grab or the read fails. A paused reader grabs without decoding. */
    method Decode(frame: Option<Image>, t: real, decodedAt: real)
      requires Valid()
      modifies this`latest, this`ingested, this`health, this`decodeTimes, this`decodedFps
      ensures Valid()
      ensures Exchange() == if frame.None? then old(Exchange()) else SlotStep(old(Exchange()), Ingest(frame.value, t))
      ensures health == if frame.None? then Failed(old(health), "STREAM_DROPPED")
                        else if isPaused then old(health)
                        else Succeeded(old(health)).(connection := Connected)
      ensures var decoded := frame.Some? && !isPaused;
              && decodeTimes == (if decoded then Decoded(old(decodeTimes), decodedAt) else old(decodeTimes))
              && decodedFps == (if decoded then DecodedFps(decodeTimes, old(decodedFps)) else old(decodedFps))
    {
      if frame.None? {
        OnDropped("STREAM_DROPPED");
        return;
      }
      if isPaused {
        return;
      }
      latest := Some(FrameRead(frame.value, t, segmentId));
      ingested := ingested + [FrameRead(frame.value, t, segmentId)];
      RecordFrameDecoded(decodedAt);
      health := Succeeded(health).(connection := Connected);
    }

    /** Destructive: the newest frame not yet delivered. */
    method ReadFrame() returns (read: Option<FrameRead>)
      requires Valid()
      modifies this`latest, this`taken
      ensures Valid() && Exchange() == SlotStep(old(Exchange()), ReaderOp.Read)
      ensures read == old(latest) && latest == None
    {
      read := latest;
      taken := if latest.Some? then taken + [|ingested| - 1] else taken;
      latest := None;
    }

    method RecordInference(now: real)
      modifies this`inferenceTimes, this`windowStartedAt
      ensures Measured() == ApplyRate(old(Measured()), Record(now))
    {
      if windowStartedAt.None? {
        windowStartedAt := Some(now);
      }
      inferenceTimes := Window.Prune(inferenceTimes + [now], now - FPS_WINDOW_SECONDS);
    }

    method CurrentInferenceFps(now: real) returns (fps: Option<real>)
      modifies this`inferenceTimes
      ensures fps == Answer(old(Measured()), now)
      ensures Measured() == ApplyRate(old(Measured()), Query(now))
    {
      if windowStartedAt.None? || now - windowStartedAt.value < FPS_WINDOW_SECONDS {
        return None;
      }
      inferenceTimes := Window.Prune(inferenceTimes, now - FPS_WINDOW_SECONDS);
      return Some(|inferenceTimes| as real / FPS_WINDOW_SECONDS);
    }

    method RecordInferenceFailure(code: string)
      modifies this`health
      ensures health == old(health).(processingError := Some(code))
    {
      health := health.(processingError := Some(code));
    }

    method Stop()
      modifies this`running, this`inferenceTimes, this`windowStartedAt
      ensures !running && Measured() == ApplyRate(old(Measured()), Clear)
    {
      running := false;
      inferenceTimes, windowStartedAt := [], None;
    }
  }

  /** The reader with the bounded queue. It keeps decoding while paused. */
  class GpuCameraStream {
    const queueDepth: nat
    var frames: seq<FrameRead>
    var segmentId: int
    var isPaused: bool
    var health: Health
    var inferenceTimes: seq<real>
    var windowStartedAt: Option<real>
    ghost var ingested: seq<FrameRead>
    ghost var taken: seq<int>
    ghost var acts: seq<Act>

    ghost predicate Valid()
      reads this`acts, this`isPaused
    {
      Orderly(acts) && isPaused == PausedAfter(acts, |acts|)
    }

    ghost function Exchange(): Queue
      reads this
    {
      Queue(frames, segmentId, isPaused, ingested, taken)
    }

    ghost function Measured(): Meter
      reads this
    {
      Meter(inferenceTimes, windowStartedAt)
    }

    constructor (queueDepth: nat)
      ensures this.queueDepth == queueDepth
      ensures Exchange() == Queue([], 0, false, [], []) && Measured() == Meter([], None)
      ensures Valid() && acts == []
    {
      this.queueDepth := queueDepth;
      frames, segmentId, isPaused := [], 0, false;
      health := Health(Reconnecting, AiInactive, 0, None, None);
      inferenceTimes, windowStartedAt, ingested, taken, acts := [], None, [], [], [];
    }

    method DiscardQueued()
      modifies this`frames
      ensures frames == []
    {
      frames := [];
    }

    /** Also of a stream just reported on. */
    method Pause()
      requires Orderly(acts)
      modifies this`isPaused, this`health, this`inferenceTimes, this`windowStartedAt, this`acts
      ensures Valid() && acts == old(acts) + [Blinded]
      ensures Exchange() == QueueStep(queueDepth, old(Exchange()), ReaderOp.Pause)
      ensures Measured() == ApplyRate(old(Measured()), Clear)
      ensures health == old(health).(ai := AiPaused)
    {
      isPaused := true;
      acts := acts + [Blinded];
      health := health.(ai := AiPaused);
      inferenceTimes, windowStartedAt := [], None;
    }

    /** An event of this stream, collected unpaused, is reported. */
    ghost method NoteReport()
      requires Valid() && !isPaused
      modifies this`acts
      ensures Orderly(acts) && acts == old(acts) + [Reported]
    {
      acts := acts + [Reported];
    }

    method Resume(now: real)
      requires Valid()
      modifies this
      ensures Valid() && acts == old(acts) + [Resumed]
      ensures Exchange() == QueueStep(queueDepth, old(Exchange()), ReaderOp.Resume)
      ensures Measured() == ApplyRate(old(Measured()), Start(now))
      ensures health == old(health).(ai := AiActive)
    {
      isPaused := false;
      acts := acts + [Resumed];
      health := health.(ai := AiActive);
      segmentId := segmentId + 1;
      DiscardQueued();
      inferenceTimes, windowStartedAt := [], Some(now);
    }

    method OnConnected(now: real)
      modifies this
      ensures acts == old(acts) && isPaused == old(isPaused)
      ensures Exchange() == QueueStep(queueDepth, old(Exchange()), Connect)
      ensures Measured() == if isPaused then old(Measured()) else ApplyRate(old(Measured()), Start(now))
      ensures health == Succeeded(old(health)).(connection := Connected, ai := if isPaused then AiPaused else AiActive)
    {
      health := Succeeded(health).(connection := Connected, ai := if isPaused then AiPaused else AiActive);
      if !isPaused {
        inferenceTimes, windowStartedAt := [], Some(now);
      }
      segmentId := segmentId + 1;
      DiscardQueued();
    }

    method IngestFrame(native: Image, t: real)
      modifies this`frames, this`ingested, this`health
      ensures Exchange() == QueueStep(queueDepth, old(Exchange()), Ingest(native, t))
      ensures health == Succeeded(old(health)).(connection := Connected)
    {
      frames := frames + [FrameRead(native, t, segmentId)];
      if |frames| > queueDepth {
        frames := frames[|frames| - queueDepth..];
      }
      ingested := ingested + [FrameRead(native, t, segmentId)];
      health := Succeeded(health).(connection := Connected);
    }

    method ReadFrame() returns (read: Option<FrameRead>)
      modifies this`frames, this`taken
      ensures Exchange() == QueueStep(queueDepth, old(Exchange()), ReaderOp.Read)
      ensures read == if old(frames) == [] then None else Some(old(frames)[0])
    {
      if frames == [] {
        return None;
      }
      read := Some(frames[0]);
      taken := taken + [|ingested| - |frames|];
      frames := frames[1..];
    }
  }
}
