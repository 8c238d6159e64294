/** What one delivery and one whole pass over the outbox come to when every file
    operation happens (ai_engine/outbox.py), said of the files themselves. */
module Delivery {
  import opened Common
  import opened Outbox
  import opened OutboxModel

  /** Nothing on disk changed but the file of this name. */
  ghost predicate OnlyAbout(w: World, w': World, n: Name) {
    && (forall m :: m != n ==> (m in w'.json <==> m in w.json) && (m in w.json ==> w'.json[m] == w.json[m]))
    && (forall m :: m != n ==> (m in w'.quarantine <==> m in w.quarantine)
                               && (m in w.quarantine ==> w'.quarantine[m] == w.quarantine[m]))
  }

  ghost predicate Untouched(w: World, w': World, n: Name) {
    && OnlyAbout(w, w', n)
    && (n in w'.json <==> n in w.json) && (n in w.json ==> w'.json[n] == w.json[n])
    && (n in w'.quarantine <==> n in w.quarantine) && (n in w.quarantine ==> w'.quarantine[n] == w.quarantine[n])
  }

  ghost predicate Removed(w: World, w': World, n: Name) {
    && OnlyAbout(w, w', n) && n !in w'.json
    && (n in w'.quarantine <==> n in w.quarantine) && (n in w.quarantine ==> w'.quarantine[n] == w.quarantine[n])
  }

  /** The file is gone from the outbox and kept in quarantine, with its payload if
      it could be read there. */
  ghost predicate MovedAside(w: World, w': World, n: Name, reason: Reason, read: Reading)
    requires n in w.json
  {
    && OnlyAbout(w, w', n) && n !in w'.json && n in w'.quarantine
    && w'.quarantine[n]
       == Quarantined(if w.json[n].Whole? && read.Good? then Some(w.json[n].record.payload) else None, reason)
  }

  /** One more attempt, not due before the backoff has passed: twice the last one up
      to five minutes, and up to a quarter more; five minutes at least where the key
      was refused. */
  ghost predicate Rescheduled(w: World, w': World, n: Name, r: Reply)
    requires n in w.json && w.json[n].Whole?
  {
    && OnlyAbout(w, w', n) && (n in w'.quarantine <==> n in w.quarantine)
    && (n in w.quarantine ==> w'.quarantine[n] == w.quarantine[n])
    && n in w'.json && w'.json[n].Whole?
    && var before, after := w.json[n].record, w'.json[n].record;
       && after.payload == before.payload && after.createdAt == before.createdAt
       && after.attempts == before.attempts + 1 && after.nextAttemptAt.Some?
       && var wait := after.nextAttemptAt.value - r.markedAt;
          && Base(after.attempts) <= wait
          && (r.jitter <= 0.25 ==>
                wait <= if r.outcome.AuthFailure? && 1.25 * Base(after.attempts) < 300.0 then 300.0
                        else 1.25 * Base(after.attempts))
          && (r.outcome.AuthFailure? ==> wait >= 300.0)
  }

  /** The backoff starts at two seconds and doubles up to five minutes. */
  lemma BaseDoubles(attempts: nat)
    ensures Base(0) == 2.0
    ensures Base(attempts + 1) == if 2.0 * Base(attempts) <= 300.0 then 2.0 * Base(attempts) else 300.0
  {
    assert Pow2(attempts + 1) == 2 * Pow2(attempts);
  }

  lemma BasePositive(attempts: nat)
    ensures Base(attempts) > 0.0
  {
  }

  lemma Parts(base: real, jitter: real)
    requires base > 0.0 && jitter >= 0.0
    ensures 0.0 <= base * jitter
    ensures jitter <= 0.25 ==> base * jitter <= 0.25 * base
  {
    var rest := 0.25 - jitter;
    assert rest >= 0.0 ==> base * rest >= 0.0;
    assert base * rest == 0.25 * base - base * jitter;
  }

  lemma WaitIs(base: real, more: real, auth: bool, jitter: real)
    requires base > 0.0 && 0.0 <= more && (jitter <= 0.25 ==> more <= 0.25 * base)
    ensures var wait := if auth && base + more < 300.0 then 300.0 else base + more;
            && base <= wait && (auth ==> wait >= 300.0)
            && (jitter <= 0.25 ==> wait <= if auth && 1.25 * base < 300.0 then 300.0 else 1.25 * base)
  {
  }

  lemma BackoffIs(attempts: nat, jitter: real, auth: bool)
    requires jitter >= 0.0
    ensures var wait := Backoff(attempts, jitter, auth);
            && Base(attempts) <= wait && (auth ==> wait >= 300.0)
            && (jitter <= 0.25 ==>
                  wait <= if auth && 1.25 * Base(attempts) < 300.0 then 300.0 else 1.25 * Base(attempts))
  {
    hide Base;
    BasePositive(attempts);
    Parts(Base(attempts), jitter);
    WaitIs(Base(attempts), Base(attempts) * jitter, auth, jitter);
  }

  // -- the parts of a delivery -----------------------------------------------------------

  lemma AsideIs(w: World, n: Name, reason: Reason, read: Reading, k: nat)
    requires n in w.json && k >= 3
    ensures var w' := Execute(w, QuarantinePlan(w, n, reason, read), k);
            && w'.posts == w.posts
            && if read.Garbled? then w' == w else MovedAside(w, w', n, reason, read)
  {
    if !read.Garbled? {
      ExecuteUpTo3(w, QuarantinePlan(w, n, reason, read), k);
    }
  }

  lemma RemovalIs(w: World, n: Name, k: nat)
    requires k >= 1
    ensures var w' := Execute(w, [Unlink(n)], k);
            w'.posts == w.posts && Removed(w, w', n)
  {
    assert Execute(w, [Unlink(n)], k) == Execute(ApplyFs(w, Unlink(n)), [], k - 1);
  }

  lemma MarkIs(w: World, n: Name, r: Reply, k: nat)
    requires Loads(w, n, Good) && r.jitter >= 0.0 && k >= 3
    ensures var w' := Execute(w, AtomicWrite(n, Marked(w.json[n].record, r)), k);
            w'.posts == w.posts && Rescheduled(w, w', n, r)
  {
    hide Backoff, Base;
    BackoffIs(w.json[n].record.attempts + 1, r.jitter, r.outcome.AuthFailure?);
    ExecuteUpTo3(w, AtomicWrite(n, Marked(w.json[n].record, r)), k);
  }

  /** What becomes of the file after the answer. */
  ghost predicate Settles(w: World, w': World, n: Name, r: Reply)
    requires n in w.json && w.json[n].Whole?
  {
    match r.outcome
    case Acknowledged => Removed(w, w', n)
    case Conflict => Removed(w, w', n)
    case CameraGone => Removed(w, w', n)
    case QuarantineIt =>
      if r.quarantineRead.Garbled? then Untouched(w, w', n)
      else MovedAside(w, w', n, ValidationRejected, r.quarantineRead)
    case _ =>
      match r.markRead
      case Good => if w.json[n].record.attempts < 1023 then Rescheduled(w, w', n, r) else Untouched(w, w', n)
      case Garbled => Untouched(w, w', n)
      case Bad =>
        if r.quarantineRead.Garbled? then Untouched(w, w', n) else MovedAside(w, w', n, CorruptJson, r.quarantineRead)
  }

  lemma OutcomeIs(w: World, n: Name, r: Reply, k: nat)
    requires Loads(w, n, Good) && r.jitter >= 0.0 && k >= 3
    ensures var w' := Execute(w, OutcomePlan(w, n, r), k);
            w'.posts == w.posts && Settles(w, w', n, r)
  {
    hide Execute, Removed, MovedAside, Rescheduled, QuarantinePlan, AtomicWrite, Marked;
    if Terminal(r.outcome) {
      RemovalIs(w, n, k);
    } else if r.outcome.QuarantineIt? {
      AsideIs(w, n, ValidationRejected, r.quarantineRead, k);
    } else if r.markRead.Garbled? {
      ExecuteNothing(w, k);
    } else if r.markRead.Bad? {
      AsideIs(w, n, CorruptJson, r.quarantineRead, k);
    } else if w.json[n].record.attempts < 1023 {
      MarkIs(w, n, r, k);
    } else {
      ExecuteNothing(w, k);
    }
  }

  lemma SettlesAfterPost(w: World, post: Post, w': World, n: Name, r: Reply)
    requires n in w.json && w.json[n].Whole? && Settles(ApplyFs(w, Send(post)), w', n, r)
    ensures Settles(w, w', n, r)
  {
    hide Base;
    match r.outcome
    case Acknowledged =>
    case Conflict =>
    case CameraGone =>
    case QuarantineIt =>
    case _ =>
  }

  /** A delivery of a readable event that is due posts it once and then does what the
      answer asks for, no more and no less. */
  lemma DeliveryIs(w: World, n: Name, r: Reply, k: nat)
    requires Loads(w, n, r.loadRead) && Due(w.json[n].record, r.now) && r.jitter >= 0.0 && k >= 4
    ensures var w' := Execute(w, PlanOf(w, Deliver(n, r)), k);
            && w'.posts == w.posts + [Post(n, w.json[n].record.payload, r.now, r.outcome)]
            && Settles(w, w', n, r)
            && GoneOf(w, n, r) == (if r.outcome == CameraGone then Some(w.json[n].record.payload.cameraId) else None)
  {
    hide Execute, OutcomePlan, Settles;
    var post := Post(n, w.json[n].record.payload, r.now, r.outcome);
    ExecuteSendFirst(w, post, OutcomePlan(w, n, r), k);
    OutcomePlanIgnoresPosts(w, post, n, r);
    OutcomeIs(ApplyFs(w, Send(post)), n, r, k - 1);
    SettlesAfterPost(w, post, Execute(w, PlanOf(w, Deliver(n, r)), k), n, r);
  }

  /** Any other delivery posts nothing: an event that is not due is left alone, and so
      is a missing or garbled file; one that cannot be read is moved aside. */
  lemma DeliveryElse(w: World, n: Name, r: Reply, k: nat)
    requires k >= 4
    requires Loads(w, n, r.loadRead) ==> !Due(w.json[n].record, r.now)
    ensures var w' := Execute(w, PlanOf(w, Deliver(n, r)), k);
            && GoneOf(w, n, r) == None
            && if n !in w.json || Loads(w, n, r.loadRead) || r.loadRead.Garbled? || r.quarantineRead.Garbled?
               then w' == w
               else w'.posts == w.posts && MovedAside(w, w', n, CorruptJson, r.quarantineRead)
  {
    hide Execute, MovedAside;
    ExecuteNothing(w, k);
    if n in w.json && !Loads(w, n, r.loadRead) && !r.loadRead.Garbled? {
      AsideIs(w, n, CorruptJson, r.quarantineRead, k);
    }
  }

  /** Enqueueing puts one whole file there, with the payload, no attempt yet, and due
      at any time. */
  lemma EnqueueIs(w: World, n: Name, payload: Payload, now: real, k: nat)
    requires k >= 3
    ensures var w' := Execute(w, PlanOf(w, Enqueue(n, payload, now)), k);
            && OnlyAbout(w, w', n) && w'.quarantine == w.quarantine && w'.posts == w.posts
            && n in w'.json && w'.json[n] == Whole(Record(payload, 0, None, now)) && n !in w'.tmp
            && forall t :: Due(w'.json[n].record, t)
  {
    ExecuteUpTo3(w, EnqueuePlan(n, payload, now), k);
  }

  /** Scanning a file leaves it alone if it can be read, is missing or is garbled; else
      it is moved aside. */
  lemma ScanIs(w: World, n: Name, read: Reading, quarantineRead: Reading, k: nat)
    requires k >= 3
    ensures var w' := Execute(w, PlanOf(w, Call.Scan(n, read, quarantineRead)), k);
            if n !in w.json || Loads(w, n, read) || read.Garbled? || quarantineRead.Garbled? then w' == w
            else w'.posts == w.posts && MovedAside(w, w', n, CorruptJson, quarantineRead)
  {
    hide Execute, MovedAside;
    ExecuteNothing(w, k);
    if n in w.json && !Loads(w, n, read) && !read.Garbled? {
      AsideIs(w, n, CorruptJson, quarantineRead, k);
    }
  }

  // -- a whole pass ------------------------------------------------------------------------

  /** After the answer the event is still pending: it is to be tried again and was not
      moved aside because the file could not be read to mark it, or its move aside
      raised. */
  predicate StaysPending(r: Reply) {
    match r.outcome
    case Acknowledged => false
    case Conflict => false
    case CameraGone => false
    case QuarantineIt => r.quarantineRead.Garbled?
    case _ => !r.markRead.Bad? || r.quarantineRead.Garbled?
  }

  lemma SettledPending(w: World, w': World, n: Name, r: Reply)
    requires n in w.json && w.json[n].Whole? && Settles(w, w', n, r)
    ensures n in w'.json <==> StaysPending(r)
    ensures OnlyAbout(w, w', n)
  {
  }

  lemma DeliveryLength(w: World, n: Name, r: Reply)
    ensures |PlanOf(w, Deliver(n, r))| <= 4
  {
    hide Marked;
  }

  /** Every pending file is readable and due, and no clock or jitter is negative. */
  predicate AllReady(w: World, names: seq<Name>, reply: Name -> Reply) {
    forall i :: 0 <= i < |names| ==>
      && Loads(w, names[i], reply(names[i]).loadRead) && Due(w.json[names[i]].record, reply(names[i]).now)
      && reply(names[i]).jitter >= 0.0
  }

  /** The first `i` files were dealt with, the others are as they were. */
  ghost predicate Halfway(w: World, w': World, names: seq<Name>, reply: Name -> Reply, i: nat)
    requires i <= |names|
  {
    && (forall j :: 0 <= j < i ==> (names[j] in w'.json <==> StaysPending(reply(names[j]))))
    && (forall j :: i <= j < |names| ==>
          && (names[j] in w'.json <==> names[j] in w.json)
          && (names[j] in w.json ==> w'.json[names[j]] == w.json[names[j]]))
    && (forall m :: m !in names ==> (m in w'.json <==> m in w.json))
  }

  lemma HalfwayNext(w: World, before: World, after: World, names: seq<Name>, reply: Name -> Reply, i: nat)
    requires i < |names| && (forall a, b :: 0 <= a < b < |names| ==> names[a] != names[b])
    requires Halfway(w, before, names, reply, i)
    requires OnlyAbout(before, after, names[i]) && (names[i] in after.json <==> StaysPending(reply(names[i])))
    ensures Halfway(w, after, names, reply, i + 1)
  {
    hide StaysPending;
  }

  lemma NothingYet(w: World, names: seq<Name>, reply: Name -> Reply)
    ensures Halfway(w, w, names, reply, 0)
  {
  }

  lemma HalfwayKeeps(w: World, before: World, names: seq<Name>, reply: Name -> Reply, i: nat)
    requires i < |names| && Halfway(w, before, names, reply, i) && names[i] in w.json
    ensures names[i] in before.json && before.json[names[i]] == w.json[names[i]]
  {
  }

  lemma ReadyAt(w: World, names: seq<Name>, reply: Name -> Reply, i: nat)
    requires i < |names| && AllReady(w, names, reply)
    ensures var n := names[i];
            Loads(w, n, reply(n).loadRead) && Due(w.json[n].record, reply(n).now) && reply(n).jitter >= 0.0
  {
  }

  /** One more file of a pass. */
  lemma PassOneMore(w: World, before: World, names: seq<Name>, reply: Name -> Reply, i: nat, ops: nat)
    requires i < |names| && (forall a, b :: 0 <= a < b < |names| ==> names[a] != names[b])
    requires AllReady(w, names, reply) && Halfway(w, before, names, reply, i) && ops >= 4
    ensures var plan := PlanOf(before, Deliver(names[i], reply(names[i])));
            Halfway(w, Execute(before, plan, ops), names, reply, i + 1) && |plan| <= 4
  {
    hide Execute, DeliverPlan, Settles, OnlyAbout, StaysPending, Halfway, AllReady;
    var n := names[i];
    ReadyAt(w, names, reply, i);
    HalfwayKeeps(w, before, names, reply, i);
    DeliveryIs(before, n, reply(n), ops);
    DeliveryLength(before, n, reply(n));
    var after := Execute(before, PlanOf(before, Deliver(n, reply(n))), ops);
    SettledPending(before, after, n, reply(n));
    HalfwayNext(w, before, after, names, reply, i);
  }

  lemma {:induction false} PassHalfway(w: World, names: seq<Name>, reply: Name -> Reply, k: nat, i: nat)
    requires i <= |names| && (forall a, b :: 0 <= a < b < |names| ==> names[a] != names[b])
    requires AllReady(w, names, reply) && k >= 4 * |names|
    ensures var calls := Deliveries(names, reply);
            && OpsAfter(w, calls[..i], k) >= 4 * (|names| - i)
            && Halfway(w, WorldAfter(w, calls[..i], k), names, reply, i)
  {
    hide Execute, PlanOf, Halfway, AllReady, WorldAfter, OpsAfter;
    var calls := Deliveries(names, reply);
    if i == 0 {
      assert calls[..0] == [];
      NoCalls(w, k);
      NothingYet(w, names, reply);
    } else {
      PassHalfway(w, names, reply, k, i - 1);
      CallsNext(w, calls, k, i - 1);
      PassOneMore(w, WorldAfter(w, calls[..i - 1], k), names, reply, i - 1, OpsAfter(w, calls[..i - 1], k));
    }
  }

  /** A whole pass over files that are readable and due leaves pending exactly those
      whose answer keeps them so. */
  lemma PassIs(w: World, names: seq<Name>, reply: Name -> Reply, k: nat)
    requires Listing(names, w) && AllReady(w, names, reply) && k >= 4 * |names|
    ensures forall n :: n in WorldAfter(w, Deliveries(names, reply), k).json <==> n in w.json && StaysPending(reply(n))
  {
    hide WorldAfter, OpsAfter, StaysPending;
    ListedOnce(w, names, m => Good);
    var calls := Deliveries(names, reply);
    PassHalfway(w, names, reply, k, |names|);
    assert calls[..|names|] == calls;
    assert forall n :: n in names <==> n in (set m | m in names);
  }

  /** So one pass on which the backend settles everything leaves the outbox empty. */
  lemma PassClears(w: World, names: seq<Name>, reply: Name -> Reply, k: nat)
    requires Listing(names, w) && AllReady(w, names, reply) && k >= 4 * |names|
    requires forall n :: n in w.json ==>
               var o := reply(n).outcome; o.Acknowledged? || o.Conflict? || o.CameraGone?
    ensures WorldAfter(w, Deliveries(names, reply), k).json == map[]
  {
    hide WorldAfter, OpsAfter;
    PassIs(w, names, reply, k);
    forall n | n in w.json
      ensures !StaysPending(reply(n))
    {
    }
  }
}
