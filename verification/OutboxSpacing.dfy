/** How far apart the attempts to deliver one event are. */
module OutboxSpacing {
  import opened Common
  import opened OutboxModel

  function LastTry(posts: seq<Post>, n: Name): Option<real> {
    if posts == [] then None
    else
      var last := posts[|posts| - 1];
      if last.name == n then Some(last.at) else LastTry(posts[..|posts| - 1], n)
  }

  /** What a record says about the last try: none yet, or the event is due again
      since then, or it asks for at least the backoff of its attempts after it. */
  predicate Spaced(posts: seq<Post>, n: Name, record: Record) {
    match LastTry(posts, n)
    case None => record.attempts == 0 && record.nextAttemptAt.None?
    case Some(t) =>
      || record.nextAttemptAt.None? || record.nextAttemptAt.value <= t
      || record.nextAttemptAt.value >= t + Base(record.attempts)
  }

  /** The record asks to wait past the last try. */
  predicate Waits(posts: seq<Post>, n: Name, record: Record) {
    LastTry(posts, n).Some? && record.nextAttemptAt.Some? && record.nextAttemptAt.value > LastTry(posts, n).value
  }

  predicate AllSpaced(w: World) {
    forall n :: n in w.json ==> w.json[n].Whole? && Spaced(w.posts, n, w.json[n].record)
  }

  /** The clock does not run back within a delivery. */
  predicate Timely(c: Call) {
    c.Deliver? ==> c.reply.now <= c.reply.markedAt && c.reply.jitter >= 0.0
  }

  lemma LastTryAppend(posts: seq<Post>, post: Post, n: Name)
    ensures LastTry(posts + [post], n) == if post.name == n then Some(post.at) else LastTry(posts, n)
  {
    assert (posts + [post])[..|posts|] == posts;
  }

  lemma {:induction false} NoTries(posts: seq<Post>, n: Name)
    requires forall i :: 0 <= i < |posts| ==> posts[i].name != n
    ensures LastTry(posts, n) == None
  {
    if posts != [] {
      NoTries(posts[..|posts| - 1], n);
    }
  }

  lemma BackoffAtLeastBase(attempts: nat, jitter: real, auth: bool)
    requires jitter >= 0.0
    ensures Backoff(attempts, jitter, auth) >= Base(attempts) > 0.0
  {
    assert Base(attempts) > 0.0 && Base(attempts) * jitter >= 0.0;
  }

  lemma AtomicWriteSpaced(w: World, n: Name, record: Record, k: nat)
    requires AllSpaced(w) && Spaced(w.posts, n, record)
    ensures AllSpaced(Execute(w, AtomicWrite(n, record), k))
  {
    ExecuteUpTo3(w, AtomicWrite(n, record), k);
  }

  lemma QuarantineSpaced(w: World, n: Name, reason: Reason, read: Reading, k: nat)
    requires AllSpaced(w)
    ensures AllSpaced(Execute(w, QuarantinePlan(w, n, reason, read), k))
  {
    if n in w.json && !read.Garbled? {
      ExecuteUpTo3(w, QuarantinePlan(w, n, reason, read), k);
    }
  }

  lemma UnlinkSpaced(w: World, n: Name, k: nat)
    requires AllSpaced(w)
    ensures AllSpaced(Execute(w, [Unlink(n)], k))
  {
    if k > 0 {
      assert Execute(w, [Unlink(n)], k) == Execute(ApplyFs(w, Unlink(n)), [], k - 1);
    }
  }

  /** A post happens only when the event is due. */
  lemma SendSpaced(w: World, post: Post)
    requires AllSpaced(w) && (post.name in w.json ==> Due(w.json[post.name].record, post.at))
    ensures AllSpaced(ApplyFs(w, Send(post)))
  {
    var w' := ApplyFs(w, Send(post));
    forall n | n in w'.json
      ensures w'.json[n].Whole? && Spaced(w'.posts, n, w'.json[n].record)
    {
      LastTryAppend(w.posts, post, n);
      assert Spaced(w.posts, n, w.json[n].record);
    }
  }

  lemma SendKeepsFiles(w: World, post: Post)
    ensures ApplyFs(w, Send(post)) == w.(posts := w.posts + [post])
  {
  }

  lemma MarkedWaits(posts: seq<Post>, post: Post, record: Record, r: Reply)
    requires post.at == r.now && r.now <= r.markedAt && r.jitter >= 0.0
    ensures Spaced(posts + [post], post.name, Marked(record, r)) && Waits(posts + [post], post.name, Marked(record, r))
  {
    hide Backoff, Base;
    LastTryAppend(posts, post, post.name);
    BackoffAtLeastBase(record.attempts + 1, r.jitter, r.outcome.AuthFailure?);
  }

  lemma OutcomeSpaced(w: World, n: Name, payload: Payload, r: Reply, k: nat)
    requires AllSpaced(w) && n in w.json && r.now <= r.markedAt && r.jitter >= 0.0 && Due(w.json[n].record, r.now)
    ensures var w1 := ApplyFs(w, Send(Post(n, payload, r.now, r.outcome)));
            AllSpaced(Execute(w1, OutcomePlan(w1, n, r), k))
  {
    hide Execute, ApplyFs, AllSpaced, Spaced, Due;
    var post := Post(n, payload, r.now, r.outcome);
    var w1 := ApplyFs(w, Send(post));
    SendSpaced(w, post);
    SendKeepsFiles(w, post);
    if Terminal(r.outcome) {
      UnlinkSpaced(w1, n, k);
    } else if r.outcome.QuarantineIt? {
      QuarantineSpaced(w1, n, ValidationRejected, r.quarantineRead, k);
    } else if r.markRead.Garbled? {
      ExecuteNothing(w1, k);
    } else if !Loads(w1, n, r.markRead) {
      QuarantineSpaced(w1, n, CorruptJson, r.quarantineRead, k);
    } else if w1.json[n].record.attempts + 1 > MAX_EXPONENT {
      ExecuteNothing(w1, k);
    } else {
      MarkedWaits(w.posts, post, w.json[n].record, r);
      AtomicWriteSpaced(w1, n, Marked(w1.json[n].record, r), k);
    }
  }

  lemma NeverTried(w: World, n: Name)
    requires Intact(w) && n !in w.accepted
    ensures LastTry(w.posts, n) == None
  {
    forall i | 0 <= i < |w.posts|
      ensures w.posts[i].name != n
    {
    }
    NoTries(w.posts, n);
  }

  lemma FirstIsSpaced(posts: seq<Post>, n: Name, record: Record)
    requires LastTry(posts, n) == None && record.attempts == 0 && record.nextAttemptAt == None
    ensures Spaced(posts, n, record)
  {
  }

  lemma CutKeepsSpaced(w: World, c: Call, k: nat)
    requires Intact(w) && AllSpaced(w) && Fresh(w, c) && Timely(c)
    ensures AllSpaced(Execute(w, PlanOf(w, c), k))
  {
    hide Execute, AllSpaced, OutcomePlan, Spaced;
    match c
    case Enqueue(n, payload, now) =>
      NeverTried(w, n);
      FirstIsSpaced(w.posts, n, Record(payload, 0, None, now));
      AtomicWriteSpaced(w, n, Record(payload, 0, None, now), k);
    case Scan(n, read, quarantineRead) =>
      if Loads(w, n, read) || read.Garbled? {
        ExecuteNothing(w, k);
      } else {
        QuarantineSpaced(w, n, CorruptJson, quarantineRead, k);
      }
    case Deliver(n, r) =>
      if r.loadRead.Garbled? {
        ExecuteNothing(w, k);
      } else if !Loads(w, n, r.loadRead) {
        QuarantineSpaced(w, n, CorruptJson, r.quarantineRead, k);
      } else if !Due(w.json[n].record, r.now) {
        ExecuteNothing(w, k);
      } else {
        var payload := w.json[n].record.payload;
        var post := Post(n, payload, r.now, r.outcome);
        ExecuteSendFirst(w, post, OutcomePlan(w, n, r), k);
        if k > 0 {
          OutcomePlanIgnoresPosts(w, post, n, r);
          OutcomeSpaced(w, n, payload, r, k - 1);
        }
      }
  }

  lemma EmptyIsSpaced(cuts: seq<Cut>)
    ensures AllSpaced(After(cuts, 0))
  {
  }

  lemma {:induction false} RunsSpace(cuts: seq<Cut>, n: nat)
    requires n <= |cuts| && AllFresh(cuts, n) && forall k :: 0 <= k < n ==> Timely(cuts[k].call)
    ensures AllSpaced(After(cuts, n))
  {
    hide Fresh, PlanOf, Execute, AllSpaced, Intact;
    if n == 0 {
      EmptyIsSpaced(cuts);
    } else {
      RunsSpace(cuts, n - 1);
      RunsStayIntact(cuts, n - 1);
      CutKeepsSpaced(After(cuts, n - 1), cuts[n - 1].call, cuts[n - 1].ops);
    }
  }

  /** The spacing of retries, exactly. In every run, an event that was posted and is
      still pending is not due before the backoff of its attempts has passed since
      its last post if and only if its record asks to wait past that post;
      otherwise it is due again at once. */
  lemma SpacedIff(cuts: seq<Cut>, n: nat, e: Name)
    requires n <= |cuts| && AllFresh(cuts, n) && forall k :: 0 <= k < n ==> Timely(cuts[k].call)
    requires e in After(cuts, n).json && LastTry(After(cuts, n).posts, e).Some?
    ensures var w := After(cuts, n);
            && w.json[e].Whole?
            && var record, last := w.json[e].record, LastTry(w.posts, e).value;
               && ((forall now :: Due(record, now) ==> now >= last + Base(record.attempts))
                   <==> Waits(w.posts, e, record))
               && (!Waits(w.posts, e, record) ==> Due(record, last))
  {
    hide Backoff, After, LastTry, Base;
    RunsSpace(cuts, n);
    var w := After(cuts, n);
    var record, last := w.json[e].record, LastTry(w.posts, e).value;
    BackoffAtLeastBase(record.attempts, 0.0, false);
    assert Spaced(w.posts, e, record);
    assert !Waits(w.posts, e, record) ==> Due(record, last);
  }

  lemma QuarantinedOrKept(w: World, n: Name, reason: Reason, read: Reading, k: nat)
    requires n in w.json
    ensures var w' := Execute(w, QuarantinePlan(w, n, reason, read), k);
            w'.posts == w.posts && (n in w'.json ==> w'.json[n] == w.json[n])
  {
    if !read.Garbled? {
      ExecuteUpTo3(w, QuarantinePlan(w, n, reason, read), k);
    }
  }

  /** What the rest of a delivery leaves of its own file. */
  lemma AfterOutcome(w: World, n: Name, r: Reply, k: nat)
    requires n in w.json && w.json[n].Whole?
    ensures var w' := Execute(w, OutcomePlan(w, n, r), k);
            && w'.posts == w.posts
            && (n in w'.json ==>
                  w'.json[n] == if (r.outcome.Retry? || r.outcome.AuthFailure?) && r.markRead.Good?
                                   && w.json[n].record.attempts < MAX_EXPONENT && k >= 3
                                then Whole(Marked(w.json[n].record, r)) else w.json[n])
  {
    hide Marked;
    if Terminal(r.outcome) {
      if k > 0 {
        assert Execute(w, [Unlink(n)], k) == Execute(ApplyFs(w, Unlink(n)), [], k - 1);
      }
    } else if r.outcome.QuarantineIt? {
      QuarantinedOrKept(w, n, ValidationRejected, r.quarantineRead, k);
    } else if r.markRead.Garbled? {
      ExecuteNothing(w, k);
    } else if r.markRead.Bad? {
      QuarantinedOrKept(w, n, CorruptJson, r.quarantineRead, k);
    } else if w.json[n].record.attempts < MAX_EXPONENT {
      ExecuteUpTo3(w, AtomicWrite(n, Marked(w.json[n].record, r)), k);
    }
  }

  /** When the record of a posted, still pending event waits: exactly when the
      attempt was marked to the end, which takes an outcome to retry, a readable
      file, fewer attempts than the backoff can be computed for, and no stop
      before the rename. */
  lemma MarkedIff(w: World, n: Name, r: Reply, k: nat)
    requires Loads(w, n, r.loadRead) && Due(w.json[n].record, r.now) && Timely(Deliver(n, r)) && k >= 1
    requires n in Execute(w, DeliverPlan(w, n, r), k).json
    ensures var w' := Execute(w, DeliverPlan(w, n, r), k);
            && w'.json[n].Whole? && LastTry(w'.posts, n) == Some(r.now)
            && (Waits(w'.posts, n, w'.json[n].record) <==>
                  && (r.outcome.Retry? || r.outcome.AuthFailure?) && r.markRead.Good?
                  && w.json[n].record.attempts < MAX_EXPONENT && k >= 4)
  {
    hide Backoff, LastTry, Execute, OutcomePlan;
    var post := Post(n, w.json[n].record.payload, r.now, r.outcome);
    ExecuteSendFirst(w, post, OutcomePlan(w, n, r), k);
    OutcomePlanIgnoresPosts(w, post, n, r);
    LastTryAppend(w.posts, post, n);
    MarkedWaits(w.posts, post, w.json[n].record, r);
    AfterOutcome(ApplyFs(w, Send(post)), n, r, k - 1);
  }

  lemma QuarantinePosts(w: World, n: Name, reason: Reason, read: Reading, k: nat)
    ensures Execute(w, QuarantinePlan(w, n, reason, read), k).posts == w.posts
  {
    if n in w.json && !read.Garbled? {
      ExecuteUpTo3(w, QuarantinePlan(w, n, reason, read), k);
    }
  }

  lemma OnlyDeliveriesPost(w: World, c: Call, k: nat)
    requires |Execute(w, PlanOf(w, c), k).posts| > |w.posts|
    ensures c.Deliver? && Loads(w, c.name, c.reply.loadRead) && Due(w.json[c.name].record, c.reply.now)
  {
    match c
    case Enqueue(n, payload, now) => ExecuteUpTo3(w, PlanOf(w, c), k);
    case Scan(n, read, q) => QuarantinePosts(w, n, CorruptJson, q, k);
    case Deliver(n, r) => QuarantinePosts(w, n, CorruptJson, r.quarantineRead, k);
  }

  /** In every run, a call that posts an event posts the accepted payload, not
      before the time its record asks for, and, if the record waits past the last
      post, at least the backoff of its attempts after that. */
  lemma PostsWait(cuts: seq<Cut>, n: nat)
    requires n < |cuts| && AllFresh(cuts, n) && forall k :: 0 <= k < n ==> Timely(cuts[k].call)
    requires |After(cuts, n + 1).posts| > |After(cuts, n).posts|
    ensures var w, call := After(cuts, n), cuts[n].call;
            && call.Deliver? && call.name in w.json && w.json[call.name].Whole? && call.name in w.accepted
            && var record := w.json[call.name].record;
               && record.payload == w.accepted[call.name]
               && Due(record, call.reply.now)
               && (Waits(w.posts, call.name, record) ==>
                     call.reply.now >= LastTry(w.posts, call.name).value + Base(record.attempts))
  {
    var w, call := After(cuts, n), cuts[n].call;
    RunsStayIntact(cuts, n);
    RunsSpace(cuts, n);
    OnlyDeliveriesPost(w, call, cuts[n].ops);
  }

  /** A delivery that stops right after its post. */
  lemma FirstPost(w: World, n: Name, r: Reply)
    requires Loads(w, n, r.loadRead) && Due(w.json[n].record, r.now)
    ensures Execute(w, PlanOf(w, Deliver(n, r)), 1)
         == w.(posts := w.posts + [Post(n, w.json[n].record.payload, r.now, r.outcome)])
  {
    var post := Post(n, w.json[n].record.payload, r.now, r.outcome);
    ExecuteSendFirst(w, post, OutcomePlan(w, n, r), 1);
  }

  /** A run in which a retry is not spaced: the process stops between a post and its
      mark, and posts again at once. */
  lemma StopBeforeMarkRepeats()
    ensures exists cuts: seq<Cut> ::
              && |cuts| == 3 && AllFresh(cuts, 3) && (forall k :: 0 <= k < 3 ==> Timely(cuts[k].call))
              && |After(cuts, 3).posts| == 2
              && After(cuts, 3).posts[0].name == After(cuts, 3).posts[1].name
              && After(cuts, 3).posts[0].at == After(cuts, 3).posts[1].at
  {
    var n, payload := Name(0, 0), Payload(0, 1, 0);
    var reply := Reply(Good, Good, Good, Retry, 5.0, 5.0, 0.0);
    var again := Deliver(n, reply);
    var cuts := [Cut(Enqueue(n, payload, 0.0), 3), Cut(again, 1), Cut(again, 1)];
    var w0, w1, w2, w3 := After(cuts, 0), After(cuts, 1), After(cuts, 2), After(cuts, 3);
    ExecuteUpTo3(w0, EnqueuePlan(n, payload, 0.0), 3);
    assert w1 == Execute(w0, EnqueuePlan(n, payload, 0.0), 3);
    assert w1.json == map[n := Whole(Record(payload, 0, None, 0.0))] && w1.posts == [];
    FirstPost(w1, n, reply);
    assert w2 == Execute(w1, PlanOf(w1, again), 1);
    FirstPost(w2, n, reply);
    assert w3 == Execute(w2, PlanOf(w2, again), 1);
    assert AllFresh(cuts, 3);
  }
}
