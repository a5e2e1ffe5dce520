/** What the proxy answers to central in a transfer that nothing disturbs: where it resumes, one
    confirmation without a digest for each section but the last, and the digest at the end. */
module CentralDialogue {
  import opened Common
  import opened Sections
  import opened Messages
  import opened Receiver
  import opened ReceiverSafety
  import opened CentralCache
  import Dispatch

  // ----- The ordinary replies

  function ResumeAt(meta: FileMeta, k: nat, digest: Digest): Reply
    requires meta.geometry.sectionBlocks != 0
  {
    Resume(meta.transferId, k, Count(meta.geometry), meta.geometry.fileSize, digest)
  }

  /** `n` confirmations of sections before the last one. */
  function Confirmations(meta: FileMeta, n: nat): seq<Reply> {
    seq(n, _ => Cached(meta.transferId, meta.geometry.fileSize, NO_DIGEST))
  }

  /** The replies to a transfer that resumes at section `k`; all sections are there already if `k` is their
      number. */
  function OrdinaryReplies(meta: FileMeta, k: nat): seq<Reply>
    requires meta.geometry.sectionBlocks != 0 && k <= Count(meta.geometry)
  {
    if k == Count(meta.geometry) then [ResumeAt(meta, k, meta.sha256)]
    else
      [ResumeAt(meta, k, NO_DIGEST)] + Confirmations(meta, Count(meta.geometry) - 1 - k)
      + [Cached(meta.transferId, meta.geometry.fileSize, meta.sha256)]
  }

  // ----- The replies of a run

  /** The reply that event `e` sends, read off the proxy after it. */
  function ReplyTo(meta: FileMeta, e: CentralCache.Event, q: Proxy): seq<Reply>
    requires meta.geometry.sectionBlocks != 0
  {
    match e
    case Open =>
      if q.session.None? then [ResumeAt(meta, Count(meta.geometry), meta.sha256)]
      else [ResumeAt(meta, q.session.value.nextSection, NO_DIGEST)]
    case Confirm => Confirmations(meta, 1)
    case CommitFile => [Cached(meta.transferId, meta.geometry.fileSize, meta.sha256)]
    case _ => []
  }

  /** These are the replies that the steps send. */
  lemma StepSends(w: World, id: uint64, p: Proxy, e: CentralCache.Event, q: Proxy)
    requires SoundFile(w, id) && CentralCache.Inv(w, id, p) && CentralCache.Step(w, id, p, e, q)
    ensures forall r :: r in q.replies <==> r in p.replies || r in ReplyTo(w.meta(id), e, q)
  {
    hide Dispatch.Inv, Dispatch.Enabled, Dispatch.Next, CacheOk, RepliesOk, FullSize, Faithful, Count, First, AfterEnd,
      EndAccepted, OnCentralData, LoadCheckpoint;
    MetaId(w, id);
    OpensAtResume(p.disk, w.meta(id));
    assert Confirmations(w.meta(id), 1) == [Cached(id, w.meta(id).geometry.fileSize, NO_DIGEST)];
    var replies := ReplyTo(w.meta(id), e, q);
    if replies == [] {
      assert q.replies == p.replies;
    } else {
      assert replies == [replies[0]] && q.replies == p.replies + {replies[0]};
    }
  }

  lemma OpensAtResume(disk: CacheDisk, meta: FileMeta)
    requires meta.geometry.sectionBlocks != 0
    ensures var s := OpenSession(disk, meta); s.nextSection == s.resume
  {
  }

  /** The replies of events a..b-1, in order. */
  ghost function RepliesAlong(w: World, id: uint64, run: CentralCache.Run, a: nat, b: nat): seq<Reply>
    requires w.meta(id).geometry.sectionBlocks != 0 && |run.states| == |run.events| + 1 && a <= b <= |run.events|
    decreases b
  {
    if a == b then []
    else RepliesAlong(w, id, run, a, b - 1) + ReplyTo(w.meta(id), run.events[b - 1], run.states[b])
  }

  /** The events of one session from its opening to its end, with no disconnect and no kill. */
  ghost predicate Undisturbed(run: CentralCache.Run, a: nat, b: nat)
    requires |run.states| == |run.events| + 1
  {
    && a < b <= |run.events| && run.states[a].session.None? && run.events[a].Open? && run.states[b].session.None?
    && forall m :: a < m < b ==> run.states[m].session.Some? && Gentle(run.events[m])
  }

  predicate Gentle(e: CentralCache.Event) {
    !e.Close? && !e.KillAfterTruncate? && !e.KillInWrite? && !e.KillAfterRename?
  }

  /** While the session lasts: it resumed at `k`, and each section from there on was confirmed. */
  ghost predicate Talking(meta: FileMeta, p: Proxy, k: nat, replies: seq<Reply>)
    requires meta.geometry.sectionBlocks != 0
  {
    p.session.Some? && k <= p.session.value.nextSection
    && replies == [ResumeAt(meta, k, NO_DIGEST)] + Confirmations(meta, p.session.value.nextSection - k)
  }

  lemma OpeningReply(w: World, id: uint64, p: Proxy, q: Proxy)
    requires SoundFile(w, id) && CentralCache.Step(w, id, p, Open, q) && q.session.Some?
    ensures Talking(w.meta(id), q, q.session.value.nextSection, ReplyTo(w.meta(id), Open, q))
  {
    hide Count, LoadCheckpoint;
  }

  lemma TalkGoesOn(w: World, id: uint64, p: Proxy, e: CentralCache.Event, q: Proxy, k: nat,
                   replies: seq<Reply>)
    requires SoundFile(w, id) && CentralCache.Step(w, id, p, e, q) && !e.Open? && Gentle(e)
    requires Talking(w.meta(id), p, k, replies) && q.session.Some?
    ensures Talking(w.meta(id), q, k, replies + ReplyTo(w.meta(id), e, q))
  {
    hide Dispatch.Enabled, Dispatch.Next, Count, EndAccepted, Expected, Placed, Dispatched, CentralCache.Idle;
    var meta, s, t := w.meta(id), p.session.value, q.session.value;
    if e.Confirm? {
      assert Confirmations(meta, t.nextSection - k) == Confirmations(meta, s.nextSection - k) + Confirmations(meta, 1);
    }
  }

  /** The session ends with the commit of the last section. */
  lemma LastReply(w: World, id: uint64, p: Proxy, e: CentralCache.Event, q: Proxy, k: nat,
                  replies: seq<Reply>)
    requires SoundFile(w, id) && CentralCache.Inv(w, id, p) && CentralCache.Step(w, id, p, e, q)
    requires !e.Open? && Gentle(e) && Talking(w.meta(id), p, k, replies) && q.session.None?
    ensures k < Count(w.meta(id).geometry)
    ensures replies + ReplyTo(w.meta(id), e, q) == OrdinaryReplies(w.meta(id), k)
  {
    hide Dispatch.Inv, Dispatch.Enabled, Dispatch.Next, Count, CacheOk, RepliesOk, FullSize, Faithful, First,
      EndAccepted, OnCentralData, AfterEnd;
    assert e.CommitFile?;
    assert p.session.value.nextSection + 1 == Count(w.meta(id).geometry);
  }

  lemma {:induction false} TalkAlong(w: World, id: uint64, run: CentralCache.Run, a: nat, m: nat)
    requires SoundFile(w, id) && CentralCache.IsRun(w, id, run) && a < m <= |run.events|
    requires run.states[a].session.None? && run.events[a].Open?
    requires forall i :: a < i <= m ==> run.states[i].session.Some?
    requires forall i :: a < i < m ==> Gentle(run.events[i])
    ensures Talking(w.meta(id), run.states[m], run.states[a + 1].session.value.nextSection,
                    RepliesAlong(w, id, run, a, m))
    decreases m
  {
    hide CentralCache.Step, Talking, Gentle, ReplyTo, HonestFrame;
    assert CentralCache.RunStep(w, id, run, m - 1);
    if m == a + 1 {
      OpeningReply(w, id, run.states[a], run.states[m]);
      assert RepliesAlong(w, id, run, a, a) == [];
      assert RepliesAlong(w, id, run, a, m) == ReplyTo(w.meta(id), Open, run.states[m]);
    } else {
      TalkAlong(w, id, run, a, m - 1);
      OpenNeedsNone(w, id, run, m - 1);
      TalkGoesOn(w, id, run.states[m - 1], run.events[m - 1], run.states[m],
                 run.states[a + 1].session.value.nextSection, RepliesAlong(w, id, run, a, m - 1));
    }
  }

  lemma OpenNeedsNone(w: World, id: uint64, run: CentralCache.Run, m: nat)
    requires SoundFile(w, id) && CentralCache.IsRun(w, id, run) && m < |run.events| && run.states[m].session.Some?
    ensures !run.events[m].Open?
  {
    hide OpenSession, OpenDisk, SessionStep, Count;
    assert CentralCache.RunStep(w, id, run, m);
  }

  /** In every run, a session that opens and ends undisturbed sends the ordinary replies: from where it
      resumes, or the digest at once if the file is already cached. */
  lemma UndisturbedReplies(w: World, id: uint64, run: CentralCache.Run, a: nat, b: nat)
    requires SoundFile(w, id) && CentralCache.IsRun(w, id, run) && |run.states| == |run.events| + 1
    requires Undisturbed(run, a, b)
    ensures exists k :: 0 <= k <= Count(w.meta(id).geometry)
                        && RepliesAlong(w, id, run, a, b) == OrdinaryReplies(w.meta(id), k)
  {
    hide CentralCache.Inv, CentralCache.Step, Gentle, ReplyTo, Talking, OrdinaryReplies, HonestFrame, Count;
    assert CentralCache.RunStep(w, id, run, b - 1);
    if b == a + 1 {
      assert RepliesAlong(w, id, run, a, a) == [];
      assert RepliesAlong(w, id, run, a, b) == ReplyTo(w.meta(id), Open, run.states[b]);
      CachedAtOnce(w.meta(id), run.states[b]);
    } else {
      TalkAlong(w, id, run, a, b - 1);
      CentralCache.RunKeeps(w, id, run, b - 1);
      OpenNeedsNone(w, id, run, b - 1);
      LastReply(w, id, run.states[b - 1], run.events[b - 1], run.states[b],
                run.states[a + 1].session.value.nextSection, RepliesAlong(w, id, run, a, b - 1));
    }
  }

  lemma CachedAtOnce(meta: FileMeta, q: Proxy)
    requires meta.geometry.sectionBlocks != 0 && q.session.None?
    ensures ReplyTo(meta, Open, q) == OrdinaryReplies(meta, Count(meta.geometry))
  {
    hide Count;
  }
}
