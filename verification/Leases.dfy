/** What a granted lease is worth: nobody takes the run over before it ends, and anybody who may can
    do so from then on, or as soon as it is released. */
module Leases {
  import opened RunTypes
  import opened RedisScripts

  /** The step grants run `k` a lease of `ms` milliseconds. */
  predicate Grants(s: State, op: Op, k: RunKey, ms: nat) {
    match op
    case DoStart(k', q) => k' == k && ms == q.leaseMs && (Start(s, k, q).1.Created? || Start(s, k, q).1.TookOver?)
    case DoAcquire(k', h, limit, ms') => k' == k && ms == ms' && Acquire(s, k, h, limit, ms).1.Acquired?
    case DoHeartbeat(k', h, ms') => k' == k && ms == ms' && Heartbeat(s, k, h, ms).1
    case DoResume(k', q) => k' == k && ms == q.leaseMs && Resume(s, k, q).1.Resumed?
    case _ => false
  }

  /** Nothing in the step cuts a lease of `ms` short: no release, and no shorter lease. */
  predicate Respects(op: Op, k: RunKey, ms: nat) {
    match op
    case DoRelease(k', _) => k' != k
    case DoStart(k', q) => k' == k ==> q.leaseMs >= ms
    case DoAcquire(k', _, _, ms') => k' == k ==> ms' >= ms
    case DoHeartbeat(k', _, ms') => k' == k ==> ms' >= ms
    case DoResume(k', q) => k' == k ==> q.leaseMs >= ms
    case _ => true
  }

  /** Nothing in the step can extend a lease of `k`. */
  predicate Renewless(op: Op, k: RunKey) {
    op.DoStart? || op.DoAcquire? || op.DoHeartbeat? || op.DoResume? ==> op.k != k
  }

  /** While the run needs a lease, it has one until `end` at least. */
  predicate LastsUntil(s: State, k: RunKey, end: nat) {
    k in s.runs && s.runs[k].status in {Queued, Running} ==> s.runs[k].leaseUntil >= end
  }

  predicate EndsBy(s: State, k: RunKey, end: nat) {
    k in s.runs && s.runs[k].status in {Queued, Running} ==> s.runs[k].leaseUntil <= end
  }

  lemma GrantedLease(s: State, op: Op, k: RunKey, ms: nat)
    requires Grants(s, op, k, ms)
    ensures var s' := Apply(s, op);
            && s'.now == s.now && k in s'.runs && s'.runs[k].status in {Queued, Running}
            && s'.runs[k].leaseUntil == s.now + ms
  {
    hide Move, Bump, LiveScores, Denies, AppendTo, CancelRun, PauseRun, Finish;
  }

  lemma AppendLease(r: Run, fence: nat, p: Payload, key: Option<EventKey>)
    ensures var r' := AppendTo(r, fence, p, key); r'.status == r.status && r'.leaseUntil == r.leaseUntil
  {
  }

  lemma CancelStatus(r: Run, q: CancelRequest)
    ensures CancelRun(r, q.error, q.errorEvent, q.doneEvent).status == Cancelled
  {
  }

  lemma PauseStatus(r: Run, i: Interaction, p: Payload)
    ensures PauseRun(r, i, p).status == WaitingForInput
  {
  }

  /** An append leaves lease and status alone, a pause or a cancellation ends the need for a lease. */
  lemma LogStep(s: State, op: Op, k: RunKey)
    requires op.DoAppend? || op.DoCancel? || op.DoPause?
    ensures var s' := Apply(s, op);
            && s'.now == s.now && (k in s'.runs ==> k in s.runs)
            && (k in s'.runs && s'.runs[k].status in {Queued, Running} ==>
                  s.runs[k].status in {Queued, Running} && s'.runs[k].leaseUntil == s.runs[k].leaseUntil)
  {
    hide Move, Denies, AppendTo, CancelRun, PauseRun, Holds;
    if k in s.runs && op.DoAppend? { AppendLease(s.runs[k], op.h.fence, op.payload, op.eventKey); }
    if k in s.runs && op.DoCancel? { CancelStatus(s.runs[k], op.cancel); }
    if k in s.runs && op.DoPause? { PauseStatus(s.runs[k], op.interaction, op.payload); }
  }

  /** A start or a resume grants its lease, or changes nothing. */
  lemma GrantStep(s: State, op: Op, k: RunKey)
    requires op.DoStart? || op.DoResume?
    ensures var s' := Apply(s, op);
            var ms := if op.DoStart? then op.start.leaseMs else op.resume.leaseMs;
            && s'.now == s.now && (op.k != k && k in s'.runs ==> k in s.runs && s'.runs[k] == s.runs[k])
            && (op.k == k && k in s'.runs ==>
                  (k in s.runs && s'.runs[k] == s.runs[k]) || s'.runs[k].leaseUntil == s.now + ms)
  {
    hide Move, Bump, LiveScores, Denies;
  }

  /** Every other step renews, drops or leaves the lease. */
  lemma OtherStep(s: State, op: Op, k: RunKey)
    requires op.Tick? || op.Expire? || op.DoAcquire? || op.DoHeartbeat? || op.DoRelease? || op.DoTransition?
             || op.DoSetRunId? || op.DoMarkFailed?
    ensures var s' := Apply(s, op);
            && s'.now >= s.now && (k in s'.runs ==> k in s.runs)
            && (k in s'.runs && s'.runs[k].status in {Queued, Running} ==>
                  && s.runs[k].status in {Queued, Running}
                  && (|| s'.runs[k].leaseUntil == s.runs[k].leaseUntil
                      || (op.DoRelease? && op.k == k && s'.runs[k].leaseUntil == 0)
                      || ((op.DoAcquire? || op.DoHeartbeat?) && op.k == k
                          && s'.runs[k].leaseUntil == s.now + op.leaseMs)))
  {
    hide Move, Bump, LiveScores, Holds;
  }

  lemma StepLasts(s: State, op: Op, k: RunKey, ms: nat, end: nat)
    requires LastsUntil(s, k, end) && Respects(op, k, ms) && s.now + ms >= end
    ensures LastsUntil(Apply(s, op), k, end) && Apply(s, op).now >= s.now
  {
    hide Apply;
    if op.DoAppend? || op.DoCancel? || op.DoPause? {
      LogStep(s, op, k);
    } else if op.DoStart? || op.DoResume? {
      GrantStep(s, op, k);
    } else {
      OtherStep(s, op, k);
    }
  }

  lemma StepEnds(s: State, op: Op, k: RunKey, end: nat)
    requires EndsBy(s, k, end) && Renewless(op, k)
    ensures EndsBy(Apply(s, op), k, end)
  {
    hide Apply;
    if op.DoAppend? || op.DoCancel? || op.DoPause? {
      LogStep(s, op, k);
    } else if op.DoStart? || op.DoResume? {
      GrantStep(s, op, k);
    } else {
      OtherStep(s, op, k);
    }
  }

  lemma {:induction false} Lasts(s: State, more: seq<Op>, k: RunKey, ms: nat, end: nat)
    requires LastsUntil(s, k, end) && s.now + ms >= end
    requires forall i :: 0 <= i < |more| ==> Respects(more[i], k, ms)
    ensures LastsUntil(Execute(s, more), k, end) && Execute(s, more).now >= s.now
  {
    hide Apply, LastsUntil, Respects;
    if more == [] {
    } else {
      Lasts(s, more[..|more| - 1], k, ms, end);
      StepLasts(Execute(s, more[..|more| - 1]), more[|more| - 1], k, ms, end);
    }
  }

  lemma {:induction false} Ends(s: State, more: seq<Op>, k: RunKey, end: nat)
    requires EndsBy(s, k, end)
    requires forall i :: 0 <= i < |more| ==> Renewless(more[i], k)
    ensures EndsBy(Execute(s, more), k, end)
  {
    hide Apply, EndsBy, Renewless;
    if more == [] {
    } else {
      Ends(s, more[..|more| - 1], k, end);
      StepEnds(Execute(s, more[..|more| - 1]), more[|more| - 1], k, end);
    }
  }

  /** A lease is exclusive: until it ends, no start takes the run over, whatever else happens, as
      long as it is not released and no shorter lease is granted in its place. */
  lemma LeaseIsExclusive(s: State, op: Op, k: RunKey, ms: nat, more: seq<Op>, q: StartRequest)
    requires Grants(s, op, k, ms) && forall i :: 0 <= i < |more| ==> Respects(more[i], k, ms)
    requires Execute(Apply(s, op), more).now < s.now + ms
    ensures !Start(Execute(Apply(s, op), more), k, q).1.TookOver?
  {
    hide Apply, Grants, Respects, TakeOver, NewRun, Move, Bump, LiveScores;
    GrantedLease(s, op, k, ms);
    Lasts(Apply(s, op), more, k, ms, s.now + ms);
  }

  /** The caller may use the run. */
  predicate Entitled(r: Run, q: StartRequest) {
    (r.user == None || r.user == q.user) && r.fingerprint == q.fingerprint && r.kind == q.kind
  }

  /** And not longer: once it has ended without a renewal, a start that may use the run takes it over
      if it is still queued or running. */
  lemma LeaseEnds(s: State, op: Op, k: RunKey, ms: nat, more: seq<Op>, q: StartRequest)
    requires Grants(s, op, k, ms) && forall i :: 0 <= i < |more| ==> Renewless(more[i], k)
    ensures var later := Execute(Apply(s, op), more);
            k in later.runs && later.runs[k].status in {Queued, Running} && later.now >= s.now + ms
            && Entitled(later.runs[k], q) ==>
              Start(later, k, q).1 == TookOver(later.runs[k].fence + 1)
  {
    hide Apply, Grants, Renewless, TakeOver, NewRun, Move, Bump, LiveScores;
    GrantedLease(s, op, k, ms);
    Ends(Apply(s, op), more, k, s.now + ms);
  }

  /** A released run can be taken over at once, and a release of a run that waits or has ended
      changes nothing. */
  lemma ReleasedIsFree(s: State, k: RunKey, h: Handle, q: StartRequest)
    requires k in s.runs && s.runs[k].owner == h.owner && s.runs[k].fence == h.fence
    ensures var after := Release(s, k, h).0;
            if s.runs[k].status in {Queued, Running}
            then && Release(s, k, h).1
                 && (Entitled(s.runs[k], q) ==> Start(after, k, q).1 == TookOver(s.runs[k].fence + 1))
            else after == s && Release(s, k, h).1 == (s.runs[k].status == WaitingForInput)
  {
    hide TakeOver, NewRun, Move, Bump, LiveScores;
  }

  /** Two instances cannot both start a run: the second call in the same lease attaches. */
  lemma SecondStartAttaches(s: State, k: RunKey, q: StartRequest, again: StartRequest)
    requires Start(s, k, q).1.Created? && q.leaseMs > 0
    requires again.fingerprint == q.fingerprint && again.kind == q.kind && again.user == q.user
    ensures Start(Start(s, k, q).0, k, again) == (Start(s, k, q).0, Attached(1))
  {
    hide Move, Bump, LiveScores;
  }
}
