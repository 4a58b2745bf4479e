/** The gateway callback: bounded retries with backoff, then a dead-letter file, over the single-event protocol. */
module Gateway {
  import opened Counting
  import opened Keys
  import opened SingleEvent

  /**
   * One POST and everything around it: the steps that requests of any client (late copies of this
   * one included) take before and during it, whether it reaches the server, whether it is refused
   * there before the idempotency check, and whether the reply gets back.
   */
  datatype Attempt = Attempt(before: seq<Step>, sent: bool, refused: bool, during: seq<Step>, replyLost: bool)

  /** What the gateway sees: a `RequestException`, a refusal such as 400 or 401, or an outcome's status. */
  datatype Answer = Silence | Refused | Answered(outcome: Outcome)

  function Deliver(s: State, org: string, event: string, a: Attempt): (State, Answer) {
    var s1 := Run(s, a.before);
    if !a.sent then (Run(s1, a.during), Silence)
    else if a.refused then (Run(s1, a.during), if a.replyLost then Silence else Refused)
    else
      var r := |s1.requests|;
      var arrived := Next(s1, Arrive(org, event));
      var s2 := Run(arrived, a.during);
      RequestsPersist(arrived, a.during, r);
      (s2, if a.replyLost || !s2.requests[r].pc.Done? then Silence else Answered(s2.requests[r].pc.outcome))
  }

  /** `Posted(s, ok, slept)`: the server's state, what `_post_event` returns, and its total sleep. */
  datatype Posted = Posted(s: State, ok: bool, slept: nat)

  /** The loop from attempt k on. */
  function PostFrom(s: State, org: string, event: string, attempts: seq<Attempt>, k: nat): Posted
    requires k <= |attempts|
    decreases |attempts| - k
  {
    if k == |attempts| then Posted(s, false, 0) else
      var (s', reply) := Deliver(s, org, event, attempts[k]);
      if reply == Answered(Accepted) then Posted(s', true, 0) else
        var rest := PostFrom(s', org, event, attempts, k + 1);
        rest.(slept := rest.slept + if reply.Silence? then Pow2(k) else 0)
  }

  function Post(s: State, org: string, event: string, attempts: seq<Attempt>): Posted {
    PostFrom(s, org, event, attempts, 0)
  }

  // ---- the callback as it runs ----

  class Ingest {
    var state: State

    constructor (state: State)
      ensures this.state == state
    {
      this.state := state;
    }
  }

  class DeadLetterFile {
    var lines: seq<(string, string)>

    constructor ()
      ensures lines == []
    {
      lines := [];
    }
  }

  method PostEvent(ingest: Ingest, file: DeadLetterFile, org: string, event: string, attempts: seq<Attempt>,
      writable: bool)
    returns (ok: bool, slept: nat)
    modifies ingest, file
    ensures Posted(ingest.state, ok, slept) == Post(old(ingest.state), org, event, attempts)
    ensures ok <==>
      exists k :: 0 <= k < |attempts| && ReplyTo(old(ingest.state), org, event, attempts, k) == Answered(Accepted)
    ensures file.lines == old(file.lines) + if !ok && writable then [(org, event)] else []
    ensures writable ==> AcceptedCount(ingest.state, IdemKey(org, event)) >= 1 || (org, event) in file.lines
  {
    slept := 0;
    ghost var posted := Post(ingest.state, org, event, attempts);
    OkIff202(ingest.state, org, event, attempts);
    if posted.ok {
      OkMeansAccepted(ingest.state, org, event, attempts, 0);
    }
    for k := 0 to |attempts|
      invariant file.lines == old(file.lines)
      invariant var whole, rest := Post(old(ingest.state), org, event, attempts),
          PostFrom(ingest.state, org, event, attempts, k);
        whole.s == rest.s && whole.ok == rest.ok && whole.slept == slept + rest.slept
    {
      var reply;
      ingest.state, reply := Deliver(ingest.state, org, event, attempts[k]).0,
          Deliver(ingest.state, org, event, attempts[k]).1;
      if reply == Answered(Accepted) {
        return true, slept;
      }
      if reply.Silence? {
        slept := slept + Pow2(k);
      }
    }
    if writable {
      file.lines := file.lines + [(org, event)];
    }
    return false, slept;
  }

  /** A reply that gets back tells what became of the request; a refused one never reaches the keys. */
  lemma DeliverReports(s: State, org: string, event: string, a: Attempt)
    requires a.sent && !a.replyLost
    ensures a.refused ==> Deliver(s, org, event, a) == (Run(Run(s, a.before), a.during), Refused)
    ensures !a.refused ==>
      var (s', reply) := Deliver(s, org, event, a);
      var r := |Run(s, a.before).requests|;
      && r < |s'.requests| && s'.requests[r].org == org && s'.requests[r].event == event
      && (s'.requests[r].pc.Done? ==> reply == Answered(s'.requests[r].pc.outcome))
      && (!s'.requests[r].pc.Done? ==> reply == Silence)
  {
    if !a.refused {
      var arrived := Next(Run(s, a.before), Arrive(org, event));
      RequestsPersist(arrived, a.during, |arrived.requests| - 1);
    }
  }

  // ---- the replies decide ----

  /** The server's state before attempt k, if all attempts before it were made. */
  function StateBefore(s: State, org: string, event: string, attempts: seq<Attempt>, k: nat): State
    requires k <= |attempts|
  {
    if k == 0 then s else Deliver(StateBefore(s, org, event, attempts, k - 1), org, event, attempts[k - 1]).0
  }

  /** The reply to attempt k, if all attempts before it were made. */
  function ReplyTo(s: State, org: string, event: string, attempts: seq<Attempt>, k: nat): Answer
    requires k < |attempts|
  {
    Deliver(StateBefore(s, org, event, attempts, k), org, event, attempts[k]).1
  }

  /** The seconds slept after those of the first k attempts that brought no reply. */
  function SleptBefore(s: State, org: string, event: string, attempts: seq<Attempt>, k: nat): nat
    requires k <= |attempts|
  {
    if k == 0 then 0 else
      SleptBefore(s, org, event, attempts, k - 1)
        + if ReplyTo(s, org, event, attempts, k - 1).Silence? then Pow2(k - 1) else 0
  }

  /** The first attempt answered 202, or the number of attempts. */
  ghost predicate First202(s: State, org: string, event: string, attempts: seq<Attempt>, k: nat) {
    && k <= |attempts|
    && (forall i :: 0 <= i < k ==> ReplyTo(s, org, event, attempts, i) != Answered(Accepted))
    && (k < |attempts| ==> ReplyTo(s, org, event, attempts, k) == Answered(Accepted))
  }

  lemma {:induction false} First202Exists(s: State, org: string, event: string, attempts: seq<Attempt>, j: nat)
    returns (k: nat)
    requires j <= |attempts|
    requires forall i :: 0 <= i < j ==> ReplyTo(s, org, event, attempts, i) != Answered(Accepted)
    ensures First202(s, org, event, attempts, k)
    decreases |attempts| - j
  {
    if j < |attempts| && ReplyTo(s, org, event, attempts, j) != Answered(Accepted) {
      k := First202Exists(s, org, event, attempts, j + 1);
    } else {
      k := j;
    }
  }

  /** One attempt of the loop. */
  lemma PostFromStep(s: State, org: string, event: string, attempts: seq<Attempt>, j: nat)
    requires j < |attempts|
    ensures var (s', reply) := Deliver(s, org, event, attempts[j]); var posted := PostFrom(s, org, event, attempts, j);
      && (reply == Answered(Accepted) ==> posted == Posted(s', true, 0))
      && (reply != Answered(Accepted) ==>
            var rest := PostFrom(s', org, event, attempts, j + 1);
            posted == Posted(rest.s, rest.ok, rest.slept + if reply.Silence? then Pow2(j) else 0))
  {
  }

  /** What the loop comes to from attempt j on, where k is the first attempt answered 202. */
  ghost predicate StopsAt(s: State, org: string, event: string, attempts: seq<Attempt>, k: nat, j: nat, posted: Posted)
    requires j <= k <= |attempts|
  {
    && posted.ok == (k < |attempts|)
    && posted.s == StateBefore(s, org, event, attempts, if k < |attempts| then k + 1 else k)
    && posted.slept + SleptBefore(s, org, event, attempts, j) == SleptBefore(s, org, event, attempts, k)
  }

  lemma {:induction false} PostFromStops(s: State, org: string, event: string, attempts: seq<Attempt>, k: nat, j: nat)
    requires First202(s, org, event, attempts, k) && j <= k
    ensures var posted := PostFrom(StateBefore(s, org, event, attempts, j), org, event, attempts, j);
      StopsAt(s, org, event, attempts, k, j, posted)
    decreases k - j
  {
    if j < |attempts| {
      var x, next := StateBefore(s, org, event, attempts, j), StateBefore(s, org, event, attempts, j + 1);
      assert Deliver(x, org, event, attempts[j]) == (next, ReplyTo(s, org, event, attempts, j));
      PostFromStep(x, org, event, attempts, j);
      if j < k {
        PostFromStops(s, org, event, attempts, k, j + 1);
      }
    }
  }

  /**
   * The loop stops right after the first attempt answered 202, returning true, and goes through all
   * attempts, returning false, if there is none; it sleeps 2^i seconds after each unanswered attempt i.
   */
  lemma PostStopsAtFirst202(s: State, org: string, event: string, attempts: seq<Attempt>, k: nat)
    requires First202(s, org, event, attempts, k)
    ensures var posted := Post(s, org, event, attempts);
      && posted.ok == (k < |attempts|)
      && posted.s == StateBefore(s, org, event, attempts, if k < |attempts| then k + 1 else k)
      && posted.slept == SleptBefore(s, org, event, attempts, k)
  {
    PostFromStops(s, org, event, attempts, k, 0);
  }

  lemma OkIff202(s: State, org: string, event: string, attempts: seq<Attempt>)
    ensures Post(s, org, event, attempts).ok <==>
      exists k :: 0 <= k < |attempts| && ReplyTo(s, org, event, attempts, k) == Answered(Accepted)
  {
    var k := First202Exists(s, org, event, attempts, 0);
    PostStopsAtFirst202(s, org, event, attempts, k);
  }

  // ---- what a post guarantees ----

  lemma DeliverConservesTokens(s: State, org: string, event: string, a: Attempt, key: string)
    ensures Surplus(Deliver(s, org, event, a).0, key) == Surplus(s, key)
  {
    var s1 := Run(s, a.before);
    RunConservesTokens(s, a.before, key);
    if a.sent && !a.refused {
      StepConservesTokens(s1, Arrive(org, event), key);
      RunConservesTokens(Next(s1, Arrive(org, event)), a.during, key);
    } else {
      RunConservesTokens(s1, a.during, key);
    }
  }

  lemma {:induction false} PostConservesTokens(s: State, org: string, event: string, attempts: seq<Attempt>, k: nat,
      key: string)
    requires k <= |attempts|
    ensures Surplus(PostFrom(s, org, event, attempts, k).s, key) == Surplus(s, key)
    decreases |attempts| - k
  {
    if k < |attempts| {
      DeliverConservesTokens(s, org, event, attempts[k], key);
      PostConservesTokens(Deliver(s, org, event, attempts[k]).0, org, event, attempts, k + 1, key);
    }
  }

  /** True is returned only for an event that the server accepted. */
  lemma {:induction false} OkMeansAccepted(s: State, org: string, event: string, attempts: seq<Attempt>, k: nat)
    requires k <= |attempts| && PostFrom(s, org, event, attempts, k).ok
    ensures AcceptedCount(PostFrom(s, org, event, attempts, k).s, IdemKey(org, event)) >= 1
    decreases |attempts| - k
  {
    if k < |attempts| {
      var (s', reply) := Deliver(s, org, event, attempts[k]);
      if reply == Answered(Accepted) {
        AcceptedReplyIsTrue(s, org, event, attempts[k]);
      } else {
        OkMeansAccepted(s', org, event, attempts, k + 1);
      }
    }
  }

  lemma AcceptedReplyIsTrue(s: State, org: string, event: string, a: Attempt)
    requires Deliver(s, org, event, a).1 == Answered(Accepted)
    ensures AcceptedCount(Deliver(s, org, event, a).0, IdemKey(org, event)) >= 1
  {
    var arrived := Next(Run(s, a.before), Arrive(org, event));
    var r := |arrived.requests| - 1;
    RequestsPersist(arrived, a.during, r);
    CountIsPositive(Run(arrived, a.during).requests, IdemKey(org, event), WasAccepted, r);
  }

  /** No attempt from k on brings any reply back. */
  predicate AllUnanswered(s: State, org: string, event: string, attempts: seq<Attempt>, k: nat)
    requires k <= |attempts|
    decreases |attempts| - k
  {
    k == |attempts| ||
    var (s', reply) := Deliver(s, org, event, attempts[k]);
    reply.Silence? && AllUnanswered(s', org, event, attempts, k + 1)
  }

  /** The total sleep is at most 2^retries - 1 seconds, reached exactly when no reply ever comes back. */
  lemma {:induction false} BackoffBound(s: State, org: string, event: string, attempts: seq<Attempt>, k: nat)
    requires k <= |attempts|
    ensures PostFrom(s, org, event, attempts, k).slept <= Pow2(|attempts|) - Pow2(k)
    ensures PostFrom(s, org, event, attempts, k).slept == Pow2(|attempts|) - Pow2(k)
       <==> AllUnanswered(s, org, event, attempts, k)
    decreases |attempts| - k
  {
    if k < |attempts| {
      Pow2Grows(k, |attempts|);
      Pow2Grows(k + 1, |attempts|);
      BackoffBound(Deliver(s, org, event, attempts[k]).0, org, event, attempts, k + 1);
    }
  }

  lemma {:induction false} Pow2Grows(m: nat, n: nat)
    requires m <= n
    ensures 1 <= Pow2(m) <= Pow2(n)
    ensures m < n ==> Pow2(m) < Pow2(n)
    decreases n
  {
    if m < n {
      Pow2Grows(m, n - 1);
    } else if n > 0 {
      Pow2Grows(n - 1, n - 1);
    }
  }

  // ---- posts and dead-letter replays ----

  /** One call of `_post_event`: a first post, or a replay of a dead-lettered line. */
  datatype Call = Call(org: string, event: string, attempts: seq<Attempt>)

  function StateAfter(s: State, calls: seq<Call>): State
    decreases |calls|
  {
    if calls == [] then s else
      var last := calls[|calls| - 1];
      Post(StateAfter(s, calls[..|calls| - 1]), last.org, last.event, last.attempts).s
  }

  /** Whether call i returned true. */
  function Returned(s: State, calls: seq<Call>, i: nat): bool
    requires i < |calls|
  {
    Post(StateAfter(s, calls[..i]), calls[i].org, calls[i].event, calls[i].attempts).ok
  }

  lemma {:induction false} CallsConserveTokens(s: State, calls: seq<Call>, key: string)
    ensures Surplus(StateAfter(s, calls), key) == Surplus(s, key)
    decreases |calls|
  {
    if calls != [] {
      var n := |calls| - 1;
      CallsConserveTokens(s, calls[..n], key);
      PostConservesTokens(StateAfter(s, calls[..n]), calls[n].org, calls[n].event, calls[n].attempts, 0, key);
    }
  }

  lemma {:induction false} CallsKeepAccepted(s: State, calls: seq<Call>, key: string, m: nat)
    requires m <= |calls|
    ensures AcceptedCount(StateAfter(s, calls[..m]), key) <= AcceptedCount(StateAfter(s, calls), key)
    decreases |calls|
  {
    var n := |calls| - 1;
    if m == |calls| {
      assert calls[..m] == calls;
    } else {
      assert calls[..n][..m] == calls[..m];
      CallsKeepAccepted(s, calls[..n], key, m);
      PostKeepsAccepted(StateAfter(s, calls[..n]), calls[n].org, calls[n].event, calls[n].attempts, 0, key);
    }
  }

  lemma {:induction false} PostKeepsAccepted(s: State, org: string, event: string, attempts: seq<Attempt>, k: nat,
      key: string)
    requires k <= |attempts|
    ensures AcceptedCount(s, key) <= AcceptedCount(PostFrom(s, org, event, attempts, k).s, key)
    decreases |attempts| - k
  {
    if k < |attempts| {
      var a := attempts[k];
      RunKeepsAccepted(s, a.before, key);
      var s1 := Run(s, a.before);
      StepKeepsAccepted(s1, Arrive(org, event), key);
      RunKeepsAccepted(if a.sent && !a.refused then Next(s1, Arrive(org, event)) else s1, a.during, key);
      PostKeepsAccepted(Deliver(s, org, event, a).0, org, event, attempts, k + 1, key);
    }
  }

  lemma StepKeepsAccepted(s: State, step: Step, key: string)
    ensures AcceptedCount(s, key) <= AcceptedCount(Next(s, step), key)
  {
    var s' := Next(s, step);
    if step.Arrive? {
      assert s'.requests[..|s.requests|] == s.requests;
    } else if !step.Expire? && s' != s {
      CountUpdate(s.requests, key, WasAccepted, step.r, s'.requests[step.r]);
    }
  }

  lemma {:induction false} RunKeepsAccepted(s: State, steps: seq<Step>, key: string)
    ensures AcceptedCount(s, key) <= AcceptedCount(Run(s, steps), key)
    decreases |steps|
  {
    if steps != [] {
      var n := |steps| - 1;
      RunKeepsAccepted(s, steps[..n], key);
      StepKeepsAccepted(Run(s, steps[..n]), steps[n], key);
    }
  }

  lemma ReturnedMeansAccepted(s: State, calls: seq<Call>, i: nat)
    requires i < |calls| && Returned(s, calls, i)
    ensures AcceptedCount(StateAfter(s, calls), IdemKey(calls[i].org, calls[i].event)) >= 1
  {
    var before := StateAfter(s, calls[..i]);
    OkMeansAccepted(before, calls[i].org, calls[i].event, calls[i].attempts, 0);
    assert StateAfter(s, calls[..i + 1]) == Post(before, calls[i].org, calls[i].event, calls[i].attempts).s by {
      assert calls[..i + 1][..i] == calls[..i];
    }
    CallsKeepAccepted(s, calls, IdemKey(calls[i].org, calls[i].event), i + 1);
  }

  /**
   * End to end: for every pattern of lost requests and lost replies, over all retries, replays and
   * interfering requests, an event is accepted at most once while its key does not expire, and
   * exactly once if any call for it returned true.
   */
  lemma {:induction false} AcceptedAtMostOnceEndToEnd(live: set<string>, calls: seq<Call>, i: nat)
    requires i < |calls|
    requires StateAfter(Start(live), calls).expiries[IdemKey(calls[i].org, calls[i].event)] == 0
    ensures var n := AcceptedCount(StateAfter(Start(live), calls), IdemKey(calls[i].org, calls[i].event));
      n <= 1 && (Returned(Start(live), calls, i) ==> n == 1)
  {
    CallsConserveTokens(Start(live), calls, IdemKey(calls[i].org, calls[i].event));
    if Returned(Start(live), calls, i) {
      ReturnedMeansAccepted(Start(live), calls, i);
    }
  }
}
