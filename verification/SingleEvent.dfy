/**
 * `POST /v1/events`: SETNX, checks, then rollback by DEL or acceptance, for any number of requests
 * interleaved at the granularity of Redis commands.
 */
module SingleEvent {
  import opened Counting
  import opened Keys
  import opened Models
  import opened RedisDedup
  import opened Gates

  datatype Outcome =
    | Accepted                       // 202
    | Duplicate                      // 409
    | Unavailable(keySet: bool)      // 503: SETNX unanswered; keySet if it set the key all the same
    | RolledBack(keyDeleted: bool)   // 403, 422 or 500, after DEL; keyDeleted if it removed the key

  /** Where a request is: before SETNX, holding the key, about to DEL it, or answered. */
  datatype Pc = Arrived | Holding | RollingBack | Done(outcome: Outcome)

  datatype Request = Request(org: string, event: string, pc: Pc) {
    function Key(): string {
      IdemKey(org, event)
    }
  }

  /** `expiries` counts how often each key has expired so far. */
  datatype State = State(requests: seq<Request>, live: set<string>, expiries: multiset<string>)

  datatype Step =
    | Arrive(org: string, event: string)
    | SetNX(r: nat, reply: Reply)
    | Check(r: nat, ok: bool)
    | Del(r: nat, reply: Reply)
    | Expire(key: string)

  predicate At(s: State, r: nat, pc: Pc) {
    r < |s.requests| && s.requests[r].pc == pc
  }

  function Move(s: State, r: nat, pc: Pc): State
    requires r < |s.requests|
  {
    s.(requests := s.requests[r := s.requests[r].(pc := pc)])
  }

  /** One step of one party; a step that is not enabled changes nothing. */
  function Next(s: State, step: Step): State {
    match step
    case Arrive(org, event) => s.(requests := s.requests + [Request(org, event, Arrived)])
    case SetNX(r, reply) =>
      if !At(s, r, Arrived) then s else
        var key := s.requests[r].Key();
        var absent := key !in s.live;
        var s' := if reply.Effective() then s.(live := s.live + {key}) else s;
        Move(s', r, if reply.Lost? then Done(Unavailable(reply.applied && absent))
                    else if absent then Holding else Done(Duplicate))
    case Check(r, ok) =>
      if !At(s, r, Holding) then s else Move(s, r, if ok then Done(Accepted) else RollingBack)
    case Del(r, reply) =>
      if !At(s, r, RollingBack) then s else
        var key := s.requests[r].Key();
        var s' := if reply.Effective() then s.(live := s.live - {key}) else s;
        Move(s', r, Done(RolledBack(reply.Effective() && key in s.live)))
    case Expire(key) =>
      if key !in s.live then s else s.(live := s.live - {key}, expiries := s.expiries + multiset{key})
  }

  function Run(s: State, steps: seq<Step>): State
    decreases |steps|
  {
    if steps == [] then s else Next(Run(s, steps[..|steps| - 1]), steps[|steps| - 1])
  }

  // ---- the token of a key ----

  /**
   * What a request has done with the token of its key. `Stranded`: it left the key behind without
   * being accepted. `Free`: it never took the token, or gave it back.
   */
  datatype Holdings = WasAccepted | Stranded | Pending | Free

  function HoldingsOf(q: Request): Holdings {
    match q.pc
    case Arrived => Free
    case Holding => Pending
    case RollingBack => Pending
    case Done(Accepted) => WasAccepted
    case Done(Duplicate) => Free
    case Done(Unavailable(keySet)) => if keySet then Stranded else Free
    case Done(RolledBack(keyDeleted)) => if keyDeleted then Free else Stranded
  }

  function Count(requests: seq<Request>, key: string, h: Holdings): nat {
    if requests == [] then 0 else
      var q := requests[|requests| - 1];
      Count(requests[..|requests| - 1], key, h) + One(q.Key() == key && HoldingsOf(q) == h)
  }

  lemma {:induction false} CountUpdate(requests: seq<Request>, key: string, h: Holdings, r: nat, x: Request)
    requires r < |requests| && x.Key() == requests[r].Key()
    ensures Count(requests[r := x], key, h) + One(x.Key() == key && HoldingsOf(requests[r]) == h)
         == Count(requests, key, h) + One(x.Key() == key && HoldingsOf(x) == h)
  {
    var n := |requests| - 1;
    if r == n {
      assert requests[r := x][..n] == requests[..n];
    } else {
      assert requests[r := x][..n] == requests[..n][r := x];
      CountUpdate(requests[..n], key, h, r, x);
    }
  }

  lemma {:induction false} CountIsPositive(requests: seq<Request>, key: string, h: Holdings, i: nat)
    requires i < |requests| && requests[i].Key() == key && HoldingsOf(requests[i]) == h
    ensures Count(requests, key, h) >= 1
  {
    if i < |requests| - 1 {
      CountIsPositive(requests[..|requests| - 1], key, h, i);
    }
  }

  lemma {:induction false} CountIsPlural(requests: seq<Request>, key: string, h: Holdings, i: nat, j: nat)
    requires i < j < |requests|
    requires requests[i].Key() == key && HoldingsOf(requests[i]) == h
    requires requests[j].Key() == key && HoldingsOf(requests[j]) == h
    ensures Count(requests, key, h) >= 2
  {
    var n := |requests| - 1;
    if j < n {
      CountIsPlural(requests[..n], key, h, i, j);
    } else {
      CountIsPositive(requests[..n], key, h, i);
    }
  }

  lemma {:induction false} CountIsZero(requests: seq<Request>, key: string, h: Holdings)
    requires forall i :: 0 <= i < |requests| ==> HoldingsOf(requests[i]) != h
    ensures Count(requests, key, h) == 0
  {
    if requests != [] {
      CountIsZero(requests[..|requests| - 1], key, h);
    }
  }

  function AcceptedCount(s: State, key: string): nat {
    Count(s.requests, key, WasAccepted)
  }

  function StrandedCount(s: State, key: string): nat {
    Count(s.requests, key, Stranded)
  }

  function PendingCount(s: State, key: string): nat {
    Count(s.requests, key, Pending)
  }

  /** The requests that took the key's token and have not given it back. */
  function OwnerCount(s: State, key: string): nat {
    AcceptedCount(s, key) + StrandedCount(s, key) + PendingCount(s, key)
  }

  /** Owners beyond the token that is out while the key is live and the one each expiry forged. */
  function Surplus(s: State, key: string): int {
    OwnerCount(s, key) - One(key in s.live) - s.expiries[key]
  }

  lemma MoveCounts(s: State, r: nat, pc: Pc, key: string)
    requires r < |s.requests|
    ensures var q, q' := s.requests[r], s.requests[r].(pc := pc);
      OwnerCount(Move(s, r, pc), key) + One(q.Key() == key && HoldingsOf(q) != Free)
        == OwnerCount(s, key) + One(q.Key() == key && HoldingsOf(q') != Free)
  {
    var x := s.requests[r].(pc := pc);
    CountUpdate(s.requests, key, WasAccepted, r, x);
    CountUpdate(s.requests, key, Stranded, r, x);
    CountUpdate(s.requests, key, Pending, r, x);
  }

  lemma SetNXConservesTokens(s: State, r: nat, reply: Reply, key: string)
    requires At(s, r, Arrived)
    ensures Surplus(Next(s, SetNX(r, reply)), key) == Surplus(s, key)
  {
    MoveCounts(s, r, Next(s, SetNX(r, reply)).requests[r].pc, key);
  }

  lemma DelConservesTokens(s: State, r: nat, reply: Reply, key: string)
    requires At(s, r, RollingBack)
    ensures Surplus(Next(s, Del(r, reply)), key) == Surplus(s, key)
  {
    MoveCounts(s, r, Next(s, Del(r, reply)).requests[r].pc, key);
  }

  /** Every step, in any interleaving and with any replies, conserves the tokens of every key. */
  lemma StepConservesTokens(s: State, step: Step, key: string)
    ensures Surplus(Next(s, step), key) == Surplus(s, key)
  {
    match step
    case Arrive(_, _) =>
      assert Next(s, step).requests[..|s.requests|] == s.requests;
    case Expire(_) =>
    case SetNX(r, reply) =>
      if At(s, r, Arrived) {
        SetNXConservesTokens(s, r, reply, key);
      }
    case Check(r, ok) =>
      if At(s, r, Holding) {
        MoveCounts(s, r, if ok then Done(Accepted) else RollingBack, key);
      }
    case Del(r, reply) =>
      if At(s, r, RollingBack) {
        DelConservesTokens(s, r, reply, key);
      }
  }

  lemma {:induction false} RunConservesTokens(s: State, steps: seq<Step>, key: string)
    ensures Surplus(Run(s, steps), key) == Surplus(s, key)
    decreases |steps|
  {
    if steps != [] {
      var n := |steps| - 1;
      RunConservesTokens(s, steps[..n], key);
      StepConservesTokens(Run(s, steps[..n]), steps[n], key);
    }
  }

  function Start(live: set<string>): State {
    State([], live, multiset{})
  }

  /**
   * In every reachable state, whatever the interleaving, the lost replies and the expiries (even of
   * keys that requests still hold): accepted, stranded and pending requests of a key balance its
   * presence and its expiries exactly.
   */
  lemma TokensBalance(live: set<string>, steps: seq<Step>, key: string)
    ensures var s := Run(Start(live), steps);
      AcceptedCount(s, key) + StrandedCount(s, key) + PendingCount(s, key) + One(key in live)
        == One(key in s.live) + s.expiries[key]
  {
    RunConservesTokens(Start(live), steps, key);
  }

  /** A pair's key is accepted at most once more than it expired; within the TTL, at most once. */
  lemma AcceptedAtMostOncePerLifetime(live: set<string>, steps: seq<Step>, key: string)
    ensures var s := Run(Start(live), steps); AcceptedCount(s, key) <= 1 + s.expiries[key]
  {
    TokensBalance(live, steps, key);
  }

  lemma NoTwoAcceptedWithinTtl(live: set<string>, steps: seq<Step>, i: nat, j: nat)
    requires var s := Run(Start(live), steps);
      && i < j < |s.requests|
      && s.requests[i].Key() == s.requests[j].Key()
      && s.expiries[s.requests[i].Key()] == 0
    ensures var s := Run(Start(live), steps);
      !(s.requests[i].pc == Done(Accepted) && s.requests[j].pc == Done(Accepted))
  {
    var s := Run(Start(live), steps);
    var key := s.requests[i].Key();
    AcceptedAtMostOncePerLifetime(live, steps, key);
    if s.requests[i].pc == Done(Accepted) && s.requests[j].pc == Done(Accepted) {
      CountIsPlural(s.requests, key, WasAccepted, i, j);
    }
  }

  predicate Quiescent(s: State) {
    forall i :: 0 <= i < |s.requests| ==> s.requests[i].pc.Done?
  }

  // ---- which replies strand a key ----

  /** A SETNX that sets the absent key but is not answered, or a DEL by the key's holder without effect. */
  predicate Strands(s: State, step: Step, key: string) {
    || (step.SetNX? && At(s, step.r, Arrived) && s.requests[step.r].Key() == key
        && step.reply == Lost(true) && key !in s.live)
    || (step.Del? && At(s, step.r, RollingBack) && s.requests[step.r].Key() == key && !step.reply.Effective())
  }

  function StrandingSteps(s: State, steps: seq<Step>, key: string): nat
    decreases |steps|
  {
    if steps == [] then 0 else
      var front := steps[..|steps| - 1];
      StrandingSteps(s, front, key) + One(Strands(Run(s, front), steps[|steps| - 1], key))
  }

  /** A step adds a stranded request exactly when it strands the key, if holders find their key live. */
  lemma StepStrandsIff(s: State, step: Step, key: string)
    requires PendingCount(s, key) >= 1 ==> key in s.live
    ensures StrandedCount(Next(s, step), key) == StrandedCount(s, key) + One(Strands(s, step, key))
  {
    match step
    case Arrive(_, _) => assert Next(s, step).requests[..|s.requests|] == s.requests;
    case Expire(_) =>
    case SetNX(r, reply) =>
      if At(s, r, Arrived) {
        SetNXStrandsIff(s, r, reply, key);
      }
    case Check(r, _) =>
      if At(s, r, Holding) {
        CountUpdate(s.requests, key, Stranded, r, Next(s, step).requests[r]);
      }
    case Del(r, reply) =>
      if At(s, r, RollingBack) {
        DelStrandsIff(s, r, reply, key);
      }
  }

  lemma SetNXStrandsIff(s: State, r: nat, reply: Reply, key: string)
    requires At(s, r, Arrived)
    ensures StrandedCount(Next(s, SetNX(r, reply)), key) ==
        StrandedCount(s, key) + One(Strands(s, SetNX(r, reply), key))
  {
    CountUpdate(s.requests, key, Stranded, r, Next(s, SetNX(r, reply)).requests[r]);
  }

  lemma DelStrandsIff(s: State, r: nat, reply: Reply, key: string)
    requires At(s, r, RollingBack) && (PendingCount(s, key) >= 1 ==> key in s.live)
    ensures StrandedCount(Next(s, Del(r, reply)), key) == StrandedCount(s, key) + One(Strands(s, Del(r, reply), key))
  {
    CountUpdate(s.requests, key, Stranded, r, Next(s, Del(r, reply)).requests[r]);
    if s.requests[r].Key() == key {
      CountIsPositive(s.requests, key, Pending, r);
    }
  }

  lemma {:induction false} StrandedAreStrandingSteps(live: set<string>, steps: seq<Step>, key: string)
    requires Run(Start(live), steps).expiries[key] == 0
    ensures StrandedCount(Run(Start(live), steps), key) == StrandingSteps(Start(live), steps, key)
    decreases |steps|
  {
    if steps != [] {
      var front := steps[..|steps| - 1];
      StrandedAreStrandingSteps(live, front, key);
      TokensBalance(live, front, key);
      StepStrandsIff(Run(Start(live), front), steps[|steps| - 1], key);
    }
  }

  /** The key is there iff exactly one request was accepted. */
  predicate Witnesses(s: State, key: string) {
    key in s.live <==> AcceptedCount(s, key) == 1
  }

  /**
   * Once every request is answered, with the key absent at first and never expired: the key
   * witnesses acceptance if and only if no step of the run stranded it.
   */
  lemma KeyWitnessesAcceptanceIff(live: set<string>, steps: seq<Step>, key: string)
    requires key !in live
    requires var s := Run(Start(live), steps); Quiescent(s) && s.expiries[key] == 0
    ensures Witnesses(Run(Start(live), steps), key) <==> StrandingSteps(Start(live), steps, key) == 0
  {
    var s := Run(Start(live), steps);
    TokensBalance(live, steps, key);
    CountIsZero(s.requests, key, Pending);
    StrandedAreStrandingSteps(live, steps, key);
  }

  /** All SETNX replies of the run are among the one set, all DEL replies among the other. */
  ghost predicate RepliesFrom(steps: seq<Step>, setReplies: set<Reply>, delReplies: set<Reply>) {
    forall k :: 0 <= k < |steps| ==> ReplyFrom(steps[k], setReplies, delReplies)
  }

  predicate ReplyFrom(step: Step, setReplies: set<Reply>, delReplies: set<Reply>) {
    (step.SetNX? ==> step.reply in setReplies) && (step.Del? ==> step.reply in delReplies)
  }

  /** No SETNX is applied without an answer and, where SETNX is ever answered, every DEL takes effect. */
  predicate NeverStranding(setReplies: set<Reply>, delReplies: set<Reply>) {
    Lost(true) !in setReplies && (Answered in setReplies ==> Lost(false) !in delReplies)
  }

  lemma {:induction false} UnansweredNeverHolds(live: set<string>, steps: seq<Step>, setReplies: set<Reply>,
      delReplies: set<Reply>, r: nat)
    requires RepliesFrom(steps, setReplies, delReplies) && Answered !in setReplies
    ensures var s := Run(Start(live), steps); !At(s, r, Holding) && !At(s, r, RollingBack)
    decreases |steps|
  {
    if steps != [] {
      var n := |steps| - 1;
      UnansweredNeverHolds(live, steps[..n], setReplies, delReplies, r);
      assert ReplyFrom(steps[n], setReplies, delReplies);
    }
  }

  lemma CleanReplyStrandsNothing(s: State, step: Step, setReplies: set<Reply>, delReplies: set<Reply>, key: string)
    requires ReplyFrom(step, setReplies, delReplies) && NeverStranding(setReplies, delReplies)
    requires step.Del? && Answered !in setReplies ==> !At(s, step.r, RollingBack)
    ensures !Strands(s, step, key)
  {
  }

  lemma {:induction false} CleanRepliesStrandNothing(live: set<string>, steps: seq<Step>, setReplies: set<Reply>,
      delReplies: set<Reply>, key: string)
    requires RepliesFrom(steps, setReplies, delReplies) && NeverStranding(setReplies, delReplies)
    ensures StrandingSteps(Start(live), steps, key) == 0
    decreases |steps|
  {
    if steps != [] {
      var n := |steps| - 1;
      var front := steps[..n];
      assert ReplyFrom(steps[n], setReplies, delReplies);
      assert RepliesFrom(front, setReplies, delReplies);
      CleanRepliesStrandNothing(live, front, setReplies, delReplies, key);
      if steps[n].Del? && Answered !in setReplies {
        UnansweredNeverHolds(live, front, setReplies, delReplies, steps[n].r);
      }
      CleanReplyStrandsNothing(Run(Start(live), front), steps[n], setReplies, delReplies, key);
    }
  }

  ghost predicate AlwaysWitnesses(setReplies: set<Reply>, delReplies: set<Reply>) {
    forall live, steps, key :: WitnessDue(live, steps, key, setReplies, delReplies) ==>
      Witnesses(Run(Start(live), steps), key)
  }

  /** A run with such replies at whose end the key should tell whether a request was accepted. */
  ghost predicate WitnessDue(live: set<string>, steps: seq<Step>, key: string, setReplies: set<Reply>,
      delReplies: set<Reply>) {
    && key !in live
    && RepliesFrom(steps, setReplies, delReplies)
    && var s := Run(Start(live), steps); Quiescent(s) && s.expiries[key] == 0
  }

  /**
   * For the replies that SETNX and DEL may get: in every interleaving that comes to rest, the key is
   * there iff exactly one request was accepted, if and only if those replies never strand a key.
   */
  lemma AlwaysWitnessesIff(setReplies: set<Reply>, delReplies: set<Reply>)
    ensures AlwaysWitnesses(setReplies, delReplies) <==> NeverStranding(setReplies, delReplies)
  {
    if NeverStranding(setReplies, delReplies) {
      forall live: set<string>, steps: seq<Step>, key: string | WitnessDue(live, steps, key, setReplies, delReplies)
        ensures Witnesses(Run(Start(live), steps), key)
      {
        CleanRepliesStrandNothing(live, steps, setReplies, delReplies, key);
        KeyWitnessesAcceptanceIff(live, steps, key);
      }
    } else {
      var steps := StrandingRun(setReplies, delReplies);
      var key := IdemKey("o", "e");
      assert WitnessDue({}, steps, key, setReplies, delReplies) && !Witnesses(Run(Start({}), steps), key);
    }
  }

  /** One request strands its key: the key is there although nothing was accepted. */
  lemma StrandingRun(setReplies: set<Reply>, delReplies: set<Reply>) returns (steps: seq<Step>)
    requires !NeverStranding(setReplies, delReplies)
    ensures WitnessDue({}, steps, IdemKey("o", "e"), setReplies, delReplies)
    ensures !Witnesses(Run(Start({}), steps), IdemKey("o", "e"))
  {
    var key := IdemKey("o", "e");
    var arrive := [] + [Arrive("o", "e")];
    RunOneMore(Start({}), [], Arrive("o", "e"));
    if Lost(true) in setReplies {
      steps := arrive + [SetNX(0, Lost(true))];
      RunOneMore(Start({}), arrive, SetNX(0, Lost(true)));
    } else {
      steps := arrive + [SetNX(0, Answered)] + [Check(0, false)] + [Del(0, Lost(false))];
      RunOneMore(Start({}), arrive, SetNX(0, Answered));
      RunOneMore(Start({}), arrive + [SetNX(0, Answered)], Check(0, false));
      RunOneMore(Start({}), arrive + [SetNX(0, Answered)] + [Check(0, false)], Del(0, Lost(false)));
    }
    var s := Run(Start({}), steps);
    assert key in s.live && |s.requests| == 1 && s.requests[0].pc.Done? && s.requests[0].pc.outcome != Accepted;
    CountIsZero(s.requests, key, WasAccepted);
  }

  lemma RunOneMore(s: State, before: seq<Step>, step: Step)
    ensures Run(s, before + [step]) == Next(Run(s, before), step)
  {
    assert (before + [step])[..|before|] == before;
  }

  /** A stranded key costs the event: until the key expires, no request for it is accepted. */
  lemma StrandedKeyBlocksAcceptance(live: set<string>, steps: seq<Step>, key: string)
    requires var s := Run(Start(live), steps); StrandedCount(s, key) > 0 && s.expiries[key] == 0
    ensures var s := Run(Start(live), steps);
      AcceptedCount(s, key) == 0 && PendingCount(s, key) == 0 && key in s.live
  {
    TokensBalance(live, steps, key);
  }

  // ---- one request's view of a run ----

  /** A request keeps its identity, and its answer once it has one. */
  lemma {:induction false} RequestsPersist(s: State, steps: seq<Step>, r: nat)
    requires r < |s.requests|
    ensures var s' := Run(s, steps);
      && |s.requests| <= |s'.requests|
      && s'.requests[r].org == s.requests[r].org
      && s'.requests[r].event == s.requests[r].event
      && (s.requests[r].pc.Done? ==> s'.requests[r].pc == s.requests[r].pc)
    decreases |steps|
  {
    if steps != [] {
      RequestsPersist(s, steps[..|steps| - 1], r);
    }
  }

  /** A request alone: arrive, SETNX, checks, and DEL if they fail. */
  function OneRequest(e: UsageEvent, setReply: Reply, ok: bool, delReply: Reply): seq<Step> {
    [Arrive(e.orgId, e.eventId), SetNX(0, setReply), Check(0, ok), Del(0, delReply)]
  }

  lemma {:induction false} RunOfFour(s: State, steps: seq<Step>)
    requires |steps| == 4
    ensures Run(s, steps) == Next(Next(Next(Next(s, steps[0]), steps[1]), steps[2]), steps[3])
  {
    assert steps[..3][..2] == steps[..2] && steps[..2][..1] == steps[..1] && steps[..1][..0] == [];
    assert Run(s, steps[..1]) == Next(Run(s, []), steps[0]);
    assert Run(s, steps[..2]) == Next(Run(s, steps[..1]), steps[1]);
    assert Run(s, steps[..3]) == Next(Run(s, steps[..2]), steps[2]);
  }

  /** What a request does when no other interferes: its outcome and the live keys afterwards. */
  function Undisturbed(live: set<string>, key: string, setReply: Reply, ok: bool, delReply: Reply)
    : (Outcome, set<string>)
  {
    if setReply.Lost? then
      (Unavailable(setReply.applied && key !in live), if setReply.applied then live + {key} else live)
    else if key in live then (Duplicate, live)
    else if ok then (Accepted, live + {key})
    else (RolledBack(delReply.Effective()), if delReply.Effective() then live else live + {key})
  }

  /** A lone request that holds its key is accepted or rolled back; one that was answered stays as it is. */
  lemma AfterClaim(s: State, ok: bool, delReply: Reply)
    requires |s.requests| == 1
    ensures var s' := Next(Next(s, Check(0, ok)), Del(0, delReply)); var key := s.requests[0].Key();
      && (s.requests[0].pc.Done? ==> s' == s)
      && (s.requests[0].pc == Holding && ok ==> At(s', 0, Done(Accepted)) && s'.live == s.live)
      && (s.requests[0].pc == Holding && !ok ==>
            && At(s', 0, Done(RolledBack(delReply.Effective() && key in s.live)))
            && s'.live == if delReply.Effective() then s.live - {key} else s.live)
  {
  }

  lemma UndisturbedIsARun(live: set<string>, e: UsageEvent, setReply: Reply, ok: bool, delReply: Reply)
    ensures var s := Run(Start(live), OneRequest(e, setReply, ok, delReply));
      var (outcome, live') := Undisturbed(live, IdemKey(e.orgId, e.eventId), setReply, ok, delReply);
      At(s, 0, Done(outcome)) && s.live == live'
  {
    RunOfFour(Start(live), OneRequest(e, setReply, ok, delReply));
    var key := IdemKey(e.orgId, e.eventId);
    var s := Next(Next(Start(live), Arrive(e.orgId, e.eventId)), SetNX(0, setReply));
    assert |s.requests| == 1 && s.requests[0].Key() == key;
    AfterClaim(s, ok, delReply);
    assert key !in live ==> live + {key} - {key} == live;
    assert key in live ==> live + {key} == live;
  }

  /** The handler from the idempotency check on; `marshals` says whether the event can be serialized. */
  method ClaimAndCheck(redis: Server, cache: Cache, pg: Postgres, env: Env, e: UsageEvent, marshals: bool,
                       setReply: Reply, delReply: Reply)
    returns (status: nat, ghost outcome: Outcome)
    modifies redis, cache
    ensures (outcome, redis.idem)
         == Undisturbed(old(redis.idem), IdemKey(e.orgId, e.eventId), setReply,
                        SingleGate(old(cache.keys), pg, env, e) && marshals, delReply)
    ensures redis.bloom == old(redis.bloom)
    ensures status == 202 <==> outcome == Accepted
    ensures status == 409 <==> outcome == Duplicate
    ensures status == 503 <==> outcome.Unavailable?
    ensures status == 403 <==> outcome.RolledBack? && !OrgOk(old(cache.keys), pg, env, e.orgId)
    ensures status == 422 <==>
      outcome.RolledBack? && OrgOk(old(cache.keys), pg, env, e.orgId) && !SingleGate(old(cache.keys), pg, env, e)
    ensures status == 500 <==> outcome.RolledBack? && SingleGate(old(cache.keys), pg, env, e)
    ensures status in {202, 403, 409, 422, 500, 503}
    ensures cache.keys == if outcome.Accepted? || outcome.RolledBack? then AfterSingleGate(old(cache.keys), pg, env, e)
                          else old(cache.keys)
  {
    var key := IdemKey(e.orgId, e.eventId);
    ghost var live := redis.idem;
    var wasSet := redis.SetNX(key, setReply);
    if wasSet.None? {
      return 503, Unavailable(setReply.applied && key !in live);
    }
    if !wasSet.value {
      assert live + {key} == live;
      return 409, Duplicate;
    }
    assert live + {key} - {key} == live;
    var known := cache.VerifyOrg(pg, env, e.orgId);
    if !known {
      redis.Del(key, delReply);
      return 403, RolledBack(delReply.Effective());
    }
    if e.endUserId != "" {
      var member := cache.VerifyEndUser(pg, env, e.orgId, e.endUserId);
      if !member {
        redis.Del(key, delReply);
        return 422, RolledBack(delReply.Effective());
      }
    }
    if !marshals {
      redis.Del(key, delReply);
      return 500, RolledBack(delReply.Effective());
    }
    return 202, Accepted;
  }

  /** `HandleSingleEvent` once the body is parsed; `outcome` is None if it ends before the idempotency check. */
  method HandleSingleEvent(redis: Server, cache: Cache, pg: Postgres, env: Env, auth: Option<KeyContext>,
                           payload: UsageEvent, freshId: string, now: int, marshals: bool,
                           setReply: Reply, delReply: Reply)
    returns (status: nat, ghost outcome: Option<Outcome>)
    modifies redis, cache
    ensures status == 401 <==> auth.None?
    ensures status == 400 <==>
      && auth.Some?
      && (|| payload.eventType == "" || payload.model == ""
          || payload.inputTokens < 0 || payload.outputTokens < 0
          || payload.thinkingTokens < 0 || payload.totalTokens < 0.0)
    ensures outcome.None? <==> status == 401 || status == 400
    ensures outcome.None? ==> unchanged(redis) && unchanged(cache)
    ensures outcome.Some? ==>
      var e := Enrich(payload, auth.value, freshId, now);
      && (outcome.value, redis.idem)
           == Undisturbed(old(redis.idem), IdemKey(e.orgId, e.eventId), setReply,
                          SingleGate(old(cache.keys), pg, env, e) && marshals, delReply)
      && redis.bloom == old(redis.bloom)
      && (status == 202 <==> outcome.value == Accepted)
      && (status == 409 <==> outcome.value == Duplicate)
      && (status == 503 <==> outcome.value.Unavailable?)
      && (status == 403 <==> outcome.value.RolledBack? && !OrgOk(old(cache.keys), pg, env, e.orgId))
      && (status == 500 <==> outcome.value.RolledBack? && SingleGate(old(cache.keys), pg, env, e))
      && (status in {202, 403, 409, 422, 500, 503})
      && cache.keys == if outcome.value.Accepted? || outcome.value.RolledBack?
                       then AfterSingleGate(old(cache.keys), pg, env, e) else old(cache.keys)
  {
    if auth.None? {
      return 401, None;
    }
    var e := Enrich(payload, auth.value, freshId, now);
    var error := Validate(e);
    if error.Some? {
      return 400, None;
    }
    ghost var o;
    status, o := ClaimAndCheck(redis, cache, pg, env, e, marshals, setReply, delReply);
    outcome := Some(o);
  }
}
