/** One-time challenges and reusable view capabilities, over whole runs. */
module Challenges {
  import opened Options
  import opened Text

  type Token = nat

  /** What a challenge is bound to. */
  datatype Bound = Bound(verb: string, path: string, browser: string, agent: string, actor: string)

  datatype Challenge = Challenge(bound: Bound, expires: int)

  datatype View = View(browser: string, agent: string, actor: string)

  datatype Capability = Capability(view: View, expires: int)

  datatype Store = Store(ttl: int, challenges: map<Token, Challenge>, capabilities: map<Token, Capability>)

  function Normal(b: Bound): Bound { b.(verb := Upper(b.verb)) }

  predicate Complete(b: Bound) { b.verb != "" && b.path != "" && b.browser != "" && b.agent != "" && b.actor != "" }

  predicate CompleteView(v: View) { v.browser != "" && v.agent != "" && v.actor != "" }

  /** The challenge is there, has not expired and was issued for these fields. */
  predicate Accepts(s: Store, token: Token, b: Bound, now: int) {
    token in s.challenges && now < s.challenges[token].expires && s.challenges[token].bound == Normal(b)
  }

  predicate ViewLive(s: Store, token: Token, now: int) {
    token in s.capabilities && now < s.capabilities[token].expires
  }

  function Issued(s: Store, token: Token, b: Bound, now: int): Store {
    if Complete(b) then s.(challenges := s.challenges[token := Challenge(Normal(b), now + s.ttl)]) else s
  }

  /** A success removes the challenge, an expired one is removed, any other failure leaves it. */
  function Consumed(s: Store, token: Token, b: Bound, now: int): Store {
    if token in s.challenges && (now >= s.challenges[token].expires || s.challenges[token].bound == Normal(b)) then
      s.(challenges := s.challenges - {token})
    else s
  }

  function CapabilityIssued(s: Store, token: Token, v: View, now: int): Store {
    if CompleteView(v) then s.(capabilities := s.capabilities[token := Capability(v, now + s.ttl)]) else s
  }

  /** Looking at a capability removes it if it has expired. */
  function Looked(s: Store, token: Token, now: int): Store {
    if token in s.capabilities && now >= s.capabilities[token].expires then
      s.(capabilities := s.capabilities - {token})
    else s
  }

  function Resolves(s: Store, token: Token, browser: string, actor: string, now: int): Option<string> {
    if ViewLive(s, token, now) && s.capabilities[token].view.browser == browser
       && s.capabilities[token].view.actor == actor
    then Some(s.capabilities[token].view.agent) else None
  }

  function Revoked(s: Store, browser: string): Store {
    s.(challenges := map t | t in s.challenges && s.challenges[t].bound.browser != browser :: s.challenges[t],
    capabilities := map t | t in s.capabilities && s.capabilities[t].view.browser != browser :: s.capabilities[t])
  }

  function Cleaned(s: Store, now: int): Store {
    s.(challenges := map t | t in s.challenges && now < s.challenges[t].expires :: s.challenges[t],
    capabilities := map t | t in s.capabilities && now < s.capabilities[t].expires :: s.capabilities[t])
  }

  // ---------------------------------------------------------------------------------------------
  // The service; every method holds the lock throughout, `now` is the clock and tokens are random
  // ---------------------------------------------------------------------------------------------

  class ConfirmationService {
    const ttl: int
    var challenges: map<Token, Challenge>
    var capabilities: map<Token, Capability>

    function Now(): Store
      reads this
    {
      Store(ttl, challenges, capabilities)
    }

    constructor (ttlSeconds: int)
      requires ttlSeconds > 0
      ensures Now() == Store(ttlSeconds, map[], map[])
    {
      ttl, challenges, capabilities := ttlSeconds, map[], map[];
    }

    method Issue(token: Token, b: Bound, now: int) returns (issued: Option<Token>)
      modifies this
      ensures Now() == Issued(old(Now()), token, b, now)
      ensures issued == if Complete(b) then Some(token) else None
    {
      if b.verb == "" || b.path == "" || b.browser == "" || b.agent == "" || b.actor == "" { return None; }
      challenges := challenges[token := Challenge(Normal(b), now + ttl)];
      return Some(token);
    }

    method Consume(token: Token, b: Bound, now: int) returns (ok: bool)
      modifies this
      ensures Now() == Consumed(old(Now()), token, b, now)
      ensures ok == old(Accepts(Now(), token, b, now))
    {
      if token !in challenges { return false; }
      var record := challenges[token];
      if now >= record.expires {
        challenges := challenges - {token};
        return false;
      }
      if record.bound.verb != Upper(b.verb) || record.bound.path != b.path || record.bound.browser != b.browser
         || record.bound.agent != b.agent || record.bound.actor != b.actor
      {
        return false;
      }
      challenges := challenges - {token};
      return true;
    }

    method IssueCapability(token: Token, v: View, now: int) returns (issued: Option<Token>)
      modifies this
      ensures Now() == CapabilityIssued(old(Now()), token, v, now)
      ensures issued == if CompleteView(v) then Some(token) else None
    {
      if v.browser == "" || v.agent == "" || v.actor == "" { return None; }
      capabilities := capabilities[token := Capability(v, now + ttl)];
      return Some(token);
    }

    method ValidateCapability(token: Token, v: View, now: int) returns (ok: bool)
      modifies this
      ensures Now() == Looked(old(Now()), token, now)
      ensures ok == old(ViewLive(Now(), token, now) && capabilities[token].view == v)
    {
      if token !in capabilities { return false; }
      var record := capabilities[token];
      if now >= record.expires {
        capabilities := capabilities - {token};
        return false;
      }
      return record.view.browser == v.browser && record.view.agent == v.agent && record.view.actor == v.actor;
    }

    method ResolveCapability(token: Token, browser: string, actor: string, now: int) returns (agent: Option<string>)
      modifies this
      ensures Now() == Looked(old(Now()), token, now)
      ensures agent == old(Resolves(Now(), token, browser, actor, now))
    {
      if token !in capabilities { return None; }
      var record := capabilities[token];
      if now >= record.expires {
        capabilities := capabilities - {token};
        return None;
      }
      if record.view.browser != browser || record.view.actor != actor { return None; }
      return Some(record.view.agent);
    }

    method RevokeForSession(browser: string)
      modifies this
      ensures Now() == Revoked(old(Now()), browser)
    {
      var toRemove := set t | t in challenges && challenges[t].bound.browser == browser;
      challenges := challenges - toRemove;
      var capabilityTokens := set t | t in capabilities && capabilities[t].view.browser == browser;
      capabilities := capabilities - capabilityTokens;
    }

    method CleanupExpired(now: int) returns (removed: nat)
      modifies this
      ensures Now() == Cleaned(old(Now()), now)
      ensures removed == |old(challenges)| - |challenges| + |old(capabilities)| - |capabilities|
    {
      var removedChallenges := CleanChallenges(now);
      var removedCapabilities := CleanCapabilities(now);
      return removedChallenges + removedCapabilities;
    }

    method CleanChallenges(now: int) returns (removed: nat)
      modifies `challenges
      ensures challenges == map t | t in old(challenges) && now < old(challenges)[t].expires :: old(challenges)[t]
      ensures removed == |old(challenges)| - |challenges|
    {
      var toRemove := set t | t in challenges && now >= challenges[t].expires;
      RemoveCounts(challenges, toRemove);
      challenges := challenges - toRemove;
      return |toRemove|;
    }

    method CleanCapabilities(now: int) returns (removed: nat)
      modifies `capabilities
      ensures capabilities
              == map t | t in old(capabilities) && now < old(capabilities)[t].expires :: old(capabilities)[t]
      ensures removed == |old(capabilities)| - |capabilities|
    {
      var expired := set t | t in capabilities && now >= capabilities[t].expires;
      RemoveCounts(capabilities, expired);
      capabilities := capabilities - expired;
      return |expired|;
    }
  }

  lemma {:induction false} RemoveCounts<T>(m: map<Token, T>, gone: set<Token>)
    requires gone <= m.Keys
    ensures |m - gone| == |m| - |gone|
  {
  }

  // ---------------------------------------------------------------------------------------------
  // Runs
  // ---------------------------------------------------------------------------------------------

  datatype Call =
    | Issue(token: Token, bound: Bound)
    | Consume(token: Token, bound: Bound)
    | IssueView(token: Token, view: View)
    | Validate(token: Token, view: View)
    | Resolve(token: Token, browser: string, actor: string)
    | Revoke(browser: string)
    | Cleanup

  /** A call and the clock it sees. */
  datatype Event = At(now: int, call: Call)

  datatype Answer = Nothing | Verdict(ok: bool) | Agent(session: Option<string>)

  function Step(s: Store, e: Event): Store {
    match e.call
    case Issue(token, b) => Issued(s, token, b, e.now)
    case Consume(token, b) => Consumed(s, token, b, e.now)
    case IssueView(token, v) => CapabilityIssued(s, token, v, e.now)
    case Validate(token, _) => Looked(s, token, e.now)
    case Resolve(token, _, _) => Looked(s, token, e.now)
    case Revoke(browser) => Revoked(s, browser)
    case Cleanup => Cleaned(s, e.now)
  }

  function AnswerOf(s: Store, e: Event): Answer {
    match e.call
    case Consume(token, b) => Verdict(Accepts(s, token, b, e.now))
    case Validate(token, v) => Verdict(ViewLive(s, token, e.now) && s.capabilities[token].view == v)
    case Resolve(token, browser, actor) => Agent(Resolves(s, token, browser, actor, e.now))
    case _ => Nothing
  }

  function After(s: Store, es: seq<Event>): Store {
    if es == [] then s else Step(After(s, es[..|es| - 1]), es[|es| - 1])
  }

  /** The answers of a run, in order. */
  function Answers(s: Store, es: seq<Event>): seq<Answer>
    decreases |es|
  {
    if es == [] then [] else [AnswerOf(s, es[0])] + Answers(Step(s, es[0]), es[1..])
  }

  /** The clock never goes back, and is not behind `from`. */
  ghost predicate Clocked(es: seq<Event>, from: int) {
    (forall i :: 0 <= i < |es| ==> from <= es[i].now) && forall i, j :: 0 <= i < j < |es| ==> es[i].now <= es[j].now
  }

  // ---------------------------------------------------------------------------------------------
  // Stores that only differ in what has expired
  // ---------------------------------------------------------------------------------------------

  function LiveChallenge(s: Store, t: Token, now: int): Option<Challenge> {
    if t in s.challenges && now < s.challenges[t].expires then Some(s.challenges[t]) else None
  }

  function LiveCapability(s: Store, t: Token, now: int): Option<Capability> {
    if t in s.capabilities && now < s.capabilities[t].expires then Some(s.capabilities[t]) else None
  }

  /** From `now` on, no call can tell the stores apart. */
  ghost predicate Similar(s: Store, s': Store, now: int) {
    && s.ttl == s'.ttl
    && (forall t :: LiveChallenge(s, t, now) == LiveChallenge(s', t, now))
    && (forall t :: LiveCapability(s, t, now) == LiveCapability(s', t, now))
  }

  /** What a call makes of a live challenge; expiry and cleanup play no part. */
  function NextChallenge(ttl: int, c: Option<Challenge>, e: Event, t: Token): Option<Challenge> {
    match e.call
    case Issue(t', b) => if t' == t && Complete(b) then
        if ttl > 0 then Some(Challenge(Normal(b), e.now + ttl)) else None
      else c
    case Consume(t', b) => if t' == t && c.Some? && c.value.bound == Normal(b) then None else c
    case Revoke(browser) => if c.Some? && c.value.bound.browser == browser then None else c
    case _ => c
  }

  function NextCapability(ttl: int, c: Option<Capability>, e: Event, t: Token): Option<Capability> {
    match e.call
    case IssueView(t', v) => if t' == t && CompleteView(v) then
        if ttl > 0 then Some(Capability(v, e.now + ttl)) else None
      else c
    case Revoke(browser) => if c.Some? && c.value.view.browser == browser then None else c
    case _ => c
  }

  lemma {:induction false} StepChallenge(s: Store, e: Event, t: Token)
    ensures LiveChallenge(Step(s, e), t, e.now) == NextChallenge(s.ttl, LiveChallenge(s, t, e.now), e, t)
    ensures LiveCapability(Step(s, e), t, e.now) == NextCapability(s.ttl, LiveCapability(s, t, e.now), e, t)
  {
    hide Normal, Complete, CompleteView;
  }

  lemma {:induction false} LiveLater(s: Store, t: Token, now: int, later: int)
    requires now <= later
    ensures LiveChallenge(s, t, later)
            == var c := LiveChallenge(s, t, now); if c.Some? && later < c.value.expires then c else None
    ensures LiveCapability(s, t, later)
            == var c := LiveCapability(s, t, now); if c.Some? && later < c.value.expires then c else None
  {
  }

  lemma {:induction false} SimilarLater(s: Store, s': Store, now: int, later: int)
    requires Similar(s, s', now) && now <= later
    ensures Similar(s, s', later)
  {
    hide LiveChallenge, LiveCapability;
    forall t
      ensures LiveChallenge(s, t, later) == LiveChallenge(s', t, later)
      ensures LiveCapability(s, t, later) == LiveCapability(s', t, later)
    {
      LiveLater(s, t, now, later);
      LiveLater(s', t, now, later);
    }
  }

  /** Answers only depend on what is live. */
  lemma {:induction false} AnswerFromLive(s: Store, e: Event)
    ensures AnswerOf(s, e) ==
            match e.call
            case Consume(t, b) =>
              var c := LiveChallenge(s, t, e.now); Verdict(c.Some? && c.value.bound == Normal(b))
            case Validate(t, v) =>
              var c := LiveCapability(s, t, e.now); Verdict(c.Some? && c.value.view == v)
            case Resolve(t, browser, actor) =>
              var c := LiveCapability(s, t, e.now);
              Agent(if c.Some? && c.value.view.browser == browser && c.value.view.actor == actor
                    then Some(c.value.view.agent) else None)
            case _ => Nothing
  {
  }

  lemma {:induction false} SimilarStep(s: Store, s': Store, now: int, e: Event)
    requires Similar(s, s', now) && now <= e.now
    ensures AnswerOf(s, e) == AnswerOf(s', e)
    ensures Similar(Step(s, e), Step(s', e), e.now)
  {
    SimilarLater(s, s', now, e.now);
    AnswerFromLive(s, e);
    AnswerFromLive(s', e);
    forall t
      ensures LiveChallenge(Step(s, e), t, e.now) == LiveChallenge(Step(s', e), t, e.now)
      ensures LiveCapability(Step(s, e), t, e.now) == LiveCapability(Step(s', e), t, e.now)
    {
      StepChallenge(s, e, t);
      StepChallenge(s', e, t);
    }
    hide LiveChallenge, LiveCapability, NextChallenge, NextCapability, Normal, AnswerOf;
    SameTtl(s, e);
    SameTtl(s', e);
  }

  lemma {:induction false} SameTtl(s: Store, e: Event)
    ensures Step(s, e).ttl == s.ttl
  {
  }

  lemma {:induction false} SimilarAnswers(s: Store, s': Store, now: int, es: seq<Event>)
    requires Similar(s, s', now) && Clocked(es, now)
    ensures Answers(s, es) == Answers(s', es)
    decreases |es|
  {
    hide Similar, Step, AnswerOf;
    if es != [] {
      SimilarStep(s, s', now, es[0]);
      SimilarAnswers(Step(s, es[0]), Step(s', es[0]), es[0].now, es[1..]);
    }
  }

  lemma {:induction false} CleanupIsSimilar(s: Store, now: int)
    ensures Similar(s, Cleaned(s, now), now)
  {
  }

  /** Cleaning up at any moment changes no later answer. */
  lemma {:induction false} CleanupIsInvisible(s: Store, now: int, later: seq<Event>)
    requires Clocked(later, now)
    ensures Answers(Step(s, At(now, Cleanup)), later) == Answers(s, later)
  {
    CleanupIsSimilar(s, now);
    SimilarAnswers(s, Cleaned(s, now), now, later);
  }

  lemma {:induction false} FailureIsSimilar(s: Store, e: Event)
    requires e.call.Validate? || e.call.Resolve? || (e.call.Consume? && !AnswerOf(s, e).ok)
    ensures Similar(s, Step(s, e), e.now)
  {
  }

  /** An attempt that fails, and any look at a capability, changes no later answer either. */
  lemma {:induction false} FailureIsHarmless(s: Store, e: Event, later: seq<Event>)
    requires e.call.Validate? || e.call.Resolve? || (e.call.Consume? && !AnswerOf(s, e).ok)
    requires Clocked(later, e.now)
    ensures Answers(Step(s, e), later) == Answers(s, later)
  {
    hide Step, AnswerOf, Similar;
    FailureIsSimilar(s, e);
    SimilarAnswers(s, Step(s, e), e.now, later);
  }

  // ---------------------------------------------------------------------------------------------
  // What a consume answers, told from the history alone
  // ---------------------------------------------------------------------------------------------

  /** The call ends the life of a challenge with this token and these fields. */
  ghost predicate Ends(ttl: int, es: seq<Event>, j: nat, token: Token, b: Bound)
    requires j < |es|
  {
    match es[j].call
    case Issue(t, b') => t == token && Complete(b')
    case Consume(t, b') => t == token && AnswerOf(After(Store(ttl, map[], map[]), es[..j]), es[j]).ok
    case Revoke(browser) => browser == b.browser
    case _ => false
  }

  /** The `i`-th call issued the token for these fields, and no call since has ended its life. */
  ghost predicate Stands(ttl: int, es: seq<Event>, token: Token, b: Bound, i: nat)
    requires i < |es|
  {
    && es[i].call.Issue? && es[i].call.token == token && Complete(es[i].call.bound)
    && Normal(es[i].call.bound) == b
    && forall j :: i < j < |es| ==> !Ends(ttl, es, j, token, b)
  }

  lemma {:induction false} AfterSnoc(s: Store, es: seq<Event>, e: Event)
    ensures After(s, es + [e]) == Step(After(s, es), e)
  {
  }

  lemma {:induction false} AfterTtl(s: Store, es: seq<Event>)
    ensures After(s, es).ttl == s.ttl
  {
    hide Step;
    if es != [] {
      AfterTtl(s, es[..|es| - 1]);
      SameTtl(After(s, es[..|es| - 1]), es[|es| - 1]);
    }
  }

  lemma {:induction false} EndsPrefix(ttl: int, es: seq<Event>, e: Event, j: nat, token: Token, b: Bound)
    requires j < |es|
    ensures Ends(ttl, es + [e], j, token, b) <==> Ends(ttl, es, j, token, b)
  {
    assert (es + [e])[..j] == es[..j] && (es + [e])[j] == es[j];
  }

  /** Whether a challenge still stands after one more call. */
  lemma {:induction false} StandsSnoc(ttl: int, es: seq<Event>, e: Event, token: Token, b: Bound, i: nat)
    requires i < |es|
    ensures Stands(ttl, es + [e], token, b, i) <==> Stands(ttl, es, token, b, i) && !Ends(ttl, es + [e], |es|, token, b)
  {
    hide Ends, Normal, Complete;
    var all := es + [e];
    assert all[i] == es[i];
    forall j | i < j < |es| ensures Ends(ttl, all, j, token, b) <==> Ends(ttl, es, j, token, b) {
      EndsPrefix(ttl, es, e, j, token, b);
    }
    assert all[|es|] == e;
  }

  /** A live challenge is one that stands in the history and has not expired. */
  ghost predicate Explained(ttl: int, es: seq<Event>, token: Token, c: Challenge) {
    exists i :: 0 <= i < |es| && c.expires == es[i].now + ttl && Stands(ttl, es, token, c.bound, i)
  }

  lemma {:induction false} EndsNow(ttl: int, es: seq<Event>, e: Event, token: Token, b: Bound)
    ensures var s := After(Store(ttl, map[], map[]), es);
            Ends(ttl, es + [e], |es|, token, b)
            <==> match e.call
                 case Issue(t, b') => t == token && Complete(b')
                 case Consume(t, b') => t == token && AnswerOf(s, e).ok
                 case Revoke(browser) => browser == b.browser
                 case _ => false
  {
  }

  /** If a challenge is live, the history explains it. */
  lemma {:induction false} LiveIsExplained(ttl: int, es: seq<Event>, token: Token, now: int)
    requires ttl > 0 && Clocked(es, 0) && (es != [] ==> es[|es| - 1].now <= now)
    requires LiveChallenge(After(Store(ttl, map[], map[]), es), token, now).Some?
    ensures Explained(ttl, es, token, LiveChallenge(After(Store(ttl, map[], map[]), es), token, now).value)
    decreases |es|
  {
    hide Step, Normal, Complete, AnswerOf, Ends;
    var s0 := Store(ttl, map[], map[]);
    if es != [] {
      var init, e := es[..|es| - 1], es[|es| - 1];
      assert es == init + [e];
      var s := After(s0, init);
      var c := LiveChallenge(After(s0, es), token, now).value;
      AfterTtl(s0, init);
      StepChallenge(s, e, token);
      LiveLater(Step(s, e), token, e.now, now);
      hide After;
      if e.call.Issue? && e.call.token == token && Complete(e.call.bound) {
        assert Stands(ttl, es, token, c.bound, |es| - 1);
      } else {
        LiveLater(s, token, e.now, e.now);
        LiveIsExplained(ttl, init, token, e.now);
        var i :| 0 <= i < |init| && c.expires == init[i].now + ttl && Stands(ttl, init, token, c.bound, i);
        StandsSnoc(ttl, init, e, token, c.bound, i);
        EndsNow(ttl, init, e, token, c.bound);
        AnswerFromLive(s, e);
        assert es[i] == init[i];
        assert Stands(ttl, es, token, c.bound, i);
      }
    }
  }

  lemma {:induction false} KeptUnlessEnded(ttl: int, es: seq<Event>, e: Event, token: Token, c: Challenge)
    requires LiveChallenge(After(Store(ttl, map[], map[]), es), token, e.now) == Some(c)
    requires !Ends(ttl, es + [e], |es|, token, c.bound)
    ensures NextChallenge(ttl, Some(c), e, token) == Some(c)
  {
  }

  lemma {:induction false} JustIssued(ttl: int, es: seq<Event>, e: Event, token: Token, b: Bound)
    requires ttl > 0 && Stands(ttl, es + [e], token, b, |es|)
    ensures forall c :: NextChallenge(ttl, c, e, token) == Some(Challenge(b, e.now + ttl))
  {
  }

  lemma {:induction false} StandingStep(ttl: int, es: seq<Event>, e: Event, token: Token,
                                        b: Bound, i: nat, now: int, expires: int)
    requires ttl > 0 && i <= |es| && Stands(ttl, es + [e], token, b, i) && e.now <= now < expires
    requires var c := Some(Challenge(b, expires));
             if i < |es| then LiveChallenge(After(Store(ttl, map[], map[]), es), token, e.now) == c
             else expires == e.now + ttl
    ensures LiveChallenge(After(Store(ttl, map[], map[]), es + [e]), token, now) == Some(Challenge(b, expires))
  {
    hide Step, Stands, NextChallenge, NextCapability, LiveChallenge, LiveCapability, After;
    var s0 := Store(ttl, map[], map[]);
    var s := After(s0, es);
    AfterSnoc(s0, es, e);
    AfterTtl(s0, es);
    StepChallenge(s, e, token);
    LiveLater(Step(s, e), token, e.now, now);
    if i < |es| {
      StandsSnoc(ttl, es, e, token, b, i);
      KeptUnlessEnded(ttl, es, e, token, Challenge(b, expires));
    } else {
      JustIssued(ttl, es, e, token, b);
    }
  }

  lemma {:induction false} ClockedInit(es: seq<Event>)
    requires Clocked(es, 0) && |es| > 1
    ensures Clocked(es[..|es| - 1], 0) && es[|es| - 2].now <= es[|es| - 1].now
  {
  }

  /** If a challenge stands and has not expired, it is live. */
  lemma {:induction false} StandingIsLive(ttl: int, es: seq<Event>, token: Token, b: Bound, i: nat, now: int)
    requires ttl > 0 && Clocked(es, 0) && i < |es| && es[|es| - 1].now <= now
    requires Stands(ttl, es, token, b, i) && now < es[i].now + ttl
    ensures LiveChallenge(After(Store(ttl, map[], map[]), es), token, now) == Some(Challenge(b, es[i].now + ttl))
    decreases |es|
  {
    hide Stands, LiveChallenge, After, Clocked;
    var n := |es| - 1;
    var init, e := es[..n], es[n];
    assert es == init + [e];
    if i < n {
      ClockedInit(es);
      StandsSnoc(ttl, init, e, token, b, i);
      assert init[i] == es[i] && init[n - 1] == es[n - 1];
      assert e.now < init[i].now + ttl;
      StandingIsLive(ttl, init, token, b, i, e.now);
    }
    StandingStep(ttl, init, e, token, b, i, now, es[i].now + ttl);
  }

  /**
   * Whatever calls came before: a consume succeeds exactly when the token was issued for the same
   * fields (the method in upper case), has not expired, and since then was neither consumed
   * successfully, nor revoked with its session, nor issued again.
   */
  lemma {:induction false} ConsumeSucceeds(ttl: int, es: seq<Event>, token: Token, b: Bound, now: int)
    requires ttl > 0 && Clocked(es + [At(now, Consume(token, b))], 0)
    ensures AnswerOf(After(Store(ttl, map[], map[]), es), At(now, Consume(token, b)))
            == Verdict(exists i :: 0 <= i < |es| && now < es[i].now + ttl && Stands(ttl, es, token, Normal(b), i))
  {
    hide After, Stands, Normal, AnswerOf;
    var s, e := After(Store(ttl, map[], map[]), es), At(now, Consume(token, b));
    var all := es + [e];
    assert forall i :: 0 <= i < |es| ==> all[i] == es[i];
    assert all[|es|] == e;
    assert Clocked(es, 0);
    AnswerFromLive(s, e);
    var c := LiveChallenge(s, token, now);
    if c.Some? { LiveIsExplained(ttl, es, token, now); }
    forall i | 0 <= i < |es| && now < es[i].now + ttl && Stands(ttl, es, token, Normal(b), i)
      ensures c == Some(Challenge(Normal(b), es[i].now + ttl))
    {
      StandingIsLive(ttl, es, token, Normal(b), i, now);
    }
    hide LiveChallenge;
  }

  /** Tokens are random: none is issued twice. */
  ghost predicate NewTokens(es: seq<Event>) {
    forall i, j :: 0 <= i < j < |es| && es[i].call.Issue? && es[j].call.Issue? ==> es[i].call.token != es[j].call.token
  }

  lemma {:induction false} OneIssue(es: seq<Event>, a: seq<Event>, b: seq<Event>, token: Token, k: nat, i: nat)
    requires NewTokens(es) && a <= es && b <= es && k < |a| && i < |b|
    requires a[k].call.Issue? && a[k].call.token == token && b[i].call.Issue? && b[i].call.token == token
    ensures i == k
  {
  }

  lemma {:induction false} StandsFacts(ttl: int, es: seq<Event>, token: Token, b: Bound, i: nat)
    requires i < |es| && Stands(ttl, es, token, b, i)
    ensures es[i].call.Issue? && es[i].call.token == token
    ensures forall j :: i < j < |es| ==> !Ends(ttl, es, j, token, b)
  {
  }

  lemma {:induction false} SuccessEnds(ttl: int, es: seq<Event>, m: nat, token: Token, b: Bound, b': Bound)
    requires m < |es| && es[m].call == Consume(token, b')
    requires AnswerOf(After(Store(ttl, map[], map[]), es[..m]), es[m]).ok
    ensures Ends(ttl, es, m, token, b)
  {
  }

  /** A token is consumed successfully at most once. */
  lemma {:induction false} ConsumedOnce(ttl: int, es: seq<Event>, m: nat, n: nat, token: Token, b: Bound, b': Bound)
    requires ttl > 0 && Clocked(es, 0) && NewTokens(es) && m < n < |es|
    requires es[m].call == Consume(token, b) && es[n].call == Consume(token, b')
    requires AnswerOf(After(Store(ttl, map[], map[]), es[..m]), es[m]).ok
    ensures !AnswerOf(After(Store(ttl, map[], map[]), es[..n]), es[n]).ok
  {
    hide After, Normal, Complete, Stands, Ends, NewTokens, AnswerOf, Clocked;
    var first, before := es[..m], es[..n];
    ClockedPrefix(es, m);
    ClockedPrefix(es, n);
    ConsumeSucceeds(ttl, before, token, b', es[n].now);
    ConsumeSucceeds(ttl, first, token, b, es[m].now);
    assert es[m] == At(es[m].now, Consume(token, b)) && es[n] == At(es[n].now, Consume(token, b'));
    var k :| 0 <= k < |first| && Stands(ttl, first, token, Normal(b), k);
    StandsFacts(ttl, first, token, Normal(b), k);
    if i :| 0 <= i < n && es[n].now < before[i].now + ttl && Stands(ttl, before, token, Normal(b'), i) {
      StandsFacts(ttl, before, token, Normal(b'), i);
      OneIssue(es, first, before, token, k, i);
      assert before[..m] == first && before[m] == es[m];
      SuccessEnds(ttl, before, m, token, Normal(b'), b);
      assert false;
    }
  }

  lemma {:induction false} ClockedPrefix(es: seq<Event>, n: nat)
    requires Clocked(es, 0) && n < |es|
    ensures Clocked(es[..n] + [es[n]], 0)
  {
  }
}
