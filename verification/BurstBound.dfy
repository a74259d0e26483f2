/** How hard one provider object can hit an upstream that never answers: breaker
    and retry loop together, over any number of requests, completed or streamed,
    made one after another. */
module BurstBound {
  import opened Reals
  import opened CircuitBreaker
  import opened Provider

  /** One request to the provider: the script of its upstream calls and its clock. A
      completion is a request whose calls yield no chunks. */
  datatype Session = Session(upstream: nat -> StreamScript, clock: nat -> real)

  function Completion(upstream: nat -> Outcome<()>, clock: nat -> real): Session {
    Session((i: nat) => StreamScript([], upstream(i)), clock)
  }

  /** For completions the two retry loops are one. */
  lemma {:induction false} CompletionsRetryAlike(upstream: nat -> Outcome<()>, clock: nat -> real, budget: nat,
      attempt: nat)
    ensures CallsMade(StreamOutcomes(Completion(upstream, clock).upstream), budget, attempt)
            == CallsMade(upstream, budget, attempt)
    decreases budget - attempt
  {
    if upstream(attempt).WorthRetrying() && attempt < budget {
      CompletionsRetryAlike(upstream, clock, budget, attempt + 1);
    }
  }

  function AttemptsOf(cfg: Config, budget: nat, h: seq<Event>, s: Session): nat {
    if Refused(cfg, h, s.clock(0)) then 0 else CallsMade(StreamOutcomes(s.upstream), budget, 0)
  }

  function HistoryOf(cfg: Config, budget: nat, h: seq<Event>, s: Session): seq<Event> {
    HistoryAfter(h, EndsOf(s.upstream), s.clock, AttemptsOf(cfg, budget, h, s))
  }

  /** Requests come one at a time on a clock that does not run backwards, and every
      upstream call ends in a provider error. */
  ghost predicate DeadRun(cfg: Config, budget: nat, h: seq<Event>, sessions: seq<Session>)
    decreases |sessions|
  {
    sessions != [] ==>
      var s := sessions[0];
      && (forall i: nat :: s.upstream(i).end.Failed?)
      && (forall i: nat, j: nat :: i <= j ==> s.clock(i) <= s.clock(j))
      && (h != [] ==> LastAt(h) <= s.clock(0))
      && DeadRun(cfg, budget, HistoryOf(cfg, budget, h, s), sessions[1..])
  }

  /** Upstream calls made. */
  function Total(cfg: Config, budget: nat, h: seq<Event>, sessions: seq<Session>): nat
    decreases |sessions|
  {
    if sessions == [] then 0
    else AttemptsOf(cfg, budget, h, sessions[0])
         + Total(cfg, budget, HistoryOf(cfg, budget, h, sessions[0]), sessions[1..])
  }

  /** Requests let through after the breaker had tripped. */
  function Probes(cfg: Config, budget: nat, h: seq<Event>, sessions: seq<Session>): nat
    decreases |sessions|
  {
    if sessions == [] then 0
    else (if Tripped(cfg, h) && !Refused(cfg, h, sessions[0].clock(0)) then 1 else 0)
         + Probes(cfg, budget, HistoryOf(cfg, budget, h, sessions[0]), sessions[1..])
  }

  /** Every call's failure is worth a retry: a retryable error before the first chunk. */
  ghost predicate Retryable(s: Session) {
    forall i: nat :: StreamOutcomes(s.upstream)(i).WorthRetrying()
  }

  /** What one request to a dead upstream does to the breaker. */
  lemma DeadSession(cfg: Config, budget: nat, h: seq<Event>, s: Session)
    requires forall i: nat :: s.upstream(i).end.Failed?
    requires forall i: nat, j: nat :: i <= j ==> s.clock(i) <= s.clock(j)
    ensures AttemptsOf(cfg, budget, h, s) <= budget + 1
    ensures FailureRun(HistoryOf(cfg, budget, h, s)) == FailureRun(h) + AttemptsOf(cfg, budget, h, s)
    ensures Refused(cfg, h, s.clock(0)) ==> AttemptsOf(cfg, budget, h, s) == 0 && HistoryOf(cfg, budget, h, s) == h
    ensures !Refused(cfg, h, s.clock(0)) ==>
              var h' := HistoryOf(cfg, budget, h, s);
              && 1 <= AttemptsOf(cfg, budget, h, s) && h' != [] && s.clock(0) <= LastAt(h')
              && (Retryable(s) ==> AttemptsOf(cfg, budget, h, s) == budget + 1)
  {
    if !Refused(cfg, h, s.clock(0)) {
      var n := CallsMade(StreamOutcomes(s.upstream), budget, 0);
      CallsMadeIsFirstStop(StreamOutcomes(s.upstream), budget, 0);
      CounterAfterRequest(h, EndsOf(s.upstream), s.clock, n);
      OneMoreCall(h, EndsOf(s.upstream), s.clock, budget, n - 1);
    }
  }

  /** A probe starts at least one cooldown after the failure before it. */
  lemma ProbesAreSpaced(cfg: Config, h: seq<Event>, now: real)
    requires Tripped(cfg, h) && !Refused(cfg, h, now)
    ensures h != [] && LastAt(h) + cfg.cooldownSeconds <= now
  {
    FailureRunIsLongest(h);
  }

  /** Calls of `n` bursts. */
  function BurstCalls(budget: nat, n: nat): nat { (budget + 1) * n }

  function Cooldowns(cfg: Config, n: nat): real { n as real * cfg.cooldownSeconds }

  lemma MoreBursts(budget: nat, m: nat, n: nat)
    requires m <= n
    ensures BurstCalls(budget, m) <= BurstCalls(budget, n)
  {
  }

  lemma OneMoreBurst(cfg: Config, budget: nat, n: nat)
    ensures BurstCalls(budget, 0) == 0
    ensures BurstCalls(budget, n + 1) == BurstCalls(budget, n) + budget + 1
    ensures Cooldowns(cfg, 1) == cfg.cooldownSeconds
    ensures Cooldowns(cfg, n + 1) == Cooldowns(cfg, n) + cfg.cooldownSeconds
  {
  }

  /** With the breaker tripped: one burst of at most retries + 1 calls per probe, and
      a cooldown before every probe. */
  lemma {:induction false} BurstsAfterTrip(cfg: Config, budget: nat, h: seq<Event>, sessions: seq<Session>, t: real)
    requires Tripped(cfg, h) && h != [] && DeadRun(cfg, budget, h, sessions)
    requires forall i :: 0 <= i < |sessions| ==> sessions[i].clock(0) <= t
    ensures Total(cfg, budget, h, sessions) <= BurstCalls(budget, Probes(cfg, budget, h, sessions))
    ensures var probes := Probes(cfg, budget, h, sessions);
            probes > 0 ==> Cooldowns(cfg, probes) <= t - LastAt(h)
    decreases |sessions|
  {
    hide FailureRun, LastAt, AttemptsOf, HistoryOf, BurstCalls, Cooldowns;
    if sessions != [] {
      var s := sessions[0];
      var h' := HistoryOf(cfg, budget, h, s);
      DeadSession(cfg, budget, h, s);
      BurstsAfterTrip(cfg, budget, h', sessions[1..], t);
      if !Refused(cfg, h, s.clock(0)) {
        ProbesAreSpaced(cfg, h, s.clock(0));
        OneMoreBurst(cfg, budget, Probes(cfg, budget, h', sessions[1..]));
      }
    }
  }

  /** Before that: at most threshold + retries calls until it trips. */
  lemma {:induction false} BurstsBeforeTrip(cfg: Config, budget: nat, h: seq<Event>, sessions: seq<Session>,
      from: real, t: real)
    requires !Tripped(cfg, h) && DeadRun(cfg, budget, h, sessions)
    requires forall i :: 0 <= i < |sessions| ==> from <= sessions[i].clock(0) <= t
    ensures Total(cfg, budget, h, sessions)
         <= Threshold(cfg) + budget - FailureRun(h) + BurstCalls(budget, Probes(cfg, budget, h, sessions))
    ensures var probes := Probes(cfg, budget, h, sessions);
            probes > 0 ==> Cooldowns(cfg, probes) <= t - from
    decreases |sessions|
  {
    hide FailureRun, LastAt, AttemptsOf, HistoryOf, BurstCalls, Cooldowns;
    if sessions != [] {
      var s := sessions[0];
      var h' := HistoryOf(cfg, budget, h, s);
      DeadSession(cfg, budget, h, s);
      if Tripped(cfg, h') {
        BurstsAfterTrip(cfg, budget, h', sessions[1..], t);
      } else {
        BurstsBeforeTrip(cfg, budget, h', sessions[1..], from, t);
      }
    }
  }

  /** Calls made by time `t` to an upstream that has been dead since the first
      request: threshold + retries, plus a burst per cooldown elapsed. */
  lemma CallsToDeadUpstream(cfg: Config, budget: nat, sessions: seq<Session>, t: real)
    requires 0.0 < cfg.cooldownSeconds && sessions != [] && DeadRun(cfg, budget, [], sessions)
    requires forall i :: 0 <= i < |sessions| ==> sessions[0].clock(0) <= sessions[i].clock(0) <= t
    ensures Total(cfg, budget, [], sessions)
         <= Threshold(cfg) + budget + BurstCalls(budget, Wholes(t - sessions[0].clock(0), cfg.cooldownSeconds))
  {
    var from := sessions[0].clock(0);
    var probes := Probes(cfg, budget, [], sessions);
    BurstsBeforeTrip(cfg, budget, [], sessions, from, t);
    WholeSteps(probes, cfg.cooldownSeconds, t - from);
    MoreBursts(budget, probes, Wholes(t - from, cfg.cooldownSeconds));
  }

  // --------------------------------------------------- the first refusal

  /** Upstream calls made before the first refused request. */
  function CallsBeforeRefusal(cfg: Config, budget: nat, h: seq<Event>, sessions: seq<Session>): nat
    decreases |sessions|
  {
    if sessions == [] || Refused(cfg, h, sessions[0].clock(0)) then 0
    else AttemptsOf(cfg, budget, h, sessions[0])
         + CallsBeforeRefusal(cfg, budget, HistoryOf(cfg, budget, h, sessions[0]), sessions[1..])
  }

  /** The breaker has tripped and a whole cooldown has passed since the last failure. */
  predicate CooledDown(cfg: Config, h: seq<Event>, now: real) {
    Tripped(cfg, h) && h != [] && LastAt(h) + cfg.cooldownSeconds <= now
  }

  /** Before the first refusal, some request arrives at a breaker that has cooled down. */
  predicate SomeArriveCooledDown(cfg: Config, budget: nat, h: seq<Event>, sessions: seq<Session>)
    decreases |sessions|
  {
    && sessions != [] && !Refused(cfg, h, sessions[0].clock(0))
    && (CooledDown(cfg, h, sessions[0].clock(0))
        || SomeArriveCooledDown(cfg, budget, HistoryOf(cfg, budget, h, sessions[0]), sessions[1..]))
  }

  /** When no request waits out the cooldown, at most threshold + retries calls happen
      before the first refusal; and when every failure is worth retrying, that bound
      holds exactly when none does. */
  lemma {:induction false} FirstRefusalComesInTime(cfg: Config, budget: nat, h: seq<Event>, sessions: seq<Session>)
    requires !Tripped(cfg, h) && DeadRun(cfg, budget, h, sessions)
    ensures !SomeArriveCooledDown(cfg, budget, h, sessions) ==>
              FailureRun(h) + CallsBeforeRefusal(cfg, budget, h, sessions) <= Threshold(cfg) + budget
    ensures (forall s :: s in sessions ==> Retryable(s)) ==>
              (FailureRun(h) + CallsBeforeRefusal(cfg, budget, h, sessions) <= Threshold(cfg) + budget
               <==> !SomeArriveCooledDown(cfg, budget, h, sessions))
    decreases |sessions|
  {
    hide FailureRun, LastAt, AttemptsOf, HistoryOf;
    if sessions != [] {
      var s, rest := sessions[0], sessions[1..];
      var h' := HistoryOf(cfg, budget, h, s);
      assert forall x :: x in rest ==> x in sessions;
      DeadSession(cfg, budget, h, s);
      if !Tripped(cfg, h') {
        FirstRefusalComesInTime(cfg, budget, h', rest);
      } else if rest != [] && !Refused(cfg, h', rest[0].clock(0)) {
        DeadSession(cfg, budget, h', rest[0]);
        ProbesAreSpaced(cfg, h', rest[0].clock(0));
        assert SomeArriveCooledDown(cfg, budget, h', rest);
        assert rest[0] in sessions && AttemptsOf(cfg, budget, h', rest[0]) <= CallsBeforeRefusal(cfg, budget, h', rest);
      }
    }
  }

  /** Requests spaced wider than the cooldown are never refused, so no bound on the
      calls before the first refusal holds: three here, with threshold + retries = 1. */
  lemma SpacedRequestsAreNeverRefused()
    ensures var cfg := Config(1, 1.0);
            var at := (t: real) => Completion((i: nat) => Failed(TimedOut), (i: nat) => t);
            var sessions := [at(0.0), at(10.0), at(20.0)];
            DeadRun(cfg, 0, [], sessions)
            && !Refused(cfg, [], 0.0) && !Refused(cfg, [Failure(0.0)], 10.0)
            && !Refused(cfg, [Failure(0.0), Failure(10.0)], 20.0)
            && CallsBeforeRefusal(cfg, 0, [], sessions) == Total(cfg, 0, [], sessions) == 3 > Threshold(cfg) + 0
  {
    var cfg := Config(1, 1.0);
    var at := (t: real) => Completion((i: nat) => Failed(TimedOut), (i: nat) => t);
    var a, b, c := at(0.0), at(10.0), at(20.0);
    assert [a, b, c][1..] == [b, c] && [b, c][1..] == [c] && [c][1..] == [];
    forall h: seq<Event>, s: Session | (s == a || s == b || s == c) && !Refused(cfg, h, s.clock(0))
      ensures AttemptsOf(cfg, 0, h, s) == 1 && HistoryOf(cfg, 0, h, s) == h + [Failure(s.clock(0))]
    {
      OneMoreCall(h, EndsOf(s.upstream), s.clock, 0, 0);
      OneMoreCall(h, StreamOutcomes(s.upstream), s.clock, 0, 0);
    }
    assert [] + [Failure(0.0)] == [Failure(0.0)];
    assert [Failure(0.0)] + [Failure(10.0)] == [Failure(0.0), Failure(10.0)];
    assert DeadRun(cfg, 0, [Failure(0.0), Failure(10.0)], [c]);
    assert Total(cfg, 0, [Failure(0.0), Failure(10.0)], [c]) == 1;
    assert CallsBeforeRefusal(cfg, 0, [Failure(0.0), Failure(10.0)], [c]) == 1;
  }

  // ------------------------------------------------------ foreign exceptions

  /** `n` requests whose first call raises something that is not a provider error. */
  function CrashingRequests(n: nat): seq<Session> {
    if n == 0 then [] else [Completion((i: nat) => Crashed, (i: nat) => 0.0)] + CrashingRequests(n - 1)
  }

  /** The breaker never hears of such exceptions, so nothing bounds the calls: `n`
      requests make `n` calls, at any threshold. */
  lemma {:induction false} CrashesAreNeverCounted(cfg: Config, budget: nat, h: seq<Event>, n: nat)
    requires !Tripped(cfg, h)
    ensures Total(cfg, budget, h, CrashingRequests(n)) == n
    ensures CallsBeforeRefusal(cfg, budget, h, CrashingRequests(n)) == n
    decreases n
  {
    if n > 0 {
      var s := CrashingRequests(n)[0];
      assert CrashingRequests(n)[1..] == CrashingRequests(n - 1);
      OneMoreCall(h, StreamOutcomes(s.upstream), s.clock, budget, 0);
      OneMoreCall(h, EndsOf(s.upstream), s.clock, budget, 0);
      assert AttemptsOf(cfg, budget, h, s) == 1 && HistoryOf(cfg, budget, h, s) == h + [] == h;
      CrashesAreNeverCounted(cfg, budget, h, n - 1);
    }
  }
}
