/** The per-provider circuit breaker, shown to be a function of the history of
    recorded outcomes. Clock readings are arbitrary reals. */
module CircuitBreaker {
  import opened Wrappers

  datatype Event = Success(at: real) | Failure(at: real)

  datatype CircuitState = CLOSED | OPEN | HALF_OPEN

  datatype Config = Config(failureThreshold: int, cooldownSeconds: real)

  // ------------------------------------------------ history specification

  /** Length of the longest all-failure suffix. */
  function FailureRun(h: seq<Event>): nat {
    if h == [] || h[|h| - 1].Success? then 0 else FailureRun(h[..|h| - 1]) + 1
  }

  /** Failures needed to open: one always takes, whatever the setting says. */
  function Threshold(cfg: Config): nat {
    if cfg.failureThreshold < 1 then 1 else cfg.failureThreshold
  }

  predicate Tripped(cfg: Config, h: seq<Event>) {
    Threshold(cfg) <= FailureRun(h)
  }

  function LastAt(h: seq<Event>): real
    requires h != []
  {
    h[|h| - 1].at
  }

  /** The request is refused at `now`. */
  predicate Refused(cfg: Config, h: seq<Event>, now: real) {
    Tripped(cfg, h) && h != [] && now - LastAt(h) < cfg.cooldownSeconds
  }

  /** The suffix really is all failures, and the longest such one. */
  lemma {:induction false} FailureRunIsLongest(h: seq<Event>)
    ensures FailureRun(h) <= |h|
    ensures forall i :: |h| - FailureRun(h) <= i < |h| ==> h[i].Failure?
    ensures FailureRun(h) < |h| ==> h[|h| - FailureRun(h) - 1].Success?
    decreases |h|
  {
    if h != [] && h[|h| - 1].Failure? {
      FailureRunIsLongest(h[..|h| - 1]);
    }
  }

  /** Refusal, read off the recorded events: the configured number of them, one at least,
      are failures with nothing since, and the cooldown after the last is not over. */
  lemma RefusedIff(cfg: Config, h: seq<Event>, now: real)
    ensures var n := if cfg.failureThreshold < 1 then 1 else cfg.failureThreshold;
            Refused(cfg, h, now)
            <==> && n <= |h| && (forall i :: |h| - n <= i < |h| ==> h[i].Failure?)
                 && now < h[|h| - 1].at + cfg.cooldownSeconds
  {
    FailureRunIsLongest(h);
  }

  lemma {:induction false} FailuresAdd(h: seq<Event>, more: seq<Event>)
    requires forall e :: e in more ==> e.Failure?
    ensures FailureRun(h + more) == FailureRun(h) + |more|
    decreases |more|
  {
    if more == [] {
      assert h + more == h;
    } else {
      assert (h + more)[..|h + more| - 1] == h + more[..|more| - 1];
      assert more[|more| - 1] in more;
      FailuresAdd(h, more[..|more| - 1]);
    }
  }

  // ------------------------------------------------ the fields, as a value

  datatype Fields = Fields(consecutiveFailures: nat, state: CircuitState, openedAt: Option<real>) {

    function EffectiveState(cfg: Config, now: real): CircuitState {
      if state.OPEN? && openedAt.Some? && now - openedAt.value >= cfg.cooldownSeconds then HALF_OPEN else state
    }

    /** A recorded failure; `now` is the reading that decides whether this was a
        probe, `later` the one that stamps the opening. */
    function OnFailure(cfg: Config, now: real, later: real): Fields {
      var f := this.(consecutiveFailures := consecutiveFailures + 1);
      if f.EffectiveState(cfg, now).HALF_OPEN? then
        f.(state := OPEN, openedAt := Some(later))
      else
        f.OnFailureWithoutProbe(cfg, later)
    }

    /** What is left when the half-open branch is deleted. */
    function OnFailureWithoutProbe(cfg: Config, later: real): Fields {
      if consecutiveFailures >= cfg.failureThreshold then this.(state := OPEN, openedAt := Some(later)) else this
    }
  }

  /** The fields that go with a history. */
  function FieldsOf(cfg: Config, h: seq<Event>): Fields {
    if Tripped(cfg, h) && h != []
    then Fields(FailureRun(h), OPEN, Some(LastAt(h)))
    else Fields(FailureRun(h), CLOSED, None)
  }

  /** On every reachable breaker the half-open branch of a failure changes nothing. */
  lemma HalfOpenBranchIsRedundant(cfg: Config, h: seq<Event>, now: real, later: real)
    ensures var f := FieldsOf(cfg, h);
            f.OnFailure(cfg, now, later)
            == f.(consecutiveFailures := f.consecutiveFailures + 1).OnFailureWithoutProbe(cfg, later)
            == FieldsOf(cfg, h + [Failure(later)])
  {
    FailuresAdd(h, [Failure(later)]);
  }

  // ---------------------------------------------------------------- class

  class CircuitBreaker {
    const cfg: Config
    var consecutiveFailures: nat
    var state: CircuitState
    var openedAt: Option<real>
    ghost var history: seq<Event>

    /** The stored fields are the ones the history prescribes. */
    ghost predicate Valid()
      reads this
    {
      Fields(consecutiveFailures, state, openedAt) == FieldsOf(cfg, history)
    }

    constructor (cfg: Config)
      ensures Valid() && this.cfg == cfg && history == []
    {
      this.cfg := cfg;
      consecutiveFailures, state, openedAt := 0, CLOSED, None;
      history := [];
    }

    function EffectiveState(now: real): CircuitState
      reads this
    {
      Fields(consecutiveFailures, state, openedAt).EffectiveState(cfg, now)
    }

    method AllowRequest(now: real) returns (allowed: bool)
      requires Valid()
      ensures allowed == !Refused(cfg, history, now)
      ensures var n := if cfg.failureThreshold < 1 then 1 else cfg.failureThreshold;
              allowed <==> || |history| < n || (exists i :: |history| - n <= i < |history| && history[i].Success?)
                           || history[|history| - 1].at + cfg.cooldownSeconds <= now
    {
      RefusedIff(cfg, history, now);
      allowed := EffectiveState(now) != OPEN;
    }

    method RecordSuccess(now: real)
      requires Valid()
      modifies this
      ensures Valid() && history == old(history) + [Success(now)]
    {
      consecutiveFailures, state, openedAt := 0, CLOSED, None;
      history := history + [Success(now)];
    }

    method RecordFailure(now: real, later: real)
      requires Valid()
      modifies this
      ensures Valid() && history == old(history) + [Failure(later)]
    {
      HalfOpenBranchIsRedundant(cfg, history, now, later);
      history := history + [Failure(later)];
      consecutiveFailures := consecutiveFailures + 1;
      if EffectiveState(now) == HALF_OPEN {
        state, openedAt := OPEN, Some(later);
        return;
      }
      if consecutiveFailures >= cfg.failureThreshold {
        state, openedAt := OPEN, Some(later);
      }
    }
  }

  /** What callers may rely on, in terms of the fields alone: never stored as half
      open, open exactly from the threshold on, opened at the last failure. */
  lemma StoredState(b: CircuitBreaker)
    requires b.Valid()
    ensures b.consecutiveFailures == FailureRun(b.history)
    ensures b.state != HALF_OPEN
    ensures b.state == OPEN <==> Tripped(b.cfg, b.history)
    ensures b.state == OPEN ==> b.history != [] && b.history[|b.history| - 1].Failure?
                                && b.openedAt == Some(LastAt(b.history))
    ensures b.state == CLOSED ==> b.openedAt == None
  {
  }
}
