/** What runs of the shared bucket amount to for its users: the plain bound for calls
    that take turns, and what is let through when a limiter fails open. */
module BucketRuns {
  import opened TokenBucket
  import opened BucketLog
  import opened BucketProtocol
  import opened RateLimiter

  // ------------------------------------------------------------- taking turns

  predicate Idle(s: System) { forall id :: id in s.clients ==> Done(s.clients[id]) }

  /** The time an action brings, if it brings one. */
  function Moment(a: Action, now: int): int {
    match a
    case Begin(_, call) => call.nowMs
    case Expire(atMs) => atMs
    case _ => now
  }

  /** A call begins only when no other is under way, and so does an expiry; their times
      do not run backwards from `now`. Commands may fail at any point. */
  predicate TakesTurns(p: Limits, s: System, run: seq<Action>, now: int)
    requires p.rate != 0.0 && Runnable(p, s, run)
    decreases |run|
  {
    run != [] ==>
      && (run[0].Begin? || run[0].Expire? ==> Idle(s) && now <= Moment(run[0], now))
      && TakesTurns(p, Apply(p, s, run[0]), run[1..], Moment(run[0], now))
  }

  ghost predicate OneAtWork(s: System, now: int) {
    && (forall i, j :: i in s.clients && j in s.clients && !Done(s.clients[i]) && !Done(s.clients[j]) ==> i == j)
    && (forall id :: id in s.clients && !Done(s.clients[id]) ==>
          && s.clients[id].call.nowMs == now
          && (s.clients[id].phase.Refusing? ==> s.clients[id].phase.readAt == s.version))
  }

  ghost predicate InTurn(from: int, s: System, now: int) {
    Steady(from, s.log) && EndOf(from, s.log) <= now && OneAtWork(s, now)
  }

  lemma {:induction false} SteadyGrows(from: int, log: seq<Entry>, e: Entry)
    requires Steady(from, log) && EndOf(from, log) <= TimeOf(e) && !e.StaleDeny?
    ensures Steady(from, log + [e])
    decreases |log|
  {
    if log == [] {
      assert [e][1..] == [] && [] + [e] == [e];
    } else {
      assert (log + [e])[1..] == log[1..] + [e];
      SteadyGrows(TimeOf(log[0]), log[1..], e);
    }
  }

  /** What a step adds to the log: at most one entry, of the acting call's time, and no
      late refusal from a call that is alone at work. */
  lemma StepLogsInTurn(p: Limits, s: System, a: Action, now: int)
    requires p.rate != 0.0 && Enabled(p, s, a) && OneAtWork(s, now)
    requires a.Begin? || a.Expire? ==> now <= Moment(a, now)
    ensures var log := Apply(p, s, a).log;
            || log == s.log
            || (|log| == |s.log| + 1 && log == s.log + [log[|s.log|]]
                && TimeOf(log[|s.log|]) == Moment(a, now) && !log[|s.log|].StaleDeny?)
  {
    hide Decide, Refilled;
  }

  lemma StepLeavesOneAtWork(p: Limits, s: System, a: Action, now: int)
    requires p.rate != 0.0 && Enabled(p, s, a) && OneAtWork(s, now)
    requires a.Begin? || a.Expire? ==> Idle(s)
    ensures OneAtWork(Apply(p, s, a), Moment(a, now))
  {
    hide Decide, Refilled;
  }

  lemma StepInTurn(p: Limits, from: int, s: System, a: Action, now: int)
    requires p.rate != 0.0 && Enabled(p, s, a) && InTurn(from, s, now)
    requires a.Begin? || a.Expire? ==> Idle(s) && now <= Moment(a, now)
    ensures InTurn(from, Apply(p, s, a), Moment(a, now))
  {
    StepLogsInTurn(p, s, a, now);
    StepLeavesOneAtWork(p, s, a, now);
    hide Apply, Steady, OneAtWork, Idle;
    var log := Apply(p, s, a).log;
    if log != s.log {
      SteadyGrows(from, s.log, log[|s.log|]);
    }
  }

  lemma {:induction false} TurnsAreSteady(p: Limits, from: int, s: System, run: seq<Action>, now: int)
    requires p.rate != 0.0 && Runnable(p, s, run) && TakesTurns(p, s, run, now) && InTurn(from, s, now)
    ensures Steady(from, After(p, s, run).log)
    decreases |run|
  {
    hide Enabled, Apply, InTurn;
    if run == [] {
      assert Steady(from, s.log) by { InTurnIsSteady(from, s, now); }
    } else {
      StepInTurn(p, from, s, run[0], now);
      TurnsAreSteady(p, from, Apply(p, s, run[0]), run[1..], Moment(run[0], now));
    }
  }

  lemma InTurnIsSteady(from: int, s: System, now: int)
    requires InTurn(from, s, now)
    ensures Steady(from, s.log)
  {
  }

  lemma {:induction false} SteadyWindow(from: int, log: seq<Entry>, i: nat, j: nat)
    requires Steady(from, log) && i < j <= |log|
    ensures Steady(TimeOf(log[i]), log[i..j])
    decreases |log|
  {
    if i > 0 {
      assert log[1..][i - 1..j - 1] == log[i..j];
      SteadyWindow(TimeOf(log[0]), log[1..], i - 1, j - 1);
    } else {
      SteadyPrefix(from, log, j);
    }
  }

  lemma {:induction false} SteadyPrefix(from: int, log: seq<Entry>, j: nat)
    requires Steady(from, log) && 0 < j <= |log|
    ensures Steady(TimeOf(log[0]), log[..j])
    decreases |log|
  {
    var window := log[..j];
    if j > 1 {
      assert window[1..] == log[1..][..j - 1];
      SteadyPrefix(TimeOf(log[0]), log[1..], j - 1);
      SteadyFromEarlier(TimeOf(log[1]), TimeOf(log[0]), window[1..]);
    } else {
      assert window[1..] == [];
    }
  }

  lemma SteadyFromEarlier(from: int, earlier: int, log: seq<Entry>)
    requires Steady(from, log) && earlier <= from
    ensures Steady(earlier, log)
  {
  }

  /** Calls that take turns on a clock that does not run backwards obey the textbook
      bound in every window of the run, whichever of their commands fail. */
  lemma TurnsObeyPlainBound(p: Limits, init: Stored, run: seq<Action>, from: int, i: nat, j: nat)
    requires p.Valid() && InRange(p, init) && Runnable(p, Start(init), run) && TakesTurns(p, Start(init), run, from)
    requires i < j <= |After(p, Start(init), run).log|
    ensures var log := After(p, Start(init), run).log;
            Admitted(log[i..j]) <= p.capacity + Gain(p, TimeOf(log[j - 1]) - TimeOf(log[i]))
  {
    hide Runnable, After, TakesTurns;
    TurnsAreSteady(p, from, Start(init), run, from);
    SteadyWindow(from, After(p, Start(init), run).log, i, j);
    RunWindowBound(p, init, run, i, j);
  }

  /** At a limit per minute: no more than the limit at once, and as much again for every
      60 seconds the window is long. */
  lemma TurnsObeyTheLimit(limit: int, init: Stored, run: seq<Action>, from: int, i: nat, j: nat)
    requires var p := PerMinute(limit);
             0 < limit && InRange(p, init) && Runnable(p, Start(init), run) && TakesTurns(p, Start(init), run, from)
    requires i < j <= |After(PerMinute(limit), Start(init), run).log|
    ensures var log := After(PerMinute(limit), Start(init), run).log;
            var windowMs := TimeOf(log[j - 1]) - TimeOf(log[i]);
            Admitted(log[i..j]) <= limit as real + (limit * windowMs) as real / 60000.0
  {
    TurnsObeyPlainBound(PerMinute(limit), init, run, from, i, j);
  }

  // -------------------------------------------------------------- failing open

  /** The caller lets the call through. */
  predicate Passes(c: Client, failOpen: bool) {
    if c.phase.Finished? then c.phase.allowed else c.phase.Failed? && failOpen
  }

  predicate IsFree(c: Client) { c.phase.Failed? && !c.phase.charged }

  function CostIf(c: Client, counts: bool): real { if counts then c.call.cost else 0.0 }

  /** Total cost of those of `ids` that are let through. */
  function Passed(s: System, ids: seq<nat>, failOpen: bool): real {
    if ids == [] then 0.0
    else if ids[0] !in s.clients then Passed(s, ids[1..], failOpen)
    else Passed(s, ids[1..], failOpen) + CostIf(s.clients[ids[0]], Passes(s.clients[ids[0]], failOpen))
  }

  /** Total cost of those that failed before they were charged. */
  function FailedFree(s: System, ids: seq<nat>): real {
    if ids == [] then 0.0
    else if ids[0] !in s.clients then FailedFree(s, ids[1..])
    else FailedFree(s, ids[1..]) + CostIf(s.clients[ids[0]], IsFree(s.clients[ids[0]]))
  }

  function ChargeOf(e: Entry, id: nat): real {
    if e.Admit? && e.client == id then e.call.cost else 0.0
  }

  /** What the log charges `id`. */
  function ChargedTo(log: seq<Entry>, id: nat): real {
    if log == [] then 0.0 else ChargedTo(log[..|log| - 1], id) + ChargeOf(Last(log), id)
  }

  function ChargedToAll(log: seq<Entry>, ids: seq<nat>): real {
    if ids == [] then 0.0 else ChargedToAll(log, ids[1..]) + ChargedTo(log, ids[0])
  }

  /** Every admission in the log is of a client, and of its call. */
  ghost predicate Attributed(s: System) {
    forall e :: e in s.log && e.Admit? ==> e.client in s.clients && s.clients[e.client].call == e.call
  }

  lemma StepStaysAttributed(p: Limits, s: System, a: Action)
    requires p.rate != 0.0 && Enabled(p, s, a) && Attributed(s)
    ensures Attributed(Apply(p, s, a))
  {
    hide Decide, Refilled;
  }

  lemma {:induction false} RunStaysAttributed(p: Limits, s: System, run: seq<Action>)
    requires p.rate != 0.0 && Runnable(p, s, run) && Attributed(s)
    ensures Attributed(After(p, s, run))
    decreases |run|
  {
    hide Enabled, Apply, Attributed;
    if run != [] {
      StepStaysAttributed(p, s, run[0]);
      RunStaysAttributed(p, Apply(p, s, run[0]), run[1..]);
    }
  }

  /** A client charged once is charged its cost. */
  lemma {:induction false} ChargedItsCost(log: seq<Entry>, id: nat, call: Call)
    requires forall e :: e in log && e.Admit? && e.client == id ==> e.call == call
    requires Charges(log, id) <= 1
    ensures ChargedTo(log, id) == if Charges(log, id) == 1 then call.cost else 0.0
    decreases |log|
  {
    if log != [] {
      var before := log[..|log| - 1];
      assert forall e :: e in before ==> e in log;
      assert Last(log) in log;
      ChargedItsCost(before, id, call);
    }
  }

  predicate Distinct(ids: seq<nat>) {
    ids != [] ==> ids[0] !in ids[1..] && Distinct(ids[1..])
  }

  /** An entry is charged to at most one of distinct clients. */
  lemma {:induction false} OneMoreCharge(before: seq<Entry>, e: Entry, ids: seq<nat>)
    requires Distinct(ids)
    ensures ChargedToAll(before + [e], ids)
         == ChargedToAll(before, ids) + if e.Admit? && e.client in ids then e.call.cost else 0.0
    decreases |ids|
  {
    assert (before + [e])[..|before + [e]| - 1] == before;
    if ids != [] {
      OneMoreCharge(before, e, ids[1..]);
    }
  }

  lemma {:induction false} ChargesFitTheLog(log: seq<Entry>, ids: seq<nat>)
    requires Distinct(ids) && forall e :: e in log && e.Admit? ==> 0.0 <= e.call.cost
    ensures ChargedToAll(log, ids) <= Admitted(log)
    decreases |log|
  {
    if log == [] {
      NothingCharged(ids);
    } else {
      var before, e := log[..|log| - 1], Last(log);
      assert log == before + [e] && e in log;
      assert forall x :: x in before ==> x in log;
      ChargesFitTheLog(before, ids);
      OneMoreCharge(before, e, ids);
      AdmittedGrows(before, e);
    }
  }

  lemma {:induction false} NothingCharged(ids: seq<nat>)
    ensures ChargedToAll([], ids) == 0.0
    decreases |ids|
  {
    if ids != [] {
      NothingCharged(ids[1..]);
    }
  }

  lemma {:induction false} AdmittedGrows(before: seq<Entry>, e: Entry)
    ensures Admitted(before + [e]) == Admitted(before) + if e.Admit? then e.call.cost else 0.0
    decreases |before|
  {
    if before == [] {
      assert [e][1..] == [] && [] + [e] == [e];
    } else {
      assert (before + [e])[1..] == before[1..] + [e];
      AdmittedGrows(before[1..], e);
    }
  }

  /** Who passes was charged, or failed free of charge. */
  lemma {:induction false} PassesArePaidOrFree(p: Limits, init: Stored, s: System, ids: seq<nat>, failOpen: bool)
    requires p.rate != 0.0 && Inv(p, init, s) && Attributed(s)
    ensures Passed(s, ids, failOpen) <= ChargedToAll(s.log, ids) + if failOpen then FailedFree(s, ids) else 0.0
    decreases |ids|
  {
    if ids != [] {
      var id := ids[0];
      PassesArePaidOrFree(p, init, s, ids[1..], failOpen);
      if id in s.clients {
        assert ClientOk(p, s, s.clients[id]);
        ChargedItsCost(s.log, id, s.clients[id].call);
      } else {
        ChargedItsCost(s.log, id, Call(0, 0.0));
      }
    }
  }

  lemma {:induction false} LegalCosts(p: Limits, s: Stored, log: seq<Entry>)
    requires p.rate != 0.0 && Legal(p, s, log)
    ensures forall e :: e in log && e.Admit? ==> 0.0 <= e.call.cost
    decreases |log|
  {
    if log != [] {
      assert log == [log[0]] + log[1..];
      LegalCosts(p, ApplyEntry(p, s, log[0]), log[1..]);
    }
  }

  /** What any run lets through, whatever fails on the way: the admission bound, plus
      what failed free of charge if the limiter fails open. */
  lemma PassBound(p: Limits, init: Stored, run: seq<Action>, ids: seq<nat>, failOpen: bool)
    requires p.Valid() && InRange(p, init) && Runnable(p, Start(init), run) && Distinct(ids)
    ensures var s := After(p, Start(init), run);
            Passed(s, ids, failOpen) + Tokens(p, s.stored)
            <= Tokens(p, init) + Gain(p, ForwardMs(p, init, s.log)) + StaleCredit(s.log)
               + if failOpen then FailedFree(s, ids) else 0.0
  {
    hide Runnable, After, Gain, ForwardMs, StaleCredit, Passed, FailedFree;
    var s := After(p, Start(init), run);
    RunKeepsInv(p, init, Start(init), run);
    RunStaysAttributed(p, Start(init), run);
    PassesArePaidOrFree(p, init, s, ids, failOpen);
    LegalCosts(p, init, s.log);
    ChargesFitTheLog(s.log, ids);
    RunAdmissionBound(p, init, run);
  }
}
