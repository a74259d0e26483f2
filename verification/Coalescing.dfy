/** The coalescing lock over every interleaving: how many requests can hold it at
    once, who deletes it, and how long the others wait. */
module Coalescing {
  import opened Wrappers
  import opened ChatRequest
  import opened ChatResponse
  import opened CacheKeys
  import opened GatewayProtocol

  function WonBy(h: Handler): Won {
    if h.phase.Calling? || h.phase.Releasing? then h.phase.won else NotWon
  }

  /** Between winning the lock `key` and releasing it. */
  predicate Holds(w: World, h: Handler, key: string) { WonBy(h) != NotWon && LockOf(w, h) == key }

  function Holders(w: World, s: State, key: string): set<nat> {
    set id | id in s.handlers && Holds(w, s.handlers[id], key)
  }

  /** Holders whose own lock is no longer in Redis. */
  function Stray(w: World, s: State, key: string): set<nat> { Apart(Holders(w, s, key), s.locks, key) }

  function Apart(holders: set<nat>, locks: map<string, Lock>, key: string): set<nat> {
    holders - if key in locks then {locks[key].owner} else {}
  }

  /** What can go wrong with `key` in one step: a winner still holds it when its time
      to live ends, or a request that could not ask Redis proceeds as if it had won. */
  function Fault(w: World, c: Config, s: State, a: Action, key: string): nat
    requires Enabled(w, s, a)
  {
    match a
    case Tick(ms) =>
      if && key in s.locks && s.locks[key].expiresAt <= s.now + ms
         && s.locks[key].owner in Holders(w, s, key)
      then 1 else 0
    case Acquire(id, reachable) =>
      if FailsOpen(c, reachable) && LockOf(w, s.handlers[id]) == key then 1 else 0
    case _ => 0
  }

  function Faults(w: World, c: Config, s: State, run: seq<Action>, key: string): nat
    requires Runnable(w, c, s, run)
    decreases |run|
  {
    if run == [] then 0 else Fault(w, c, s, run[0], key) + Faults(w, c, Apply(w, c, s, run[0]), run[1..], key)
  }

  // ------------------------------------------------------------- cardinality

  lemma SubsetSize(a: set<nat>, b: set<nat>)
    requires a <= b
    ensures |a| <= |b|
  {
    assert b == a + (b - a);
    assert |a + (b - a)| == |a| + |b - a|;
  }

  lemma AddOne(a: set<nat>, b: set<nat>, x: nat)
    requires a <= b + {x}
    ensures |a| <= |b| + 1
  {
    SubsetSize(a, b + {x});
  }

  /** Swapping one member for another never grows a set. */
  lemma SwapOne(all: set<nat>, x: nat, y: nat)
    requires x in all
    ensures |all - {x}| <= |all - {y}|
  {
    assert all == (all - {x}) + {x};
    AddOne(all, all - {y}, y);
  }

  // -------------------------------------------------------------- invariant

  /** One request's step moves at most that request in or out. */
  lemma HoldersAfter(w: World, s: State, s': State, id: nat, key: string)
    requires id in s'.handlers && s'.handlers == s.handlers[id := s'.handlers[id]]
    ensures Holders(w, s', key) == Holders(w, s, key) - {id} + if Holds(w, s'.handlers[id], key) then {id} else {}
  {
    hide Holds;
  }

  function Slept(c: Config, polls: nat): int { polls * c.pollMs }

  lemma OneMoreNap(c: Config, polls: nat)
    ensures Slept(c, polls + 1) == Slept(c, polls) + c.pollMs
    ensures Slept(c, 0) == 0
  {
  }

  /** No request waits past its budget: the last poll was begun before the deadline. */
  predicate PatientEnough(c: Config, now: int, h: Handler) {
    && (h.polls == 0 || Slept(c, h.polls - 1) < c.waitMs)
    && (match h.phase
        case Waiting(deadline) => deadline - c.waitMs + Slept(c, h.polls) <= now
        case Napping(deadline, wakeAt) => Slept(c, h.polls) < c.waitMs
          && deadline - c.waitMs + Slept(c, h.polls) + c.pollMs <= wakeAt
        case ReadingExact => h.polls == 0
        case ReadingSemantic => h.polls == 0
        case Acquiring => h.polls == 0
        case Releasing(won, _) => won != NotWon
        case _ => true)
  }

  ghost predicate Sane(c: Config, s: State) {
    forall id :: id in s.handlers ==> PatientEnough(c, s.now, s.handlers[id])
  }

  lemma OwnStepIsPatient(w: World, c: Config, s: State, a: Action)
    requires Enabled(w, s, a) && a.Actor().Some?
    requires a.id in s.handlers ==> PatientEnough(c, s.now, s.handlers[a.id])
    ensures PatientEnough(c, s.now, Apply(w, c, s, a).handlers[a.id])
  {
    hide Slept, Get, Matches, Built, LockOf, EntryKey;
    if a.Begin? {
      OneMoreNap(c, 0);
    } else if a.Acquire? {
      OneMoreNap(c, 0);
      AcquireIsPatient(w, c, s, a.id, a.reachable);
    } else if a.Poll? {
      OneMoreNap(c, s.handlers[a.id].polls);
      PollIsPatient(w, c, s, a.id, a.reachable);
    } else {
      OtherStepsArePatient(w, c, s, a);
    }
  }

  lemma AcquireIsPatient(w: World, c: Config, s: State, id: nat, reachable: bool)
    requires Enabled(w, s, Acquire(id, reachable)) && PatientEnough(c, s.now, s.handlers[id]) && Slept(c, 0) == 0
    ensures PatientEnough(c, s.now, Apply(w, c, s, Acquire(id, reachable)).handlers[id])
  {
    hide Slept, LockOf;
  }

  lemma PollIsPatient(w: World, c: Config, s: State, id: nat, reachable: bool)
    requires Enabled(w, s, Poll(id, reachable)) && PatientEnough(c, s.now, s.handlers[id])
    requires Slept(c, s.handlers[id].polls + 1) == Slept(c, s.handlers[id].polls) + c.pollMs
    ensures PatientEnough(c, s.now, Apply(w, c, s, Poll(id, reachable)).handlers[id])
  {
    hide Slept, Get;
  }

  lemma OtherStepsArePatient(w: World, c: Config, s: State, a: Action)
    requires Enabled(w, s, a) && a.Actor().Some? && a.id in s.handlers && !a.Acquire? && !a.Poll?
    requires PatientEnough(c, s.now, s.handlers[a.id])
    ensures PatientEnough(c, s.now, Apply(w, c, s, a).handlers[a.id])
  {
    hide Slept, Get, Matches, Built, LockOf, EntryKey, Stamp;
  }

  lemma StepStaysSane(w: World, c: Config, s: State, a: Action)
    requires Sane(c, s) && Enabled(w, s, a)
    ensures Sane(c, Apply(w, c, s, a))
  {
    hide PatientEnough, Matches;
    var s' := Apply(w, c, s, a);
    forall id | id in s'.handlers
      ensures PatientEnough(c, s'.now, s'.handlers[id])
    {
      if a.Actor() == Some(id) {
        OwnStepIsPatient(w, c, s, a);
      } else {
        OthersDoNotInterfere(w, c, s, a, id);
        PatienceLasts(c, s.now, s'.now, s.handlers[id]);
      }
    }
  }

  lemma PatienceLasts(c: Config, now: int, later: int, h: Handler)
    requires PatientEnough(c, now, h) && now <= later
    ensures PatientEnough(c, later, h)
  {
  }

  /** The three outcomes of SET NX. */
  lemma AcquireStep(w: World, c: Config, s: State, id: nat, reachable: bool)
    requires Enabled(w, s, Acquire(id, reachable))
    ensures var s', key := Apply(w, c, s, Acquire(id, reachable)), LockOf(w, s.handlers[id]);
            && id in s'.handlers && LockOf(w, s'.handlers[id]) == key
            && (if FailsOpen(c, reachable) then WonBy(s'.handlers[id]) == FailedOpen && s'.locks == s.locks
                else if key in s.locks then WonBy(s'.handlers[id]) == NotWon && s'.locks == s.locks
                else WonBy(s'.handlers[id]) == Took
                     && s'.locks == s.locks[key := Lock(s.now + 1000 * c.lockTtlSeconds, id)])
  {
    hide LockKey;
  }

  /** DEL, whatever the lock holds. */
  lemma ReleaseStep(w: World, c: Config, s: State, id: nat, reachable: bool)
    requires Enabled(w, s, Release(id, reachable))
    ensures var h, s' := s.handlers[id], Apply(w, c, s, Release(id, reachable));
            && id in s'.handlers && s'.handlers[id] == h.(phase := AfterCall(h, NotWon, h.phase.outcome))
            && s'.locks == if reachable then Without(s.locks, LockOf(w, h)) else s.locks
  {
    hide LockKey;
  }

  /** Only acquiring wins, only releasing gives up, and no other step of a request
      touches a lock. */
  lemma WonStep(w: World, c: Config, s: State, a: Action)
    requires Enabled(w, s, a) && a.Actor().Some?
    ensures var s' := Apply(w, c, s, a);
            && s'.handlers == s.handlers[a.id := s'.handlers[a.id]]
            && (a.id in s.handlers ==> LockOf(w, s'.handlers[a.id]) == LockOf(w, s.handlers[a.id]))
            && (!a.Acquire? && !a.Release? ==>
                  && s'.locks == s.locks
                  && WonBy(s'.handlers[a.id]) == if a.id in s.handlers then WonBy(s.handlers[a.id]) else NotWon)
            && (a.Acquire? ==> WonBy(s.handlers[a.id]) == NotWon)
            && (a.Release? ==> WonBy(s'.handlers[a.id]) == NotWon)
  {
    hide Get, Matches, Built, Stamp, LockOf, EntryKey;
    if a.Acquire? {
      hide ApplyOwn;
      AcquireStep(w, c, s, a.id, a.reachable);
    } else if a.id in s.handlers {
      SameRequest(w, c, s, a);
    }
  }

  lemma SameRequest(w: World, c: Config, s: State, a: Action)
    requires Enabled(w, s, a) && a.Actor().Some? && a.id in s.handlers && !a.Acquire?
    ensures var h' := Apply(w, c, s, a).handlers[a.id];
            h'.tenant == s.handlers[a.id].tenant && h'.request == s.handlers[a.id].request
            && LockOf(w, h') == LockOf(w, s.handlers[a.id])
  {
    hide Get, Matches, Built, Stamp, LockKey, EntryKey;
  }

  /** Requests start holding by acquiring and stop by their own release, whether the
      upstream call succeeded or not; and only holders release. */
  lemma LockDiscipline(w: World, c: Config, s: State, a: Action, id: nat, key: string)
    requires Sane(c, s) && Enabled(w, s, a)
    ensures id in Holders(w, s, key) && id !in Holders(w, Apply(w, c, s, a), key) <==>
            id in Holders(w, s, key) && a.Release? && a.id == id
    ensures id !in Holders(w, s, key) && id in Holders(w, Apply(w, c, s, a), key) ==> a.Acquire? && a.id == id
    ensures a.Release? ==> a.id in Holders(w, s, LockOf(w, s.handlers[a.id]))
  {
    hide Apply, LockOf;
    if a.Actor().Some? {
      WonStep(w, c, s, a);
      assert a.id in s.handlers ==> PatientEnough(c, s.now, s.handlers[a.id]);
    } else {
      OthersDoNotInterfere(w, c, s, a, id);
    }
  }

  /** The clock can only make a stray of the owner. */
  lemma LapseStray(holders: set<nat>, locks: map<string, Lock>, now: int, key: string)
    ensures |Apart(holders, Unexpired(locks, now), key)|
            <= |Apart(holders, locks, key)|
               + if key in locks && locks[key].expiresAt <= now && locks[key].owner in holders then 1 else 0
  {
    if key in locks && locks[key].expiresAt <= now && locks[key].owner in holders {
      AddOne(Apart(holders, Unexpired(locks, now), key), Apart(holders, locks, key), locks[key].owner);
    } else {
      SubsetSize(Apart(holders, Unexpired(locks, now), key), Apart(holders, locks, key));
    }
  }

  lemma EnvironmentStrayStep(w: World, c: Config, s: State, a: Action, key: string)
    requires Enabled(w, s, a) && a.Actor().None?
    ensures |Stray(w, Apply(w, c, s, a), key)| <= |Stray(w, s, key)| + Fault(w, c, s, a, key)
  {
    hide Holds, Matches, Apart;
    var s' := Apply(w, c, s, a);
    assert Holders(w, s', key) == Holders(w, s, key);
    if a.Tick? {
      LapseStray(Holders(w, s, key), s.locks, s.now + a.ms, key);
    }
  }

  /** Other steps of a request leave it where it was. */
  lemma QuietStray(w: World, c: Config, s: State, a: Action, key: string)
    requires Enabled(w, s, a) && a.Actor().Some? && !a.Acquire? && !a.Release?
    ensures |Stray(w, Apply(w, c, s, a), key)| <= |Stray(w, s, key)|
  {
    hide Matches, Apply, LockOf, Apart;
    WonStep(w, c, s, a);
    HoldersAfter(w, s, Apply(w, c, s, a), a.id, key);
    assert Holders(w, Apply(w, c, s, a), key) == Holders(w, s, key);
  }

  /** The strays grow by at most the step's faults. */
  lemma StrayStep(w: World, c: Config, s: State, a: Action, key: string)
    requires Sane(c, s) && Enabled(w, s, a)
    ensures |Stray(w, Apply(w, c, s, a), key)| <= |Stray(w, s, key)| + Fault(w, c, s, a, key)
  {
    hide Matches, Apply, LockOf, Stray;
    if a.Actor().None? {
      EnvironmentStrayStep(w, c, s, a, key);
    } else if a.Acquire? || a.Release? {
      WonStep(w, c, s, a);
      HoldersAfter(w, s, Apply(w, c, s, a), a.id, key);
      if a.Acquire? {
        AcquireStray(w, c, s, a.id, a.reachable, key);
      } else {
        assert PatientEnough(c, s.now, s.handlers[a.id]);
        ReleaseStray(w, c, s, a.id, a.reachable, key);
      }
    } else {
      QuietStray(w, c, s, a, key);
    }
  }

  /** Whoever takes a free lock owns it. */
  lemma TakerIsNotStray(before: set<nat>, after: set<nat>, locks: map<string, Lock>, taken: string, lock: Lock,
      key: string)
    requires taken !in locks && after == if taken == key then before + {lock.owner} else before
    ensures Apart(after, locks[taken := lock], key) <= Apart(before, locks, key)
  {
  }

  lemma AcquireStray(w: World, c: Config, s: State, id: nat, reachable: bool, key: string)
    requires Enabled(w, s, Acquire(id, reachable))
    requires var s' := Apply(w, c, s, Acquire(id, reachable));
             id in s'.handlers && id !in Holders(w, s, key)
             && Holders(w, s', key) == Holders(w, s, key) - {id} + if Holds(w, s'.handlers[id], key) then {id} else {}
    ensures |Stray(w, Apply(w, c, s, Acquire(id, reachable)), key)|
            <= |Stray(w, s, key)| + Fault(w, c, s, Acquire(id, reachable), key)
  {
    hide LockOf, Holders, Apply, Matches, Apart;
    var s', mine := Apply(w, c, s, Acquire(id, reachable)), LockOf(w, s.handlers[id]);
    var before, after := Holders(w, s, key), Holders(w, s', key);
    AcquireStep(w, c, s, id, reachable);
    assert before - {id} == before;
    if FailsOpen(c, reachable) && mine == key {
      JoinStray(before, after, s.locks, key, id);
    } else if FailsOpen(c, reachable) || mine in s.locks {
      assert after == before;
    } else {
      TakerIsNotStray(before, after, s.locks, mine, s'.locks[mine], key);
      SubsetSize(Stray(w, s', key), Stray(w, s, key));
    }
  }

  lemma JoinStray(before: set<nat>, after: set<nat>, locks: map<string, Lock>, key: string, id: nat)
    requires after <= before + {id}
    ensures |Apart(after, locks, key)| <= |Apart(before, locks, key)| + 1
  {
    AddOne(Apart(after, locks, key), Apart(before, locks, key), id);
  }

  /** A release may delete a lock that is not its own, but it also retires a holder. */
  lemma ReleaseStray(w: World, c: Config, s: State, id: nat, reachable: bool, key: string)
    requires Enabled(w, s, Release(id, reachable))
    requires LockOf(w, s.handlers[id]) == key <==> id in Holders(w, s, key)
    requires Holders(w, Apply(w, c, s, Release(id, reachable)), key) == Holders(w, s, key) - {id}
    ensures |Stray(w, Apply(w, c, s, Release(id, reachable)), key)| <= |Stray(w, s, key)|
  {
    hide LockOf, Holders, Apply;
    var s' := Apply(w, c, s, Release(id, reachable));
    ReleaseStep(w, c, s, id, reachable);
    if reachable && LockOf(w, s.handlers[id]) == key && key in s.locks {
      SwapOne(Holders(w, s, key), id, s.locks[key].owner);
      assert Stray(w, s', key) == Holders(w, s, key) - {id};
    } else {
      SubsetSize(Stray(w, s', key), Stray(w, s, key));
    }
  }

  lemma {:induction false} RunStrays(w: World, c: Config, s: State, run: seq<Action>, key: string)
    requires Sane(c, s) && Runnable(w, c, s, run)
    ensures Sane(c, After(w, c, s, run))
    ensures |Stray(w, After(w, c, s, run), key)| <= |Stray(w, s, key)| + Faults(w, c, s, run, key)
    decreases |run|
  {
    hide Sane, Enabled, Apply, Stray, Fault;
    if run != [] {
      StepStaysSane(w, c, s, run[0]);
      StrayStep(w, c, s, run[0], key);
      RunStrays(w, c, Apply(w, c, s, run[0]), run[1..], key);
    }
  }

  // ---------------------------------------------------------------- results

  /** At any point of any run, the requests between winning and releasing one lock
      number at most one more than the faults the run has had on that lock. */
  lemma HoldersAreBounded(w: World, c: Config, now: int, run: seq<Action>, key: string)
    requires Runnable(w, c, Start(now), run)
    ensures |Holders(w, After(w, c, Start(now), run), key)| <= 1 + Faults(w, c, Start(now), run, key)
  {
    var s := After(w, c, Start(now), run);
    RunStrays(w, c, Start(now), run, key);
    AddOne(Holders(w, s, key), Stray(w, s, key), if key in s.locks then s.locks[key].owner else 0);
  }

  /** So when every winner releases within the time to live and Redis always answers,
      the lock excludes. */
  lemma WinnersExclude(w: World, c: Config, now: int, run: seq<Action>, key: string, a: nat, b: nat)
    requires Runnable(w, c, Start(now), run) && Faults(w, c, Start(now), run, key) == 0
    requires a in Holders(w, After(w, c, Start(now), run), key) && b in Holders(w, After(w, c, Start(now), run), key)
    ensures a == b
  {
    HoldersAreBounded(w, c, now, run, key);
    if a != b {
      SubsetSize({a, b}, Holders(w, After(w, c, Start(now), run), key));
    }
  }

  /** A loser polls at most wait / poll times, rounded up, before it goes ahead. */
  lemma LosersPollBoundedly(w: World, c: Config, now: int, run: seq<Action>, id: nat)
    requires Runnable(w, c, Start(now), run) && id in After(w, c, Start(now), run).handlers
    ensures var polls := After(w, c, Start(now), run).handlers[id].polls;
            && (polls == 0 || (polls - 1) * c.pollMs < c.waitMs)
            && (0 < c.pollMs ==> polls <= if c.waitMs <= 0 then 0 else (c.waitMs + c.pollMs - 1) / c.pollMs)
  {
    RunStrays(w, c, Start(now), run, "");
    var h := After(w, c, Start(now), run).handlers[id];
    assert PatientEnough(c, After(w, c, Start(now), run).now, h);
    if 0 < c.pollMs && 0 < h.polls {
      FitsBefore(h.polls, c.pollMs, c.waitMs);
    }
  }

  lemma Scaled(a: int, b: int, d: nat)
    requires a <= b
    ensures a * d <= b * d
  {
  }

  lemma FitsBefore(n: nat, d: nat, x: int)
    requires 0 < d && 0 < n && (n - 1) * d < x
    ensures 0 < x && n <= (x + d - 1) / d
  {
    var q := (x + d - 1) / d;
    assert q * d + (x + d - 1) % d == x + d - 1;
    if q <= n - 1 {
      Scaled(q, n - 1, d);
    }
  }

  // ------------------------------------------------ what faults do, concretely

  lemma {:induction false} FaultsOfContinued(w: World, c: Config, s: State, run: seq<Action>, a: Action, key: string)
    requires Runnable(w, c, s, run) && Enabled(w, After(w, c, s, run), a)
    ensures Runnable(w, c, s, run + [a]) && After(w, c, s, run + [a]) == Apply(w, c, After(w, c, s, run), a)
    ensures Faults(w, c, s, run + [a], key) == Faults(w, c, s, run, key) + Fault(w, c, After(w, c, s, run), a, key)
    decreases |run|
  {
    hide Enabled, Apply, Fault;
    Continue(w, c, s, run, a);
    if run == [] {
      assert [a][1..] == [] && [] + [a] == [a];
    } else {
      assert (run + [a])[1..] == run[1..] + [a];
      FaultsOfContinued(w, c, Apply(w, c, s, run[0]), run[1..], a, key);
    }
  }

  lemma Then(w: World, c: Config, run: seq<Action>, a: Action, key: string) returns (run': seq<Action>)
    requires Runnable(w, c, Start(0), run) && Enabled(w, After(w, c, Start(0), run), a)
    ensures Runnable(w, c, Start(0), run')
    ensures After(w, c, Start(0), run') == Apply(w, c, After(w, c, Start(0), run), a)
    ensures Faults(w, c, Start(0), run', key)
            == Faults(w, c, Start(0), run, key) + Fault(w, c, After(w, c, Start(0), run), a, key)
  {
    FaultsOfContinued(w, c, Start(0), run, a, key);
    run' := run + [a];
  }

  /** `s` with one more request, in the given phase. */
  function With(s: State, id: nat, r: ChatRequest, phase: Phase): State {
    s.(handlers := s.handlers[id := Handler("t", r, "", s.now, Miss, 0, phase)])
  }

  /** Finding nothing cached, a new request gets as far as asking for the lock. */
  lemma Arrive(w: World, c: Config, run: seq<Action>, id: nat, r: ChatRequest, key: string) returns (run': seq<Action>)
    requires Runnable(w, c, Start(0), run) && id !in After(w, c, Start(0), run).handlers
    requires r in w.requests && !r.stream && !r.cacheBypass
    ensures Runnable(w, c, Start(0), run')
    ensures After(w, c, Start(0), run') == With(After(w, c, Start(0), run), id, r, Acquiring)
    ensures Faults(w, c, Start(0), run', key) == Faults(w, c, Start(0), run, key)
  {
    hide EntryKey, Runnable, After, Faults;
    var s := After(w, c, Start(0), run);
    run' := Then(w, c, run, Begin(id, "t", r, ""), key);
    assert After(w, c, Start(0), run') == With(s, id, r, ReadingExact);
    run' := Then(w, c, run', ReadExact(id, false), key);
    assert After(w, c, Start(0), run') == With(s, id, r, ReadingSemantic);
    run' := Then(w, c, run', ReadSemantic(id, None), key);
  }

  /** And takes it when it is free. */
  lemma Win(w: World, c: Config, run: seq<Action>, id: nat, r: ChatRequest) returns (run': seq<Action>)
    requires Runnable(w, c, Start(0), run) && 1 <= c.lockTtlSeconds
    requires r in w.requests && !r.stream && !r.cacheBypass
    requires id !in After(w, c, Start(0), run).handlers && LockKey(w.sha, r, "t") !in After(w, c, Start(0), run).locks
    ensures Runnable(w, c, Start(0), run')
    ensures var s, key := After(w, c, Start(0), run), LockKey(w.sha, r, "t");
            && After(w, c, Start(0), run')
               == With(s, id, r, Calling(Took)).(locks := s.locks[key := Lock(s.now + 1000 * c.lockTtlSeconds, id)])
            && Faults(w, c, Start(0), run', key) == Faults(w, c, Start(0), run, key)
  {
    hide LockKey, Runnable, After, Faults;
    var key := LockKey(w.sha, r, "t");
    run' := Arrive(w, c, run, id, r, key);
    run' := Then(w, c, run', Acquire(id, true), key);
  }

  lemma WinnerHolds(w: World, s: State, id: nat, r: ChatRequest, won: Won, locks: map<string, Lock>)
    requires won != NotWon && id !in s.handlers
    ensures Holders(w, With(s, id, r, Calling(won)).(locks := locks), LockKey(w.sha, r, "t"))
         == Holders(w, s, LockKey(w.sha, r, "t")) + {id}
  {
    hide LockKey;
    HoldersAfter(w, s, With(s, id, r, Calling(won)).(locks := locks), id, LockKey(w.sha, r, "t"));
  }

  /** The bound is met for every number of faults: winners that outlive their time to
      live pile up, one more each time it ends. */
  lemma {:induction false} SlowWinnersPileUp(w: World, c: Config, r: ChatRequest, n: nat) returns (run: seq<Action>)
    requires 1 <= c.lockTtlSeconds && r in w.requests && !r.stream && !r.cacheBypass
    ensures Runnable(w, c, Start(0), run)
    ensures var s, key := After(w, c, Start(0), run), LockKey(w.sha, r, "t");
            && Faults(w, c, Start(0), run, key) == n
            && |Holders(w, s, key)| == n + 1
            && (forall id: nat :: id in s.handlers <==> id <= n)
            && (forall id :: id in s.handlers ==> id in Holders(w, s, key) && s.handlers[id].phase == Calling(Took))
            && s.handlers[n].startedAt == s.now
            && s.locks == map[key := Lock(s.now + 1000 * c.lockTtlSeconds, n)]
  {
    var key := LockKey(w.sha, r, "t");
    hide LockKey, Runnable, After, Faults, Holders;
    run := [];
    NothingYet(w, c, key);
    if n != 0 {
      run := SlowWinnersPileUp(w, c, r, n - 1);
      var before := After(w, c, Start(0), run);
      run := Then(w, c, run, Tick(1000 * c.lockTtlSeconds), key);
      assert After(w, c, Start(0), run).locks == map[];
      SameHolders(w, before, After(w, c, Start(0), run), key);
    }
    var s := After(w, c, Start(0), run);
    assert |Holders(w, s, key)| == n && n !in Holders(w, s, key) by { NewcomersHoldNothing(w, s, n, key); }
    run := Win(w, c, run, n, r);
    WinnerHolds(w, s, n, r, Took, s.locks[key := Lock(s.now + 1000 * c.lockTtlSeconds, n)]);
  }

  lemma NothingYet(w: World, c: Config, key: string)
    ensures Runnable(w, c, Start(0), []) && After(w, c, Start(0), []) == Start(0)
    ensures Faults(w, c, Start(0), [], key) == 0 && Holders(w, Start(0), key) == {}
  {
  }

  lemma HoldersHold(w: World, s: State, id: nat, key: string)
    requires id in s.handlers
    ensures id in Holders(w, s, key) <==> Holds(w, s.handlers[id], key)
  {
  }

  lemma SameHolders(w: World, s: State, s': State, key: string)
    requires s'.handlers == s.handlers
    ensures Holders(w, s', key) == Holders(w, s, key)
  {
  }

  lemma NewcomersHoldNothing(w: World, s: State, id: nat, key: string)
    requires id !in s.handlers
    ensures id !in Holders(w, s, key)
  {
  }

  /** One late release is enough to let two punctual winners overlap: the lock it
      deletes is another's, and the next request takes it. */
  lemma LateReleaseFreesAnothersLock(w: World, c: Config, r: ChatRequest) returns (run: seq<Action>)
    requires 1 <= c.lockTtlSeconds && r in w.requests && !r.stream && !r.cacheBypass
    ensures Runnable(w, c, Start(0), run)
    ensures var s, key := After(w, c, Start(0), run), LockKey(w.sha, r, "t");
            && Faults(w, c, Start(0), run, key) == 1
            && 1 in Holders(w, s, key) && 2 in Holders(w, s, key)
            && s.handlers[1].startedAt == s.now
            && key in s.locks && s.locks[key].owner == 2
  {
    var key := LockKey(w.sha, r, "t");
    hide LockKey, Runnable, After, Faults, Holders;
    run := SlowWinnersPileUp(w, c, r, 1);
    HoldersHold(w, After(w, c, Start(0), run), 0, key);
    HoldersHold(w, After(w, c, Start(0), run), 1, key);
    run := Then(w, c, run, Fail(0), key);
    run := Then(w, c, run, Release(0, true), key);
    var s := After(w, c, Start(0), run);
    run := Win(w, c, run, 2, r);
    WinnerHolds(w, s, 2, r, Took, s.locks[key := Lock(s.now + 1000 * c.lockTtlSeconds, 2)]);
    HoldersHold(w, s, 1, key);
  }
}
