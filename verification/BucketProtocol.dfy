/** Any number of gateway processes sharing one tenant's bucket through
    WATCH / HMGET / MULTI-EXEC, and refusals written outside the transaction.
    A run is a sequence of actions; each action is one Redis command of one call, which
    may fail before or after Redis carried it out. */
module BucketProtocol {
  import opened Wrappers
  import opened TokenBucket
  import opened BucketLog

  datatype Phase =
    | Ready                                       // about to WATCH
    | Watching(watched: nat)                      // about to HMGET
    | Committing(watched: nat, newTokens: real)   // about to EXEC
    | Refusing(readAt: nat, tokens: real)         // unwatched, about to write the refusal
    | Finished(allowed: bool, retryAfter: real)
    | Failed(charged: bool)                       // a command raised

  datatype Client = Client(call: Call, triesLeft: nat, phase: Phase)

  /** `version` counts modifications of the key; WATCH remembers it and EXEC
      succeeds only when it has not moved. `log` records the changes made. */
  datatype System = System(stored: Stored, version: nat, clients: map<nat, Client>, log: seq<Entry>)

  datatype Action =
    | Begin(id: nat, call: Call)
    | Watch(id: nat)
    | Read(id: nat)
    | Exec(id: nat)
    | WriteRefusal(id: nat)
    | Break(id: nat, applied: bool)
    | Expire(atMs: int)

  predicate Enabled(p: Limits, s: System, a: Action)
    requires p.rate != 0.0
  {
    match a
    case Begin(id, call) => id !in s.clients && 0.0 <= call.cost
    case Watch(id) => id in s.clients && s.clients[id].phase.Ready?
    case Read(id) => id in s.clients && s.clients[id].phase.Watching?
    case Exec(id) => id in s.clients && s.clients[id].phase.Committing?
    case WriteRefusal(id) => id in s.clients && s.clients[id].phase.Refusing?
    case Break(id, _) => id in s.clients && !Done(s.clients[id])
    case Expire(atMs) => s.stored.Some? && s.stored.value.lastRefillMs + TtlMs(p) <= atMs
  }

  predicate Done(c: Client) { c.phase.Finished? || c.phase.Failed? }

  function Move(s: System, id: nat, phase: Phase): System
    requires id in s.clients
  {
    s.(clients := s.clients[id := s.clients[id].(phase := phase)])
  }

  function Write(s: System, b: Stored, e: Entry): System {
    s.(stored := b, version := s.version + 1, log := s.log + [e])
  }

  /** A refusal is late when the key changed after it was read. */
  function RefusalEntry(s: System, id: nat): Entry
    requires id in s.clients && s.clients[id].phase.Refusing?
  {
    var c := s.clients[id];
    if c.phase.readAt == s.version then Deny(id, c.call) else StaleDeny(id, c.call, c.phase.tokens)
  }

  /** EXEC goes through, and the call ends in `phase`. */
  function Commit(s: System, id: nat, phase: Phase): System
    requires id in s.clients && s.clients[id].phase.Committing?
  {
    var c := s.clients[id];
    Move(Write(s, Some(Bucket(c.phase.newTokens, c.call.nowMs)), Admit(id, c.call)), id, phase)
  }

  /** The refusal is written, and the call ends in `phase`. */
  function Refuse(s: System, id: nat, phase: Phase): System
    requires id in s.clients && s.clients[id].phase.Refusing?
  {
    var c := s.clients[id];
    Move(Write(s, Some(Bucket(c.phase.tokens, c.call.nowMs)), RefusalEntry(s, id)), id, phase)
  }

  function Apply(p: Limits, s: System, a: Action): System
    requires p.rate != 0.0 && Enabled(p, s, a)
  {
    match a
    case Begin(id, call) => s.(clients := s.clients[id := Client(call, MAX_TRIES, Ready)])
    case Watch(id) => Move(s, id, Watching(s.version))
    case Read(id) =>
      var c := s.clients[id];
      var tokens := Refilled(p, s.stored, c.call.nowMs);
      if tokens < c.call.cost
      then Move(s, id, Refusing(s.version, tokens))
      else Move(s, id, Committing(c.phase.watched, tokens - c.call.cost))
    case Exec(id) =>
      var c := s.clients[id];
      if c.phase.watched == s.version then
        Commit(s, id, Finished(true, 0.0))
      else if c.triesLeft <= 1 then
        Move(s, id, Finished(false, 1.0 / p.rate))
      else
        s.(clients := s.clients[id := Client(c.call, c.triesLeft - 1, Ready)])
    case WriteRefusal(id) =>
      var c := s.clients[id];
      Refuse(s, id, Finished(false, (c.call.cost - c.phase.tokens) / p.rate))
    case Break(id, applied) =>
      var c := s.clients[id];
      if applied && c.phase.Committing? && c.phase.watched == s.version then Commit(s, id, Failed(true))
      else if applied && c.phase.Refusing? then Refuse(s, id, Failed(false))
      else Move(s, id, Failed(false))
    case Expire(atMs) => Write(s, None, Expired(atMs))
  }

  predicate Runnable(p: Limits, s: System, run: seq<Action>)
    requires p.rate != 0.0
    decreases |run|
  {
    run != [] ==> Enabled(p, s, run[0]) && Runnable(p, Apply(p, s, run[0]), run[1..])
  }

  function After(p: Limits, s: System, run: seq<Action>): System
    requires p.rate != 0.0 && Runnable(p, s, run)
    decreases |run|
  {
    if run == [] then s else After(p, Apply(p, s, run[0]), run[1..])
  }

  function Start(stored: Stored): System { System(stored, 0, map[], []) }

  // ------------------------------------------------------------- invariant

  /** How many times `id` has been charged. */
  function Charges(log: seq<Entry>, id: nat): nat {
    if log == [] then 0 else
    Charges(log[..|log| - 1], id) + (if Last(log).Admit? && Last(log).client == id then 1 else 0)
  }

  function Last(log: seq<Entry>): Entry
    requires log != []
  {
    log[|log| - 1]
  }

  ghost predicate ClientOk(p: Limits, s: System, c: Client)
    requires p.rate != 0.0
  {
    && 0.0 <= c.call.cost
    && c.triesLeft <= MAX_TRIES
    && (match c.phase
        case Ready => 1 <= c.triesLeft
        case Watching(watched) => 1 <= c.triesLeft && watched <= s.version
        case Committing(watched, newTokens) =>
          && 1 <= c.triesLeft && watched <= s.version
          && (watched == s.version ==>
                Decide(p, s.stored, c.call) == Verdict(true, 0.0, Bucket(newTokens, c.call.nowMs)))
        case Refusing(readAt, tokens) =>
          && readAt <= s.version && 0.0 <= tokens < c.call.cost && tokens <= p.capacity
          && (readAt == s.version ==> tokens == Refilled(p, s.stored, c.call.nowMs))
        case _ => true)
  }

  /** The stored bucket is what the sequential bucket reaches by serving the logged
      calls in order, each of them is decided as it would be there, and a call is
      charged once if it was told yes or failed on a commit that went through, and
      never otherwise. */
  ghost predicate Linearized(p: Limits, init: Stored, s: System)
    requires p.rate != 0.0
  {
    && s.stored == Replay(p, init, s.log)
    && Legal(p, init, s.log)
    && (forall id :: id in s.clients ==>
          Charges(s.log, id) == if WasCharged(s.clients[id]) then 1 else 0)
    && (forall id: nat {:trigger Charges(s.log, id)} :: id !in s.clients ==> Charges(s.log, id) == 0)
  }

  ghost predicate Inv(p: Limits, init: Stored, s: System)
    requires p.rate != 0.0
  {
    && Linearized(p, init, s)
    && InRange(p, s.stored)
    && forall id :: id in s.clients ==> ClientOk(p, s, s.clients[id])
  }

  lemma LogGrows(p: Limits, init: Stored, s: System, s': System, e: Entry)
    requires p.Valid() && Inv(p, init, s)
    requires s'.log == s.log + [e] && LegalEntry(p, s.stored, e) && s'.stored == ApplyEntry(p, s.stored, e)
    ensures s'.stored == Replay(p, init, s'.log) && Legal(p, init, s'.log) && InRange(p, s'.stored)
    ensures forall id: nat {:trigger Charges(s'.log, id)} ::
              Charges(s'.log, id) == Charges(s.log, id) + if e.Admit? && e.client == id then 1 else 0
  {
    Append(p, init, s.log, e);
    EntryBound(p, s.stored, e);
    assert s'.log[..|s'.log| - 1] == s.log;
  }

  /** Commands that only move one client's own program counter. */
  lemma LocalStepKeepsInv(p: Limits, init: Stored, s: System, id: nat, c: Client)
    requires p.Valid() && Inv(p, init, s) && ClientOk(p, s, c)
    requires !WasCharged(c) && (id in s.clients ==> !WasCharged(s.clients[id]))
    ensures Inv(p, init, s.(clients := s.clients[id := c]))
  {
    var s' := s.(clients := s.clients[id := c]);
    forall k | k in s'.clients
      ensures ClientOk(p, s', s'.clients[k])
    {
      assert ClientOk(p, s, if k == id then c else s.clients[k]);
    }
  }

  /** Told yes, or failed on a commit that went through. */
  predicate WasCharged(c: Client) { if c.phase.Finished? then c.phase.allowed else c.phase.Failed? && c.phase.charged }

  /** A write of the key makes every remembered version old. */
  lemma WriteKeepsClients(p: Limits, s: System, b: Stored, e: Entry)
    requires p.rate != 0.0
    requires forall id :: id in s.clients ==> ClientOk(p, s, s.clients[id])
    ensures forall id :: id in s.clients ==> ClientOk(p, Write(s, b, e), s.clients[id])
  {
    hide Decide, Refilled;
  }

  /** The writing client is done, and was charged exactly if the write is its admission. */
  lemma WriteKeepsInv(p: Limits, init: Stored, s: System, id: nat, b: Stored, e: Entry, phase: Phase)
    requires p.Valid() && Inv(p, init, s) && id in s.clients && !WasCharged(s.clients[id])
    requires LegalEntry(p, s.stored, e) && b == ApplyEntry(p, s.stored, e)
    requires Done(s.clients[id].(phase := phase))
    requires if WasCharged(s.clients[id].(phase := phase)) then e.Admit? && e.client == id else !e.Admit?
    ensures Inv(p, init, Move(Write(s, b, e), id, phase))
  {
    hide Decide, Refilled, LegalEntry, ApplyEntry, Replay, Legal, Charges;
    assert ClientOk(p, s, s.clients[id]);
    WriteKeepsClients(p, s, b, e);
    LogGrows(p, init, s, Write(s, b, e), e);
    var s' := Move(Write(s, b, e), id, phase);
    forall k | k in s'.clients
      ensures ClientOk(p, s', s'.clients[k])
    {
      assert k != id ==> ClientOk(p, Write(s, b, e), s.clients[k]);
    }
  }

  lemma CommitKeepsInv(p: Limits, init: Stored, s: System, id: nat, phase: Phase)
    requires p.Valid() && Inv(p, init, s) && id in s.clients && s.clients[id].phase.Committing?
    requires s.clients[id].phase.watched == s.version && phase in {Finished(true, 0.0), Failed(true)}
    ensures Inv(p, init, Commit(s, id, phase))
  {
    var c := s.clients[id];
    InvGivesClient(p, init, s, id);
    hide Inv;
    WriteKeepsInv(p, init, s, id, Some(Bucket(c.phase.newTokens, c.call.nowMs)), Admit(id, c.call), phase);
  }

  lemma ExecKeepsInv(p: Limits, init: Stored, s: System, id: nat)
    requires p.Valid() && Inv(p, init, s) && Enabled(p, s, Exec(id))
    ensures Inv(p, init, Apply(p, s, Exec(id)))
  {
    var c := s.clients[id];
    InvGivesClient(p, init, s, id);
    if c.phase.watched == s.version {
      CommitKeepsInv(p, init, s, id, Finished(true, 0.0));
    } else {
      LocalStepKeepsInv(p, init, s, id, Apply(p, s, Exec(id)).clients[id]);
    }
  }

  lemma RefusalIsLegal(p: Limits, s: System, id: nat)
    requires p.Valid() && id in s.clients && s.clients[id].phase.Refusing? && ClientOk(p, s, s.clients[id])
    ensures LegalEntry(p, s.stored, RefusalEntry(s, id))
    ensures ApplyEntry(p, s.stored, RefusalEntry(s, id))
         == Some(Bucket(s.clients[id].phase.tokens, s.clients[id].call.nowMs))
  {
    hide Refilled;
  }

  lemma InvGivesClient(p: Limits, init: Stored, s: System, id: nat)
    requires p.rate != 0.0 && Inv(p, init, s) && id in s.clients
    ensures ClientOk(p, s, s.clients[id])
  {
  }

  lemma RefusalKeepsInv(p: Limits, init: Stored, s: System, id: nat, phase: Phase)
    requires p.Valid() && Inv(p, init, s) && id in s.clients && s.clients[id].phase.Refusing?
    requires phase == Failed(false) || (phase.Finished? && !phase.allowed)
    ensures Inv(p, init, Refuse(s, id, phase))
  {
    hide Inv, ClientOk, Decide, Refilled, LegalEntry, ApplyEntry;
    var c := s.clients[id];
    InvGivesClient(p, init, s, id);
    RefusalIsLegal(p, s, id);
    WriteKeepsInv(p, init, s, id, Some(Bucket(c.phase.tokens, c.call.nowMs)), RefusalEntry(s, id), phase);
  }

  lemma BreakKeepsInv(p: Limits, init: Stored, s: System, id: nat, applied: bool)
    requires p.Valid() && Inv(p, init, s) && Enabled(p, s, Break(id, applied))
    ensures Inv(p, init, Apply(p, s, Break(id, applied)))
  {
    var c := s.clients[id];
    InvGivesClient(p, init, s, id);
    hide Inv, Decide, Refilled;
    if applied && c.phase.Committing? && c.phase.watched == s.version {
      CommitKeepsInv(p, init, s, id, Failed(true));
    } else if applied && c.phase.Refusing? {
      RefusalKeepsInv(p, init, s, id, Failed(false));
    } else {
      LocalStepKeepsInv(p, init, s, id, c.(phase := Failed(false)));
    }
  }

  lemma ExpiryKeepsInv(p: Limits, init: Stored, s: System, atMs: int)
    requires p.Valid() && Inv(p, init, s) && Enabled(p, s, Expire(atMs))
    ensures Inv(p, init, Apply(p, s, Expire(atMs)))
  {
    WriteKeepsClients(p, s, None, Expired(atMs));
    LogGrows(p, init, s, Apply(p, s, Expire(atMs)), Expired(atMs));
  }

  lemma StepKeepsInv(p: Limits, init: Stored, s: System, a: Action)
    requires p.Valid() && Inv(p, init, s) && Enabled(p, s, a)
    ensures Inv(p, init, Apply(p, s, a))
  {
    match a
    case Begin(id, call) =>
      LocalStepKeepsInv(p, init, s, id, Client(call, MAX_TRIES, Ready));
    case Watch(id) =>
      assert ClientOk(p, s, s.clients[id]);
      LocalStepKeepsInv(p, init, s, id, s.clients[id].(phase := Watching(s.version)));
    case Read(id) =>
      assert ClientOk(p, s, s.clients[id]);
      DecideStaysInRange(p, s.stored, s.clients[id].call);
      LocalStepKeepsInv(p, init, s, id, Apply(p, s, a).clients[id]);
    case Exec(id) => ExecKeepsInv(p, init, s, id);
    case WriteRefusal(id) =>
      RefusalKeepsInv(p, init, s, id, Apply(p, s, a).clients[id].phase);
    case Break(id, applied) => BreakKeepsInv(p, init, s, id, applied);
    case Expire(atMs) => ExpiryKeepsInv(p, init, s, atMs);
  }

  lemma {:induction false} RunKeepsInv(p: Limits, init: Stored, s: System, run: seq<Action>)
    requires p.Valid() && Inv(p, init, s) && Runnable(p, s, run)
    ensures Inv(p, init, After(p, s, run))
    decreases |run|
  {
    if run != [] {
      StepKeepsInv(p, init, s, run[0]);
      RunKeepsInv(p, init, Apply(p, s, run[0]), run[1..]);
    }
  }

  // --------------------------------------------------------------- results

  /** Every interleaving of any number of calls is a history of the sequential bucket. */
  lemma Linearizable(p: Limits, init: Stored, run: seq<Action>)
    requires p.Valid() && InRange(p, init) && Runnable(p, Start(init), run)
    ensures Linearized(p, init, After(p, Start(init), run))
    ensures InRange(p, After(p, Start(init), run).stored)
  {
    RunKeepsInv(p, init, Start(init), run);
  }

  /** A successful EXEC, and a refusal written before anything changed, do to the value
      stored at that instant what the sequential bucket does, and answer the same. */
  lemma WritesActSequentially(p: Limits, init: Stored, s: System, id: nat)
    requires p.Valid() && Inv(p, init, s)
    ensures Enabled(p, s, Exec(id)) && Apply(p, s, Exec(id)).version != s.version ==>
              var v, s' := Decide(p, s.stored, s.clients[id].call), Apply(p, s, Exec(id));
              v.allowed && s'.stored == Some(v.bucket) && s'.clients[id].phase == Finished(true, 0.0)
    ensures Enabled(p, s, WriteRefusal(id)) && s.clients[id].phase.readAt == s.version ==>
              var v, s' := Decide(p, s.stored, s.clients[id].call), Apply(p, s, WriteRefusal(id));
              !v.allowed && s'.stored == Some(v.bucket) && s'.clients[id].phase == Finished(false, v.retryAfter)
  {
    if id in s.clients {
      assert ClientOk(p, s, s.clients[id]);
    }
  }

  /** What any run may admit. */
  lemma RunAdmissionBound(p: Limits, init: Stored, run: seq<Action>)
    requires p.Valid() && InRange(p, init) && Runnable(p, Start(init), run)
    ensures var s := After(p, Start(init), run);
            Admitted(s.log) + Tokens(p, s.stored)
              <= Tokens(p, init) + Gain(p, ForwardMs(p, init, s.log)) + StaleCredit(s.log)
  {
    Linearizable(p, init, run);
    AdmissionBound(p, init, After(p, Start(init), run).log);
  }

  /** And the textbook bound in every steady window of any run. */
  lemma RunWindowBound(p: Limits, init: Stored, run: seq<Action>, i: nat, j: nat)
    requires p.Valid() && InRange(p, init) && Runnable(p, Start(init), run)
    requires var log := After(p, Start(init), run).log;
             i < j <= |log| && Steady(TimeOf(log[i]), log[i..j])
    ensures var log := After(p, Start(init), run).log;
            Admitted(log[i..j]) <= p.capacity + Gain(p, TimeOf(log[j - 1]) - TimeOf(log[i]))
  {
    Linearizable(p, init, run);
    WindowBound(p, init, After(p, Start(init), run).log, i, j);
  }

  /** Commands a call may still issue: three per try, and a refusal's write. */
  function StepsLeft(c: Client): nat {
    match c.phase
    case Ready => 3 * c.triesLeft + 1
    case Watching(_) => 3 * c.triesLeft
    case Committing(_, _) => if c.triesLeft == 0 then 1 else 3 * c.triesLeft - 1
    case Refusing(_, _) => 1
    case _ => 0
  }

  /** Every call answers within sixteen of its own steps, whatever the others do. */
  lemma CallsTerminate(p: Limits, init: Stored, s: System, a: Action, id: nat)
    requires p.Valid() && Inv(p, init, s) && Enabled(p, s, a) && id in s.clients
    ensures id in Apply(p, s, a).clients
    ensures StepsLeft(s.clients[id]) <= 3 * MAX_TRIES + 1
    ensures var c := Apply(p, s, a).clients[id];
            if a.Expire? || a.id != id then c == s.clients[id] else StepsLeft(c) < StepsLeft(s.clients[id])
  {
    assert ClientOk(p, s, s.clients[id]);
  }

  // ------------------------------------------------- which histories happen

  lemma {:induction false} Continue(p: Limits, s: System, run: seq<Action>, a: Action)
    requires p.rate != 0.0 && Runnable(p, s, run) && Enabled(p, After(p, s, run), a)
    ensures Runnable(p, s, run + [a])
    ensures After(p, s, run + [a]) == Apply(p, After(p, s, run), a)
    decreases |run|
  {
    if run == [] {
      assert [a][1..] == [];
    } else {
      assert (run + [a])[1..] == run[1..] + [a];
      Continue(p, Apply(p, s, run[0]), run[1..], a);
    }
  }

  /** Extends a run by the three steps of a call that meets no contention. */
  lemma Unopposed(p: Limits, init: Stored, run: seq<Action>, id: nat, call: Call) returns (run': seq<Action>)
    requires p.Valid() && Runnable(p, Start(init), run)
    requires var s := After(p, Start(init), run);
             id !in s.clients && 0.0 <= call.cost <= Refilled(p, s.stored, call.nowMs)
    ensures Runnable(p, Start(init), run')
    ensures var s, s' := After(p, Start(init), run), After(p, Start(init), run');
            && s'.clients.Keys == s.clients.Keys + {id}
            && (forall k :: k in s.clients ==> s'.clients[k] == s.clients[k])
            && s'.version == s.version + 1
            && s'.stored == Some(Decide(p, s.stored, call).bucket)
            && s'.log == s.log + [Admit(id, call)]
  {
    Continue(p, Start(init), run, Begin(id, call));
    run' := run + [Begin(id, call)];
    Continue(p, Start(init), run', Watch(id));
    run' := run' + [Watch(id)];
    Continue(p, Start(init), run', Read(id));
    run' := run' + [Read(id)];
    Continue(p, Start(init), run', Exec(id));
    run' := run' + [Exec(id)];
  }

  /** The same for a refused call. */
  lemma UnopposedRefusal(p: Limits, init: Stored, run: seq<Action>, id: nat, call: Call) returns (run': seq<Action>)
    requires p.Valid() && Runnable(p, Start(init), run)
    requires var s := After(p, Start(init), run);
             id !in s.clients && 0.0 <= call.cost && Refilled(p, s.stored, call.nowMs) < call.cost
    ensures Runnable(p, Start(init), run')
    ensures var s, s' := After(p, Start(init), run), After(p, Start(init), run');
            && s'.clients.Keys == s.clients.Keys + {id}
            && s'.stored == Some(Decide(p, s.stored, call).bucket)
            && s'.log == s.log + [Deny(id, call)]
  {
    Continue(p, Start(init), run, Begin(id, call));
    run' := run + [Begin(id, call)];
    Continue(p, Start(init), run', Watch(id));
    run' := run' + [Watch(id)];
    Continue(p, Start(init), run', Read(id));
    run' := run' + [Read(id)];
    Continue(p, Start(init), run', WriteRefusal(id));
    run' := run' + [WriteRefusal(id)];
  }

  function Callers(log: seq<Entry>): set<nat> {
    if log == [] then {} else Callers(log[..|log| - 1]) + if Last(log).Expired? then {} else {Last(log).client}
  }

  /** Nobody calls twice, and no refusal is late. */
  predicate Serial(log: seq<Entry>) {
    log != [] ==>
      && Serial(log[..|log| - 1]) && !Last(log).StaleDeny?
      && (Last(log).Expired? || Last(log).client !in Callers(log[..|log| - 1]))
  }

  /** Conversely to Linearizable, every history of the sequential bucket in which each
      client calls once is the history of some run. */
  lemma {:induction false} SerialHistoriesHappen(p: Limits, init: Stored, log: seq<Entry>) returns (run: seq<Action>)
    requires p.Valid() && Legal(p, init, log) && Serial(log)
    ensures Runnable(p, Start(init), run)
    ensures var s := After(p, Start(init), run);
            s.log == log && s.stored == Replay(p, init, log) && s.clients.Keys == Callers(log)
    decreases |log|
  {
    hide Runnable, After, Decide, Refilled;
    if log == [] {
      run := [];
      NothingYet(p, init);
    } else {
      var before, e := log[..|log| - 1], log[|log| - 1];
      assert log == before + [e];
      Append(p, init, before, e);
      run := SerialHistoriesHappen(p, init, before);
      run := OneMoreEntry(p, init, run, e);
    }
  }

  lemma NothingYet(p: Limits, init: Stored)
    requires p.rate != 0.0
    ensures Runnable(p, Start(init), []) && After(p, Start(init), []) == Start(init)
  {
  }

  lemma OneMoreEntry(p: Limits, init: Stored, run: seq<Action>, e: Entry) returns (run': seq<Action>)
    requires p.Valid() && Runnable(p, Start(init), run) && !e.StaleDeny?
    requires var s := After(p, Start(init), run);
             LegalEntry(p, s.stored, e) && (e.Expired? || e.client !in s.clients)
    ensures Runnable(p, Start(init), run')
    ensures var s, s' := After(p, Start(init), run), After(p, Start(init), run');
            && s'.log == s.log + [e] && s'.stored == ApplyEntry(p, s.stored, e)
            && s'.clients.Keys == s.clients.Keys + if e.Expired? then {} else {e.client}
  {
    match e
    case Admit(id, call) => run' := Unopposed(p, init, run, id, call);
    case Deny(id, call) => run' := UnopposedRefusal(p, init, run, id, call);
    case Expired(atMs) =>
      Continue(p, Start(init), run, Expire(atMs));
      run' := run + [Expire(atMs)];
  }

  // -------------------------------------------- where the plain bound fails

  /** Every call reads and writes undisturbed, no refusal is late, and still two units
      are admitted at one instant from a bucket of 1: the refusal in between was
      computed with a clock one second behind. */
  lemma BackwardsClockBreaksPlainBoundInRuns() returns (run: seq<Action>)
    ensures var p := Limits(1.0, 1.0);
            && Runnable(p, Start(None), run)
            && var log := After(p, Start(None), run).log;
               && log == [Admit(0, Call(1000, 1.0)), Deny(1, Call(0, 1.0)), Admit(2, Call(1000, 1.0))]
               && StaleCredit(log) == 0.0
               && Admitted(log) > p.capacity + Gain(p, 1000 - 1000)
  {
    var log := [Admit(0, Call(1000, 1.0)), Deny(1, Call(0, 1.0)), Admit(2, Call(1000, 1.0))];
    assert log[..2] == [log[0], log[1]] && log[..2][..1] == [log[0]] && [log[0]][..0] == [];
    assert Callers([]) == {} && Callers([log[0]]) == {0};
    assert Callers(log[..2]) == {0} + {1};
    assert Serial([]) && Serial([log[0]]) && Serial(log[..2]);
    BackwardsClockBreaksPlainBound();
    run := SerialHistoriesHappen(Limits(1.0, 1.0), None, log);
  }

  /** A call that read the bucket at 9/10 and has yet to write its refusal. */
  lemma StalledRefusal() returns (run: seq<Action>)
    ensures var p, init := Limits(1.0, 1.0), Some(Bucket(0.9, 0));
            && Runnable(p, Start(init), run)
            && After(p, Start(init), run)
               == System(init, 0, map[0 := Client(Call(0, 1.0), MAX_TRIES, Refusing(0, 0.9))], [])
  {
    var p, s0 := Limits(1.0, 1.0), Start(Some(Bucket(0.9, 0)));
    Continue(p, s0, [], Begin(0, Call(0, 1.0)));
    run := [Begin(0, Call(0, 1.0))];
    assert [] + run == run;
    Continue(p, s0, run, Watch(0));
    run := run + [Watch(0)];
    Continue(p, s0, run, Read(0));
    run := run + [Read(0)];
  }

  /** The correction term is needed: with monotone clocks, a refusal that was read at
      balance 9/10 and written after another call had emptied the bucket lets a third
      call in, 2 units admitted within 100 ms from a bucket of 1 refilled at 1 per second. */
  lemma LateRefusalBreaksPlainBound() returns (run: seq<Action>)
    ensures var p := Limits(1.0, 1.0);
            var init := Some(Bucket(0.9, 0));
            && Runnable(p, Start(init), run)
            && var log := After(p, Start(init), run).log;
               && log == [Admit(1, Call(100, 1.0)), StaleDeny(0, Call(0, 1.0), 0.9), Admit(2, Call(100, 1.0))]
               && Admitted(log) == 2.0 > p.capacity + Gain(p, 100)
  {
    var p := Limits(1.0, 1.0);
    var init := Some(Bucket(0.9, 0));
    var s0 := Start(init);
    run := StalledRefusal();
    run := Unopposed(p, init, run, 1, Call(100, 1.0));
    Continue(p, s0, run, WriteRefusal(0));
    run := run + [WriteRefusal(0)];
    run := Unopposed(p, init, run, 2, Call(100, 1.0));
    var log := After(p, s0, run).log;
    assert log[1..] == [StaleDeny(0, Call(0, 1.0), 0.9), Admit(2, Call(100, 1.0))];
    assert log[1..][1..] == [Admit(2, Call(100, 1.0))];
    assert Admitted([Admit(2, Call(100, 1.0))]) == 1.0 && Admitted(log[1..]) == 1.0;
  }
}
