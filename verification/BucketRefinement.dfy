/** RateLimitService's retry loop is a client of the shared bucket: whatever the other
    clients do between its commands, and whichever of them fails, its answer, its
    charge and the key it leaves are those of a run of the protocol. */
module BucketRefinement {
  import opened Wrappers
  import opened TokenBucket
  import opened BucketProtocol
  import opened RateLimiter

  /** What the others attempt during one try: between WATCH and HMGET, and between HMGET
      and the try's own write. */
  datatype Gap = Gap(beforeRead: seq<Action>, afterRead: seq<Action>)

  /** A run in the making: the actions so far and where they lead. */
  datatype Trace = Trace(actions: seq<Action>, state: System)

  ghost predicate IsRun(p: Limits, init: Stored, t: Trace)
    requires p.rate != 0.0
  {
    Runnable(p, Start(init), t.actions) && After(p, Start(init), t.actions) == t.state
  }

  /** Does what is possible, and leaves out what is not. */
  function Step(p: Limits, t: Trace, a: Action): Trace
    requires p.rate != 0.0
  {
    if Enabled(p, t.state, a) then Trace(t.actions + [a], Apply(p, t.state, a)) else t
  }

  lemma StepIsARun(p: Limits, init: Stored, t: Trace, a: Action)
    requires p.rate != 0.0 && IsRun(p, init, t)
    ensures IsRun(p, init, Step(p, t, a))
  {
    hide Runnable, After, Apply;
    if Enabled(p, t.state, a) {
      Continue(p, Start(init), t.actions, a);
    }
  }

  // -------------------------------------------------------------- the others

  predicate Foreign(a: Action, id: nat) { a.Expire? || a.id != id }

  /** The others take those of their steps that are possible. */
  function Others(p: Limits, t: Trace, actions: seq<Action>, id: nat): (t': Trace)
    requires p.rate != 0.0
    ensures t.actions <= t'.actions
    decreases |actions|
  {
    if actions == [] then t
    else Others(p, if Foreign(actions[0], id) then Step(p, t, actions[0]) else t, actions[1..], id)
  }

  /** No sequence of steps the others could take is left out of account. */
  lemma {:induction false} OthersMayDoAnything(p: Limits, t: Trace, actions: seq<Action>, id: nat)
    requires p.rate != 0.0 && Runnable(p, t.state, actions) && forall a :: a in actions ==> Foreign(a, id)
    ensures Others(p, t, actions, id) == Trace(t.actions + actions, After(p, t.state, actions))
    decreases |actions|
  {
    hide Enabled, Apply, Foreign;
    if actions == [] {
      assert t.actions + actions == t.actions;
    } else {
      OthersMayDoAnything(p, Step(p, t, actions[0]), actions[1..], id);
      assert t.actions + [actions[0]] + actions[1..] == t.actions + actions;
    }
  }

  lemma {:induction false} OthersIsARun(p: Limits, init: Stored, t: Trace, actions: seq<Action>, id: nat)
    requires p.rate != 0.0 && IsRun(p, init, t)
    ensures IsRun(p, init, Others(p, t, actions, id))
    decreases |actions|
  {
    hide IsRun, Step;
    if actions != [] {
      StepIsARun(p, init, t, actions[0]);
      OthersIsARun(p, init, if Foreign(actions[0], id) then Step(p, t, actions[0]) else t, actions[1..], id);
    }
  }

  /** What the others' steps from `s` to `s'` are to the call: a rival write or none. */
  function Seen(s: System, s': System): Option<Stored> {
    if s'.version == s.version then None else Some(s'.stored)
  }

  ghost predicate Undisturbed(s: System, s': System, id: nat)
    requires id in s.clients
  {
    && id in s'.clients && s'.clients[id] == s.clients[id] && s.version <= s'.version
    && s'.stored == Overwritten(s.stored, Seen(s, s'))
  }

  lemma ForeignStep(p: Limits, s: System, a: Action, id: nat)
    requires p.rate != 0.0 && id in s.clients && Enabled(p, s, a) && Foreign(a, id)
    ensures Undisturbed(s, Apply(p, s, a), id)
  {
    hide Decide, Refilled;
  }

  lemma {:induction false} OthersLeaveTheCallAlone(p: Limits, t: Trace, actions: seq<Action>, id: nat)
    requires p.rate != 0.0 && id in t.state.clients
    ensures Undisturbed(t.state, Others(p, t, actions, id).state, id)
    decreases |actions|
  {
    hide Enabled, Apply, Foreign;
    if actions != [] {
      var a := actions[0];
      if Foreign(a, id) && Enabled(p, t.state, a) {
        ForeignStep(p, t.state, a, id);
      }
      OthersLeaveTheCallAlone(p, if Foreign(a, id) then Step(p, t, a) else t, actions[1..], id);
    }
  }

  // ---------------------------------------------------------------- the call

  /** A try up to its HMGET. */
  function ToRead(p: Limits, t: Trace, id: nat, gap: Gap): Trace
    requires p.rate != 0.0
  {
    Others(p, Step(p, t, Watch(id)), gap.beforeRead, id)
  }

  /** The first half of a try: WATCH and HMGET, or the failure that ends it. */
  function Reading(p: Limits, t: Trace, id: nat, gap: Gap, failing: Option<Fault>): Trace
    requires p.rate != 0.0
  {
    if Raises(failing, WATCH) then Step(p, t, Break(id, false))
    else Step(p, ToRead(p, t, id, gap), if Raises(failing, HMGET) then Break(id, false) else Read(id))
  }

  /** How a try ends: EXEC, or UNWATCH, HSET and PEXPIRE, one of which may fail. */
  function OwnWrite(s: System, id: nat, failing: Option<Fault>): Action {
    if id in s.clients && s.clients[id].phase.Refusing? then
      if Raises(failing, UNWATCH) then Break(id, false)
      else if Raises(failing, HSET) then Break(id, failing.value.applied)
      else if Raises(failing, PEXPIRE) then Break(id, true)
      else WriteRefusal(id)
    else if Raises(failing, EXEC) then Break(id, failing.value.applied)
    else Exec(id)
  }

  /** The second half of a try. */
  function Writing(p: Limits, t: Trace, id: nat, gap: Gap, failing: Option<Fault>): Trace
    requires p.rate != 0.0
  {
    var before := Others(p, t, gap.afterRead, id);
    Step(p, before, OwnWrite(before.state, id, failing))
  }

  predicate FailsEarly(failing: Option<Fault>) { Raises(failing, WATCH) || Raises(failing, HMGET) }

  /** One round of the retry loop. */
  function Round(p: Limits, t: Trace, id: nat, gap: Gap, failing: Option<Fault>): Trace
    requires p.rate != 0.0
  {
    var read := Reading(p, t, id, gap, failing);
    if FailsEarly(failing) then read else Writing(p, read, id, gap, failing)
  }

  /** The writes of the others that this round meets. */
  function RivalIn(p: Limits, t: Trace, id: nat, gap: Gap, failing: Option<Fault>): Rival
    requires p.rate != 0.0
  {
    var read := Reading(p, t, id, gap, failing);
    Rival(if Raises(failing, WATCH) then None else Seen(Step(p, t, Watch(id)).state, ToRead(p, t, id, gap).state),
          if FailsEarly(failing) then None else Seen(read.state, Others(p, read, gap.afterRead, id).state))
  }

  predicate TriesAgain(s: System, id: nat) { id in s.clients && s.clients[id].phase.Ready? }

  /** The call's rounds from the `k`-th on, with the others' steps in between. */
  function Rounds(p: Limits, t: Trace, id: nat, gaps: nat -> Gap, fault: Option<Fault>, k: nat): (end: Trace)
    requires p.rate != 0.0 && k <= MAX_TRIES
    ensures t.actions <= end.actions
    decreases MAX_TRIES - k
  {
    if k == MAX_TRIES then t
    else
      var t' := Round(p, t, id, gaps(k), FaultAt(fault, k));
      if TriesAgain(t'.state, id) then Rounds(p, t', id, gaps, fault, k + 1) else t'
  }

  /** The writes of the others that these rounds meet. */
  function RivalsIn(p: Limits, t: Trace, id: nat, gaps: nat -> Gap, fault: Option<Fault>, k: nat): (rivals: seq<Rival>)
    requires p.rate != 0.0 && k <= MAX_TRIES
    ensures |rivals| == MAX_TRIES - k
    decreases MAX_TRIES - k
  {
    if k == MAX_TRIES then []
    else
      var t' := Round(p, t, id, gaps(k), FaultAt(fault, k));
      [RivalIn(p, t, id, gaps(k), FaultAt(fault, k))]
        + if TriesAgain(t'.state, id) then RivalsIn(p, t', id, gaps, fault, k + 1)
          else seq(MAX_TRIES - k - 1, _ => Rival(None, None))
  }

  // ---------------------------------------------------------- it is a run ...

  lemma RoundIsARun(p: Limits, init: Stored, t: Trace, id: nat, gap: Gap, failing: Option<Fault>)
    requires p.rate != 0.0 && IsRun(p, init, t)
    ensures IsRun(p, init, Round(p, t, id, gap, failing))
  {
    hide IsRun, Step, Others;
    var read := Reading(p, t, id, gap, failing);
    if Raises(failing, WATCH) {
      StepIsARun(p, init, t, Break(id, false));
    } else {
      StepIsARun(p, init, t, Watch(id));
      OthersIsARun(p, init, Step(p, t, Watch(id)), gap.beforeRead, id);
      StepIsARun(p, init, ToRead(p, t, id, gap), if Raises(failing, HMGET) then Break(id, false) else Read(id));
    }
    if !FailsEarly(failing) {
      OthersIsARun(p, init, read, gap.afterRead, id);
      var before := Others(p, read, gap.afterRead, id);
      StepIsARun(p, init, before, OwnWrite(before.state, id, failing));
    }
  }

  lemma {:induction false} RoundsAreARun(p: Limits, init: Stored, t: Trace, id: nat, gaps: nat -> Gap,
      fault: Option<Fault>, k: nat)
    requires p.rate != 0.0 && k <= MAX_TRIES && IsRun(p, init, t)
    ensures IsRun(p, init, Rounds(p, t, id, gaps, fault, k))
    decreases MAX_TRIES - k
  {
    hide IsRun, Round;
    if k < MAX_TRIES {
      var t' := Round(p, t, id, gaps(k), FaultAt(fault, k));
      RoundIsARun(p, init, t, id, gaps(k), FaultAt(fault, k));
      if TriesAgain(t'.state, id) {
        RoundsAreARun(p, init, t', id, gaps, fault, k + 1);
      }
    }
  }

  // ------------------------------------------- ... and ends as the loop does

  /** Where a round leaves the call's client. */
  function PhaseAfter(p: Limits, c: Client, r: CallResult): Client
    requires p.rate != 0.0
  {
    match r.end
    case Answered(allowed, retryAfter) => c.(phase := Finished(allowed, retryAfter))
    case Raised => c.(phase := BucketProtocol.Failed(r.charges == 1))
    case Lost =>
      if c.triesLeft <= 1 then c.(phase := Finished(false, 1.0 / p.rate)) else Client(c.call, c.triesLeft - 1, Ready)
  }

  lemma ReadPart(p: Limits, t: Trace, id: nat, gap: Gap, failing: Option<Fault>)
    requires p.rate != 0.0 && TriesAgain(t.state, id)
    ensures var s, s' := t.state, Reading(p, t, id, gap, failing).state;
            var c, beforeRead := s.clients[id], RivalIn(p, t, id, gap, failing).beforeRead;
            var seen := Overwritten(s.stored, beforeRead);
            var tokens := Refilled(p, seen, c.call.nowMs);
            && id in s'.clients && s.version <= s'.version
            && (if Raises(failing, WATCH) then
                  s'.stored == s.stored && s'.clients[id] == c.(phase := BucketProtocol.Failed(false))
                else if Raises(failing, HMGET) then
                  s'.stored == seen && s'.clients[id] == c.(phase := BucketProtocol.Failed(false))
                else
                  && s'.stored == seen && (beforeRead.None? <==> s'.version == s.version)
                  && s'.clients[id] == c.(phase := if tokens < c.call.cost then Refusing(s'.version, tokens)
                                                   else Committing(s.version, tokens - c.call.cost)))
  {
    hide Refilled, Others;
    if !Raises(failing, WATCH) {
      OthersLeaveTheCallAlone(p, Step(p, t, Watch(id)), gap.beforeRead, id);
    }
  }

  lemma WritePart(p: Limits, t: Trace, id: nat, gap: Gap, failing: Option<Fault>)
    requires p.rate != 0.0 && id in t.state.clients
    requires var phase := t.state.clients[id].phase;
             phase.Refusing? || (phase.Committing? && phase.watched <= t.state.version)
    ensures var s, s' := t.state, Writing(p, t, id, gap, failing).state;
            var afterRead := Seen(s, Others(p, t, gap.afterRead, id).state);
            var c, left := s.clients[id], Overwritten(s.stored, afterRead);
            && id in s'.clients
            && (if c.phase.Refusing? then
                  var written := Some(Bucket(c.phase.tokens, c.call.nowMs));
                  if Raises(failing, UNWATCH) || (Raises(failing, HSET) && !failing.value.applied) then
                    s'.stored == left && s'.clients[id] == c.(phase := BucketProtocol.Failed(false))
                  else if Raises(failing, HSET) || Raises(failing, PEXPIRE) then
                    s'.stored == written && s'.clients[id] == c.(phase := BucketProtocol.Failed(false))
                  else
                    && s'.stored == written
                    && s'.clients[id] == c.(phase := Finished(false, (c.call.cost - c.phase.tokens) / p.rate))
                else
                  var goesThrough := afterRead.None? && c.phase.watched == s.version;
                  var written := Some(Bucket(c.phase.newTokens, c.call.nowMs));
                  if Raises(failing, EXEC) then
                    var charged := failing.value.applied && goesThrough;
                    && s'.stored == (if charged then written else left)
                    && s'.clients[id] == c.(phase := BucketProtocol.Failed(charged))
                  else if goesThrough then
                    s'.stored == written && s'.clients[id] == c.(phase := Finished(true, 0.0))
                  else
                    s'.stored == left && s'.clients[id] == PhaseAfter(p, c, CallResult(Lost, 0, left)))
  {
    hide Refilled, Others;
    OthersLeaveTheCallAlone(p, t, gap.afterRead, id);
  }

  lemma RoundEndsAsTryDoes(p: Limits, t: Trace, id: nat, gap: Gap, failing: Option<Fault>)
    requires p.rate != 0.0 && TriesAgain(t.state, id)
    ensures var s, s' := t.state, Round(p, t, id, gap, failing).state;
            var r := TryOf(p, s.stored, s.clients[id].call, RivalIn(p, t, id, gap, failing), failing);
            s'.stored == r.left && id in s'.clients && s'.clients[id] == PhaseAfter(p, s.clients[id], r)
  {
    hide Refilled, Reading, Writing, Others;
    ReadPart(p, t, id, gap, failing);
    if !FailsEarly(failing) {
      WritePart(p, Reading(p, t, id, gap, failing), id, gap, failing);
    }
  }

  /** The protocol's client has ended as the call did, and the key is what the call left. */
  predicate Agrees(p: Limits, s: System, id: nat, r: CallResult) {
    && id in s.clients && s.stored == r.left
    && match r.end
       case Answered(allowed, retryAfter) => s.clients[id].phase == Finished(allowed, retryAfter)
       case Raised => s.clients[id].phase == BucketProtocol.Failed(r.charges == 1)
       case Lost => false
  }

  lemma {:induction false} RoundsEndAsTheLoopDoes(p: Limits, t: Trace, id: nat, call: Call, gaps: nat -> Gap,
      fault: Option<Fault>, k: nat, known: seq<Rival>)
    requires p.rate != 0.0 && |known| == k < MAX_TRIES
    requires id in t.state.clients && t.state.clients[id] == Client(call, MAX_TRIES - k, Ready)
    ensures Agrees(p, Rounds(p, t, id, gaps, fault, k).state, id,
            CallOf(p, t.state.stored, call, known + RivalsIn(p, t, id, gaps, fault, k), fault, k))
    decreases MAX_TRIES - k
  {
    hide TryOf, Round, RivalIn;
    var rival, t' := RivalIn(p, t, id, gaps(k), FaultAt(fault, k)), Round(p, t, id, gaps(k), FaultAt(fault, k));
    var rivals := known + RivalsIn(p, t, id, gaps, fault, k);
    RoundEndsAsTryDoes(p, t, id, gaps(k), FaultAt(fault, k));
    assert rivals[k] == rival;
    if TriesAgain(t'.state, id) {
      assert known + [rival] + RivalsIn(p, t', id, gaps, fault, k + 1) == rivals;
      RoundsEndAsTheLoopDoes(p, t', id, call, gaps, fault, k + 1, known + [rival]);
    }
  }

  /** At any point of any run a call begins, and whatever the others attempt in its gaps
      and whichever command fails, its commands extend that run, which then ends as the
      retry loop does against the very writes the others made in the gaps. */
  lemma ConsumeTokenIsARun(p: Limits, init: Stored, t: Trace, id: nat, call: Call, gaps: nat -> Gap,
      fault: Option<Fault>)
    requires p.rate != 0.0 && IsRun(p, init, t) && id !in t.state.clients && 0.0 <= call.cost
    ensures var begun := Step(p, t, Begin(id, call));
            var t' := Rounds(p, begun, id, gaps, fault, 0);
            && IsRun(p, init, t') && t.actions <= t'.actions
            && Agrees(p, t'.state, id,
               CallOf(p, t.state.stored, call, RivalsIn(p, begun, id, gaps, fault, 0), fault, 0))
  {
    hide IsRun;
    var begun := Step(p, t, Begin(id, call));
    StepIsARun(p, init, t, Begin(id, call));
    RoundsAreARun(p, init, begun, id, gaps, fault, 0);
    RoundsEndAsTheLoopDoes(p, begun, id, call, gaps, fault, 0, []);
    assert [] + RivalsIn(p, begun, id, gaps, fault, 0) == RivalsIn(p, begun, id, gaps, fault, 0);
  }
}
