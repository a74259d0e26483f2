/** Sequential histories of one tenant's bucket, and what they may admit.
    BucketProtocol shows that every concurrent run produces such a history. */
module BucketLog {
  import opened Wrappers
  import opened Reals
  import opened TokenBucket

  /** One change of the stored bucket. `StaleDeny` is a refusal whose write landed
      after the bucket had already moved on from the value it was computed from. */
  datatype Entry =
    | Admit(client: nat, call: Call)
    | Deny(client: nat, call: Call)
    | StaleDeny(client: nat, call: Call, tokens: real)
    | Expired(atMs: int)

  function TimeOf(e: Entry): int {
    if e.Expired? then e.atMs else e.call.nowMs
  }

  function ApplyEntry(p: Limits, s: Stored, e: Entry): Stored
    requires p.rate != 0.0
  {
    match e
    case Admit(_, call) => Some(Decide(p, s, call).bucket)
    case Deny(_, call) => Some(Decide(p, s, call).bucket)
    case StaleDeny(_, call, tokens) => Some(Bucket(tokens, call.nowMs))
    case Expired(_) => None
  }

  /** The sequential bucket would itself have decided this way. */
  ghost predicate LegalEntry(p: Limits, s: Stored, e: Entry)
    requires p.rate != 0.0
  {
    match e
    case Admit(_, call) => 0.0 <= call.cost && Decide(p, s, call).allowed
    case Deny(_, call) => 0.0 <= call.cost && !Decide(p, s, call).allowed
    case StaleDeny(_, call, tokens) => 0.0 <= tokens < call.cost && tokens <= p.capacity
    case Expired(atMs) => s.Some? && s.value.lastRefillMs + TtlMs(p) <= atMs
  }

  function Replay(p: Limits, s: Stored, log: seq<Entry>): Stored
    requires p.rate != 0.0
    decreases |log|
  {
    if log == [] then s else Replay(p, ApplyEntry(p, s, log[0]), log[1..])
  }

  ghost predicate Legal(p: Limits, s: Stored, log: seq<Entry>)
    requires p.rate != 0.0
    decreases |log|
  {
    log != [] ==> LegalEntry(p, s, log[0]) && Legal(p, ApplyEntry(p, s, log[0]), log[1..])
  }

  lemma {:induction false} Append(p: Limits, s: Stored, log: seq<Entry>, e: Entry)
    requires p.rate != 0.0
    ensures Replay(p, s, log + [e]) == ApplyEntry(p, Replay(p, s, log), e)
    ensures Legal(p, s, log + [e]) <==> Legal(p, s, log) && LegalEntry(p, Replay(p, s, log), e)
    decreases |log|
  {
    if log == [] {
      assert [e][1..] == [];
    } else {
      assert (log + [e])[1..] == log[1..] + [e];
      Append(p, ApplyEntry(p, s, log[0]), log[1..], e);
    }
  }

  // ------------------------------------------------------------ accounting

  /** A missing bucket is worth a full one. */
  function Tokens(p: Limits, s: Stored): real {
    if s.Some? then s.value.tokens else p.capacity
  }

  /** Total cost admitted. */
  function Admitted(log: seq<Entry>): real {
    if log == [] then 0.0 else
    (if log[0].Admit? then log[0].call.cost else 0.0) + Admitted(log[1..])
  }

  /** Total of the forward steps of the stored time, in milliseconds. */
  function ForwardMs(p: Limits, s: Stored, log: seq<Entry>): nat
    requires p.rate != 0.0
    decreases |log|
  {
    if log == [] then 0 else
    Gap(s, TimeOf(log[0])) + ForwardMs(p, ApplyEntry(p, s, log[0]), log[1..])
  }

  /** Tokens earned in `ms` milliseconds. */
  function Gain(p: Limits, ms: int): real {
    p.rate * (ms as real / 1000.0)
  }

  lemma GainAdds(p: Limits, a: int, b: int)
    ensures Gain(p, a + b) == Gain(p, a) + Gain(p, b)
  {
  }

  lemma GainGrows(p: Limits, a: int, b: int)
    requires p.Valid() && a <= b
    ensures Gain(p, a) <= Gain(p, b)
  {
    ProductNonNegative(p.rate, (b - a) as real / 1000.0);
    GainAdds(p, a, b - a);
  }

  function Gap(s: Stored, t: int): nat {
    if s.Some? && s.value.lastRefillMs < t then t - s.value.lastRefillMs else 0
  }

  /** Total cost of the calls whose refusal was written late. */
  function StaleCredit(log: seq<Entry>): real {
    if log == [] then 0.0 else
    (if log[0].StaleDeny? then log[0].call.cost else 0.0) + StaleCredit(log[1..])
  }

  /** The general bound, for any clocks and any number of late refusals. */
  lemma {:induction false} AdmissionBound(p: Limits, s: Stored, log: seq<Entry>)
    requires p.Valid() && InRange(p, s) && Legal(p, s, log)
    ensures InRange(p, Replay(p, s, log))
    ensures Admitted(log) + Tokens(p, Replay(p, s, log))
         <= Tokens(p, s) + Gain(p, ForwardMs(p, s, log)) + StaleCredit(log)
    decreases |log|
  {
    if log != [] {
      var e := log[0];
      var next := ApplyEntry(p, s, e);
      EntryBound(p, s, e);
      AdmissionBound(p, next, log[1..]);
      GainAdds(p, Gap(s, TimeOf(e)), ForwardMs(p, next, log[1..]));
    }
  }

  lemma EntryBound(p: Limits, s: Stored, e: Entry)
    requires p.Valid() && InRange(p, s) && LegalEntry(p, s, e)
    ensures InRange(p, ApplyEntry(p, s, e))
    ensures (if e.Admit? then e.call.cost else 0.0) + Tokens(p, ApplyEntry(p, s, e))
         <= Tokens(p, s) + Gain(p, Gap(s, TimeOf(e)))
            + (if e.StaleDeny? then e.call.cost else 0.0)
  {
    GainGrows(p, 0, Gap(s, TimeOf(e)));
    if e.Expired? {
      TtlCoversRefill(p);
      LongWaitFills(p, s.value, e.atMs);
    } else if !e.StaleDeny? {
      DecideStaysInRange(p, s, e.call);
    }
  }

  lemma AppliedAt(p: Limits, s: Stored, e: Entry)
    requires p.rate != 0.0
    ensures ApplyEntry(p, s, e).Some? ==> ApplyEntry(p, s, e).value.lastRefillMs == TimeOf(e)
  {
  }

  /** No late refusal, and times that do not run backwards from `from`. */
  ghost predicate Steady(from: int, log: seq<Entry>)
    decreases |log|
  {
    log != [] ==> !log[0].StaleDeny? && from <= TimeOf(log[0]) && Steady(TimeOf(log[0]), log[1..])
  }

  function EndOf(from: int, log: seq<Entry>): int {
    if log == [] then from else TimeOf(log[|log| - 1])
  }

  lemma {:induction false} SteadyTelescopes(p: Limits, s: Stored, from: int, log: seq<Entry>)
    requires p.rate != 0.0
    requires s.Some? ==> from <= s.value.lastRefillMs
    requires Steady(if s.Some? then s.value.lastRefillMs else from, log)
    ensures StaleCredit(log) == 0.0
    ensures ForwardMs(p, s, log) <= EndOf(if s.Some? then s.value.lastRefillMs else from, log) - from
    decreases |log|
  {
    if log != [] {
      var next := ApplyEntry(p, s, log[0]);
      var t := TimeOf(log[0]);
      SteadyTelescopes(p, next, t, log[1..]);
    }
  }

  /** No admission leaves more than a full bucket to the others. */
  lemma AdmissionLeavesAtMostFull(p: Limits, s: Stored, e: Entry)
    requires p.Valid() && InRange(p, s) && LegalEntry(p, s, e) && !e.StaleDeny?
    ensures (if e.Admit? then e.call.cost else 0.0) + Tokens(p, ApplyEntry(p, s, e)) <= p.capacity
  {
    if !e.Expired? {
      DecideStaysInRange(p, s, e.call);
    }
  }

  /** On a steady stretch the textbook bound holds in every window: no more than one
      full bucket plus the refill between its first and last event. */
  lemma WindowBound(p: Limits, s: Stored, log: seq<Entry>, i: nat, j: nat)
    requires p.Valid() && InRange(p, s) && Legal(p, s, log)
    requires i < j <= |log| && Steady(TimeOf(log[i]), log[i..j])
    ensures Admitted(log[i..j])
         <= p.capacity + Gain(p, TimeOf(log[j - 1]) - TimeOf(log[i]))
  {
    hide Gain, Decide, ApplyEntry, LegalEntry, Refilled, Replay;
    Split(p, s, log, j);
    Split(p, s, log[..j], i);
    assert log[..j][..i] == log[..i] && log[..j][i..] == log[i..j];
    var before := Replay(p, s, log[..i]);
    AdmissionBound(p, s, log[..i]);
    var window := log[i..j];
    var e := window[0];
    var after := ApplyEntry(p, before, e);
    EntryBound(p, before, e);
    AdmissionLeavesAtMostFull(p, before, e);
    AppliedAt(p, before, e);
    AdmissionBound(p, after, window[1..]);
    SteadyTelescopes(p, after, TimeOf(e), window[1..]);
    GainGrows(p, ForwardMs(p, after, window[1..]), TimeOf(log[j - 1]) - TimeOf(log[i]));
  }

  lemma {:induction false} Split(p: Limits, s: Stored, log: seq<Entry>, i: nat)
    requires p.rate != 0.0 && i <= |log| && Legal(p, s, log)
    ensures Legal(p, s, log[..i])
    ensures Legal(p, Replay(p, s, log[..i]), log[i..])
    decreases |log|
  {
    if i > 0 {
      assert log[..i][1..] == log[1..][..i - 1];
      assert log[1..][i - 1..] == log[i..];
      Split(p, ApplyEntry(p, s, log[0]), log[1..], i - 1);
    }
  }

  // ----------------------------------------------- when the plain bound fails

  /** Two refusal-free admissions at one instant from a bucket of capacity 1: a
      refusal computed with an older clock reading, landing in between with nothing
      changed since it was read, moved the stored time back a full second. */
  lemma BackwardsClockBreaksPlainBound()
    ensures
      var p := Limits(1.0, 1.0);
      var log := [Admit(0, Call(1000, 1.0)), Deny(1, Call(0, 1.0)), Admit(2, Call(1000, 1.0))];
      Legal(p, None, log) && StaleCredit(log) == 0.0
      && Admitted(log) == 2.0 > p.capacity + Gain(p, 1000 - 1000)
  {
    var p := Limits(1.0, 1.0);
    var log := [Admit(0, Call(1000, 1.0)), Deny(1, Call(0, 1.0)), Admit(2, Call(1000, 1.0))];
    var s1 := ApplyEntry(p, None, log[0]);
    assert s1 == Some(Bucket(0.0, 1000));
    var s2 := ApplyEntry(p, s1, log[1]);
    assert s2 == Some(Bucket(0.0, 0));
    assert log[1..][0] == log[1] && log[1..][1..] == [log[2]] && [log[2]][1..] == [];
    assert Legal(p, s2, [log[2]]);
    assert Admitted([log[2]]) == 1.0 && Admitted(log[1..]) == 1.0;
    assert StaleCredit([log[2]]) == 0.0 && StaleCredit(log[1..]) == 0.0;
  }
}
