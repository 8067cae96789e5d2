/** A camera that sees nothing becomes quiet: after one tick more than the longer miss tolerance, no
    track and no event is left, whatever state it was in. */
module BoundedClosing {
  import opened Wrappers
  import opened Lists
  import opened Tracks
  import opened Matching
  import opened Engine
  import opened EngineInvariant
  import opened EventTrace
  import opened TrackLife
  import opened TrackHistory
  import Pipeline

  /** A frame with nothing in it, while no vehicle waits for its model's answer. */
  predicate SeesNothing(inp: Input) {
    inp.dets == [] && inp.pendingAnswers == {}
  }

  function Longest(c: Config): nat {
    if c.missTicks >= c.parkedTicks then c.missTicks else c.parkedTicks
  }

  lemma NothingMatched(c: Config, s: State, inp: Input)
    requires InputOk(s, inp) && inp.dets == []
    ensures var cl := Matches(c, s, inp).claims; cl.matches == map[] && cl.unclaimed == []
  {
    hide Pipeline.Match, Pipeline.FrameOk, Sound;
    Pipeline.MatchIsSound(c.norfair, s.live, s.store, inp.dets, inp.assoc, s.ids);
    NothingToClaim(s.live, s.store, Matches(c, s, inp).claims);
  }

  lemma NothingToClaim(live: seq<TrackId>, store: Table, cl: Claims)
    requires Sound(live, store, [], cl)
    ensures cl.matches == map[] && cl.unclaimed == []
  {
    assert forall t :: t !in cl.matches;
    if cl.unclaimed != [] { SomeIndex(cl.unclaimed, 0); }
  }

  lemma SomeIndex(s: seq<nat>, n: nat)
    requires Indices(s, n) && s != []
    ensures n > 0
  {
    assert s[0] < n;
  }

  /** A track that outlives a miss is within its tolerance, or a face whose person is in view. */
  ghost predicate Outlives(c: Config, s: State, live: seq<TrackId>, tid: TrackId) {
    && tid in s.store
    && (|| s.store[tid].missCount < Longest(c)
        || (s.store[tid].kind == Face && s.store[tid].personTid.Some? && s.store[tid].personTid.value in live))
  }

  lemma MissedOutlives(c: Config, inp: Input, s: State, tid: TrackId, live: seq<TrackId>)
    requires tid in s.store && inp.pendingAnswers == {} && forall t :: t in s.live ==> t in live
    ensures var r := Missed(c, inp, s, tid);
            && (forall t :: t in r.live ==> t in s.live)
            && tid in r.store && r.store[tid].missCount == s.store[tid].missCount + 1
            && r.store[tid].kind == s.store[tid].kind && r.store[tid].personTid == s.store[tid].personTid
            && (forall t :: t in s.store && t != tid ==> t in r.store && r.store[t] == s.store[t])
            && (tid in r.live ==> Outlives(c, r, live, tid))
  {
    MissedCases(c, inp, s, tid);
    MissLeaves(c, inp, s.store[tid], tid);
    hide Missed, MissedTrack, LastMiss;
  }

  /** t has been missed once more than in s, and outlived it. */
  ghost predicate MissedOnce(c: Config, s: State, r: State, t: TrackId) {
    && t in s.store && t in r.store && Outlives(c, r, s.live, t)
    && r.store[t].missCount == s.store[t].missCount + 1 && r.store[t].kind == s.store[t].kind
    && r.store[t].personTid == s.store[t].personTid
  }

  lemma StillMissedOnce(c: Config, s: State, p: State, r: State, t: TrackId)
    requires MissedOnce(c, s, p, t) && (t in p.store ==> t in r.store && r.store[t] == p.store[t])
    ensures MissedOnce(c, s, r, t)
  {}

  lemma JustMissed(c: Config, s: State, p: State, r: State, t: TrackId)
    requires t in s.store && t in p.store && p.store[t] == s.store[t] && t in r.store && Outlives(c, r, s.live, t)
    requires r.store[t].missCount == p.store[t].missCount + 1 && r.store[t].kind == p.store[t].kind
    requires r.store[t].personTid == p.store[t].personTid
    ensures MissedOnce(c, s, r, t)
  {}

  lemma AllMissedStep(c: Config, inp: Input, m: Pipeline.Result, s: State, n: nat)
    requires n <= |s.live| && m.claims.matches == map[]
    ensures FollowAll(c, inp, m, Work(s, []), s.live, 0).s == s
    ensures n > 0 ==> FollowAll(c, inp, m, Work(s, []), s.live, n).s ==
                      Missed(c, inp, FollowAll(c, inp, m, Work(s, []), s.live, n - 1).s, s.live[n - 1])
  {
    hide Missed;
  }

  lemma {:induction false} AllMissed(c: Config, inp: Input, m: Pipeline.Result, s: State, n: nat)
    requires Mid(s, {}) && n <= |s.live| && inp.pendingAnswers == {} && m.claims.matches == map[]
    ensures var r := FollowAll(c, inp, m, Work(s, []), s.live, n).s;
            && (forall t :: t in r.live ==> t in s.live)
            && (forall t :: t in s.live[..n] && t in r.live ==> MissedOnce(c, s, r, t))
            && (forall t :: t in s.store && t !in s.live[..n] ==> t in r.store && r.store[t] == s.store[t])
  {
    hide Mid, Missed, Outlives, FollowAll, MissedOnce;
    AllMissedStep(c, inp, m, s, n);
    if n > 0 {
      AllMissed(c, inp, m, s, n - 1);
      LiveDistinct(s, {}, n - 1);
      LiveOk(s, {});
      var p, tid := FollowAll(c, inp, m, Work(s, []), s.live, n - 1).s, s.live[n - 1];
      assert s.live[..n] == s.live[..n - 1] + [tid];
      assert tid in s.live;
      MissedOutlives(c, inp, p, tid, s.live);
      var r := Missed(c, inp, p, tid);
      if tid in r.live { JustMissed(c, s, p, r, tid); }
      forall t | t in s.live[..n - 1] && t in r.live
        ensures MissedOnce(c, s, r, t)
      {
        StillMissedOnce(c, s, p, r, t);
      }
    }
  }

  /** What a tick that sees nothing leaves in view. */
  lemma NothingSeen(c: Config, s: State, inp: Input)
    requires Inv(s) && InputOk(s, inp) && SeesNothing(inp)
    ensures var r := Tick(c, s, inp);
            && (forall t :: t in r.live ==>
                  && t in s.live && t in s.store && t in r.store
                  && r.store[t].missCount == s.store[t].missCount + 1 && r.store[t].kind == s.store[t].kind
                  && (|| r.store[t].missCount < Longest(c)
                      || (s.store[t].kind == Face && s.store[t].personTid.Some? && s.store[t].personTid.value in s.live)))
            && (r.live == [] ==> r.event.None?)
  {
    hide Mid, Begin, Starting, FollowAll, Lifecycle, ReleaseAll, HoldAll, LinkAll, RememberAll,
      ConfirmAll, ParkAll, AccompanyAll, Matches, Pipeline.FrameOk;
    var m := Matches(c, s, inp);
    MatchesFacts(c, s, inp);
    NothingMatched(c, s, inp);
    var s0 := Begin(c, s, inp).(ids := m.ids);
    BeginKeeps(c, s, {}, inp, m.ids);
    BeginLive(c, s, inp);
    AllMissed(c, inp, m, s0, |s0.live|);
    assert s0.live[..|s0.live|] == s0.live;
    LiveOk(s0, {});
    var w1 := FollowAll(c, inp, m, Work(s0, []), s0.live, |s0.live|);
    assert AdmitAll(c, inp, m, Starting(c, s0, inp), w1, |m.claims.unclaimed|) == w1;
    AfterAdmission(c, inp, w1);
    TickKeepsInv(c, s, inp);
    var r := Tick(c, s, inp);
    if r.live == [] { EventNeedsSomeone(r); }
  }

  lemma EventNeedsSomeone(s: State)
    requires Inv(s) && s.live == []
    ensures s.event.None?
  {}

  // ----- runs -------------------------------------------------------------------------------------

  /** n ticks in a row see nothing. */
  ghost predicate QuietRun(c: Config, states: seq<State>, inputs: seq<Input>, from: nat, n: nat) {
    && |states| == |inputs| + 1 && from + n <= |inputs|
    && forall i :: from <= i < from + n ==> SeesNothing(inputs[i])
  }

  /** Every live track has been missed at least k times; and from the longest tolerance on only faces are
      live, past it nobody. */
  ghost predicate MissedFor(c: Config, s: State, k: nat) {
    && (forall t :: t in s.live ==> t in s.store && s.store[t].missCount >= k)
    && (k >= Longest(c) ==> forall t :: t in s.live ==> s.store[t].kind == Face)
    && (k > Longest(c) ==> s.live == [])
  }

  /** After k quiet ticks every live track has been missed at least k times; and from the longest
      tolerance on only faces are left, each with a person who was in view a tick before. */
  lemma {:induction false} MissesGrow(c: Config, counter: int, states: seq<State>, inputs: seq<Input>, from: nat, at: nat)
    requires IsRun(c, counter, states, inputs) && from <= at && QuietRun(c, states, inputs, from, at - from)
    ensures MissedFor(c, states[at], at - from)
  {
    hide *;
    QuietBounds(c, states, inputs, from, at);
    RunKeeps(c, counter, states, inputs, at);
    if at == from {
      InvMissed(c, states[at]);
    } else {
      MissesGrow(c, counter, states, inputs, from, at - 1);
      RunStep(c, counter, states, inputs, at - 1);
      RunGood(c, counter, states, inputs, at - 1);
      QuietStep(c, states[at - 1], inputs[at - 1], at - 1 - from, ClockAfter(inputs, at - 1));
    }
  }

  lemma QuietBounds(c: Config, states: seq<State>, inputs: seq<Input>, from: nat, at: nat)
    requires from <= at && QuietRun(c, states, inputs, from, at - from)
    ensures |states| == |inputs| + 1 && at <= |inputs|
    ensures from < at ==> SeesNothing(inputs[at - 1]) && QuietRun(c, states, inputs, from, at - 1 - from)
  {
    hide SeesNothing;
  }

  lemma InvMissed(c: Config, s: State)
    requires Inv(s)
    ensures MissedFor(c, s, 0)
  {
    InvLive(s);
    assert Longest(c) > 0;
  }

  /** One more quiet tick. */
  lemma QuietStep(c: Config, s: State, inp: Input, k: nat, clock: int)
    requires Inv(s) && InputOk(s, inp) && SeesNothing(inp) && AllGood(clock, s.store) && MissedFor(c, s, k)
    ensures MissedFor(c, Tick(c, s, inp), k + 1)
  {
    hide Tick, Inv, AllGood, InputOk, SeesNothing, Longest;
    var r := Tick(c, s, inp);
    NothingSeen(c, s, inp);
    if k + 1 > Longest(c) && r.live != [] {
      var t := r.live[0];
      assert t in r.live;
      PersonsAreNotFaces(clock, s.store, t);
      assert false;
    }
  }

  lemma InvLive(s: State)
    requires Inv(s)
    ensures forall t :: t in s.live ==> t in s.store
  {}

  lemma PersonsAreNotFaces(clock: int, store: Table, t: TrackId)
    requires AllGood(clock, store) && t in store && store[t].personTid.Some?
    ensures store[t].personTid.value in store && store[store[t].personTid.value].kind == Person
  {
    assert TrackGood(clock, store, store[t]);
  }

  /** Bounded closing: from any state a run reaches, one tick more than the longer tolerance without
      a detection leaves no track and no open event. */
  lemma QuietCameraCloses(c: Config, counter: int, states: seq<State>, inputs: seq<Input>, from: nat)
    requires IsRun(c, counter, states, inputs) && QuietRun(c, states, inputs, from, Longest(c) + 1)
    ensures states[from + Longest(c) + 1].live == [] && states[from + Longest(c) + 1].event.None?
  {
    var at := from + Longest(c) + 1;
    MissesGrow(c, counter, states, inputs, from, at);
    RunKeeps(c, counter, states, inputs, at);
    hide Inv, IsRun, QuietRun, Longest;
    EventNeedsSomeone(states[at]);
  }
}
