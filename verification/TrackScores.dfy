/** The scores a track was given over a run: its first detection's, then one for every tick it was live.
    Its score gate is the gate of exactly these. */
module TrackScores {
  import opened Tracks
  import opened Engine
  import opened EngineInvariant
  import opened EventTrace
  import opened EventFacts
  import opened TrackLife
  import opened TrackHistory
  import ScoreGate

  /** The score a tick gives a live track: that of the detection it is given, or none for a miss. */
  ghost function ScoreGiven(c: Config, s: State, inp: Input, tid: TrackId): real {
    var given := GivenTo(c, s, inp, tid);
    if given.Some? then given.value.score else 0.0
  }

  /** The scores of tid in the first n ticks of a run. */
  ghost function OwnScores(c: Config, states: seq<State>, inputs: seq<Input>, tid: TrackId, n: nat): seq<real>
    requires |states| == |inputs| + 1 && n <= |inputs|
  {
    if n == 0 then []
    else
      var before, s, r := OwnScores(c, states, inputs, tid, n - 1), states[n - 1], states[n];
      if tid in s.live then before + [ScoreGiven(c, s, inputs[n - 1], tid)]
      else if tid !in s.store && tid in r.store then before + [r.store[tid].score]      // its first detection's
      else before
  }

  /** A track that is new after a tick has the box, type and score of one of the frame's detections, and
      that one score in its gate. */
  lemma NewTracksAreDetections(c: Config, s: State, inp: Input, tid: TrackId)
    requires Inv(s) && InputOk(s, inp)
    ensures var r := Tick(c, s, inp);
            tid !in s.store && tid in r.store ==>
              && (exists k :: 0 <= k < |inp.dets| && inp.dets[k].kind == r.store[tid].kind
                    && inp.dets[k].coord == r.store[tid].coord && inp.dets[k].score == r.store[tid].score)
              && r.store[tid].gate
                 == ScoreGate.Record(ScoreGate.EMPTY, r.store[tid].score, c.minInit, c.threshold(r.store[tid].kind))
  {
    hide Inv, InputOk, Tick, Matches, ScoreGate.Record;
    TickTrack(c, s, inp, tid);
    if tid !in s.store && tid in Tick(c, s, inp).store {
      var b :| Newborn(c, inp, b) && Steady(inp.at, b, Tick(c, s, inp).store[tid]);
      var k :| 0 <= k < |inp.dets| && BornOf(c, b, inp.dets[k]);
    }
  }

  /** Every tick records one score for each live track, and none for any other. */
  lemma TickRecords(c: Config, s: State, inp: Input, tid: TrackId)
    requires Inv(s) && InputOk(s, inp) && tid in s.store
    ensures var r := Tick(c, s, inp);
            && tid in r.store && r.store[tid].kind == s.store[tid].kind
            && r.store[tid].gate
               == if tid in s.live then
                    ScoreGate.Record(s.store[tid].gate, ScoreGiven(c, s, inp, tid), c.minInit, c.threshold(s.store[tid].kind))
                  else s.store[tid].gate
  {
    hide Inv, InputOk, Tick, Matches, MatchedTrack, MissedTrack, LastMiss, ScoreGate.Record;
    TickTrack(c, s, inp, tid);
    var m, tr := Matches(c, s, inp), s.store[tid];
    var given := Given(inp, m, tid);
    MissedScores(c, inp, tid, tr);
    if given.Some? { MatchedScores(c, inp, tid, tr, given.value); }
  }

  /** In every state of a run a track's score gate is that of the scores it was given. */
  lemma {:induction false} GateIsOfOwnScores(c: Config, counter: int, states: seq<State>, inputs: seq<Input>, n: nat,
                                             tid: TrackId)
    requires IsRun(c, counter, states, inputs) && n <= |inputs|
    ensures tid !in states[n].store ==> OwnScores(c, states, inputs, tid, n) == []
    ensures tid in states[n].store ==>
              var tr := states[n].store[tid];
              tr.gate == ScoreGate.Run(OwnScores(c, states, inputs, tid, n), c.minInit, c.threshold(tr.kind))
  {
    hide Tick, Mid, Inv, TraceOk, NamesOk, ScoreGiven, ScoreGate.Record;
    if n > 0 {
      GateIsOfOwnScores(c, counter, states, inputs, n - 1, tid);
      RunKeeps(c, counter, states, inputs, n - 1);
      assert IsStep(c, states[n - 1], inputs[n - 1], states[n]);
      InvGivesInputOk(states[n - 1], inputs[n - 1]);
      var s, before, all := states[n - 1], OwnScores(c, states, inputs, tid, n - 1), OwnScores(c, states, inputs, tid, n);
      InvLive(s);
      assert all != before ==> all[..|all| - 1] == before;
      if tid in s.store {
        TickRecords(c, s, inputs[n - 1], tid);
      } else {
        NewTracksAreDetections(c, s, inputs[n - 1], tid);
      }
    }
  }

  lemma InvLive(s: State)
    requires Inv(s)
    ensures forall t :: t in s.live ==> t in s.store
  {}

  /** At some frame at least half of the last (up to ten) of these scores were at or above the threshold,
      after enough of them were hits. */
  ghost predicate Earned(c: Config, kind: ObjectType, scores: seq<real>) {
    exists k: nat ::
      && ScoreGate.Passes(scores, k, c.minInit, c.threshold(kind))
      && 0 < k <= |scores|
      && 2 * ScoreGate.AtLeast(ScoreGate.LastScores(scores[..k]), c.threshold(kind))
         >= |ScoreGate.LastScores(scores[..k])|
  }

  /** Everyone an enter or update of a run names, unless it confirms with a parent, earned it by the
      scores it was given in that run, or was there when the camera started. */
  lemma NamedTracksEarnedIt(c: Config, counter: int, states: seq<State>, inputs: seq<Input>, n: nat, k: nat, tid: TrackId)
    requires IsRun(c, counter, states, inputs) && n < |inputs|
    ensures var s, r := states[n], states[n + 1];
            |s.trace| <= k < |r.trace| && !r.trace[k].edge.Leave? && tid in Tids(r.trace[k]) ==>
              && tid in r.store
              && (ConfirmWith(r.store[tid].kind).None? ==>
                    tid in r.early || Earned(c, r.store[tid].kind, OwnScores(c, states, inputs, tid, n + 1)))
  {
    hide Tick, Mid, Inv, TraceOk, NamesOk, OwnScores, ScoreGate.Run, ScoreGate.Passes;
    RunKeeps(c, counter, states, inputs, n);
    assert IsStep(c, states[n], inputs[n], states[n + 1]);
    InvGivesInputOk(states[n], inputs[n]);
    UpdatesNameOnlyActive(c, states[n], inputs[n], k, tid);
    GateIsOfOwnScores(c, counter, states, inputs, n + 1, tid);
    var r := states[n + 1];
    if MayBeNamed(r, tid) && r.store[tid].gate.truePositive {
      TruePositiveEarned(c, r.store[tid].kind, OwnScores(c, states, inputs, tid, n + 1));
    }
  }

  lemma TruePositiveEarned(c: Config, kind: ObjectType, scores: seq<real>)
    requires ScoreGate.Run(scores, c.minInit, c.threshold(kind)).truePositive
    ensures Earned(c, kind, scores)
  {
    hide ScoreGate.Run, ScoreGate.AtLeast, ScoreGate.Median;
    ScoreGate.TruePositiveIffPassed(scores, c.minInit, c.threshold(kind));
    var k: nat :| ScoreGate.Passes(scores, k, c.minInit, c.threshold(kind));
    ScoreGate.MedianMeansHalf(ScoreGate.LastScores(scores[..k]), c.threshold(kind));
  }
}
