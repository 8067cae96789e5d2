/** The FLV rewriter of the ONVIF push: every tag is copied with a 16-byte timing trailer behind it,
    and two script tags are put in at least five seconds apart. Removing what was added gives the
    source's tags back. */
module Flv {
  import opened Bytes
  import opened Wrappers

  const VIDEO: Byte := 9
  const SCRIPT: Byte := 18
  const CLOCK_SYNC_INTERVAL_S := 5.0
  const TIMESCALE_VIDEO := 90000
  const TIMESCALE_OTHER := 11025

  // ----- tags -------------------------------------------------------------------------------------

  /** One tag with its trailing PreviousTagSize: type, 24-bit size, the low three and then the high
      byte of the signed 32-bit timestamp, a zero stream id, the payload, and the size of it all
      (Adobe Flash Video File Format Specification 10.1, Annex E.4.1). None: it does not fit. */
  function Tag(kind: Byte, payload: seq<Byte>, timestamp: int): Option<seq<Byte>> {
    if -0x8000_0000 <= timestamp < 0x8000_0000 && |payload| + 11 < TWO_32 then
      var ts := Signed4(timestamp);
      Some([kind] + Be4(|payload|)[1..] + ts[1..] + ts[..1] + [0, 0, 0] + payload + Be4(|payload| + 11))
    else None
  }

  function PayloadSize(tag: seq<Byte>): nat
    requires |tag| >= 11
  {
    Value3(tag[1..4])
  }

  function Timestamp(tag: seq<Byte>): int
    requires |tag| >= 11
  {
    SignedValue4(tag[7..8] + tag[4..7])
  }

  /** A tag's header reads back as written: its type, its signed timestamp, and its size as far as 24
      bits hold it. */
  lemma TagRoundTrip(kind: Byte, payload: seq<Byte>, timestamp: int)
    ensures Tag(kind, payload, timestamp).Some? <==> -0x8000_0000 <= timestamp < 0x8000_0000 && |payload| + 11 < TWO_32
    ensures var t := Tag(kind, payload, timestamp);
            t.Some? ==>
              && |t.value| == 11 + |payload| + 4
              && t.value[0] == kind && Timestamp(t.value) == timestamp
              && (PayloadSize(t.value) == |payload| <==> |payload| < TWO_24)
              && t.value[11..11 + |payload|] == payload
              && Value4(t.value[11 + |payload|..]) == |payload| + 11
  {
    hide *;
    TagFits(kind, payload, timestamp);
    if Tag(kind, payload, timestamp).Some? {
      var t := Tag(kind, payload, timestamp).value;
      TagIs(kind, payload, timestamp);
      HeaderReads(t);
      SignedRoundTrip(timestamp);
      Value3OfBe3(|payload|);
      Value4Small(|payload| + 11);
    }
  }

  lemma TagFits(kind: Byte, payload: seq<Byte>, timestamp: int)
    ensures Tag(kind, payload, timestamp).Some? <==> -0x8000_0000 <= timestamp < 0x8000_0000 && |payload| + 11 < TWO_32
  {}

  lemma HeaderReads(tag: seq<Byte>)
    requires |tag| >= 11
    ensures PayloadSize(tag) == Value3(tag[1..4]) && Timestamp(tag) == SignedValue4(tag[7..8] + tag[4..7])
  {}

  lemma TagIs(kind: Byte, payload: seq<Byte>, timestamp: int)
    requires Tag(kind, payload, timestamp).Some?
    ensures -0x8000_0000 <= timestamp < 0x8000_0000
    ensures var t := Tag(kind, payload, timestamp).value;
            && |t| == 15 + |payload| && t[0] == kind && t[1..4] == Be3(|payload|)
            && t[7..8] + t[4..7] == Signed4(timestamp)
            && t[11..11 + |payload|] == payload && t[11 + |payload|..] == Be4(|payload| + 11)
  {
    assert Be4(|payload|)[1..] == Be3(|payload|);
    hide Be4, Signed4, Be3;
    var ts, size := Signed4(timestamp), Be4(|payload|);
    TagLayout(kind, size, ts, payload, Be4(|payload| + 11));
    assert ts[..1] + ts[1..] == ts;
  }

  lemma TagLayout(kind: Byte, size: seq<Byte>, ts: seq<Byte>, payload: seq<Byte>, back: seq<Byte>)
    requires |size| == 4 && |ts| == 4 && |back| == 4
    ensures var r := [kind] + size[1..] + ts[1..] + ts[..1] + [0, 0, 0] + payload + back;
            && |r| == 15 + |payload| && r[0] == kind && r[1..4] == size[1..] && r[4..7] == ts[1..] && r[7..8] == ts[..1]
            && r[11..11 + |payload|] == payload && r[11 + |payload|..] == back
  {}

  // ----- what is put in ---------------------------------------------------------------------------

  // The eight bytes of a double, in network order; the rounding is not modelled.
  type Eight = s: seq<Byte> | |s| == 8 witness [0, 0, 0, 0, 0, 0, 0, 0]
  type Doubles = real -> Eight

  function Ascii(s: string): (r: seq<Byte>)
    ensures |r| == |s|
  {
    seq(|s|, i requires 0 <= i < |s| => (s[i] as int) % 0x100)
  }

  function AmfString(s: string): (r: seq<Byte>)
    ensures |r| == 2 + |s|
  {
    Be2(|s|) + Ascii(s)
  }

  function AmfNumber(f64: Doubles, v: real): (r: seq<Byte>)
    ensures |r| == 9
  {
    [0] + f64(v)
  }

  function Field(name: string, value: seq<Byte>): (r: seq<Byte>)
    ensures |r| == 2 + |name| + |value|
  {
    AmfString(name) + value
  }

  function AmfObject(fields: seq<Byte>): (r: seq<Byte>)
    ensures |r| == |fields| + 4
  {
    [3] + fields + [0, 0, 9]
  }

  const CLOCK_SYNC := "onClockSync"
  const MPMA := "onMpma"

  function ScriptPayload(name: string, value: seq<Byte>): (r: seq<Byte>)
    ensures |r| == 3 + |name| + |value|
  {
    [2] + AmfString(name) + value
  }

  function ClockSync(f64: Doubles, timestamp: int, now: real): (r: seq<Byte>)
    ensures |r| == 72
  {
    AmfObject(Field("streamClock", AmfNumber(f64, timestamp as real)) + Field("streamClockBase", AmfNumber(f64, 0.0))
              + Field("wallClock", AmfNumber(f64, now * 1000.0)))
  }

  function Rates(f64: Doubles): (r: seq<Byte>)
    ensures |r| == 46
  {
    AmfObject(Field("cur", AmfNumber(f64, 1500000.0)) + Field("max", AmfNumber(f64, 1500000.0))
              + Field("min", AmfNumber(f64, 1500000.0)))
  }

  function Mpma(f64: Doubles): (r: seq<Byte>)
    ensures |r| < 1000
  {
    AmfObject(Field("cs", Rates(f64)) + Field("m", Rates(f64)) + Field("r", AmfNumber(f64, 0.0))
              + Field("sp", Rates(f64)) + Field("t", AmfNumber(f64, 75000.0)))
  }

  /** Elapsed seconds in ticks, as int() truncates them. */
  function Ticks(elapsed: real, scale: nat): int {
    var t := elapsed * scale as real;
    if t >= 0.0 then t.Floor else -(-t).Floor
  }

  function Scale(isVideo: bool): nat {
    if isVideo then TIMESCALE_VIDEO else TIMESCALE_OTHER
  }

  /** The 16 bytes behind a tag: zero, a 24-bit timescale, four zeros, the 64-bit elapsed time. None: a
      time that does not fit. */
  function Trailer(isVideo: bool, elapsed: real): (r: Option<seq<Byte>>)
    ensures r.Some? ==> |r.value| == 16
  {
    var ticks := Ticks(elapsed, Scale(isVideo));
    if 0 <= ticks < TWO_32 * TWO_32 then
      Some([0] + Be3(Scale(isVideo)) + [0, 0, 0, 0] + Be8(ticks))
    else None
  }

  /** A trailer reads back as its timescale and as the elapsed time, off by less than one tick. */
  lemma TrailerRoundTrip(isVideo: bool, elapsed: real)
    requires elapsed >= 0.0
    ensures var t := Trailer(isVideo, elapsed);
            && (t.Some? <==> elapsed * Scale(isVideo) as real < (TWO_32 * TWO_32) as real)
            && (t.Some? ==>
                  && Value3(t.value[1..4]) == Scale(isVideo)
                  && Value8(t.value[8..]) as real <= elapsed * Scale(isVideo) as real < Value8(t.value[8..]) as real + 1.0)
  {
    var scale := Scale(isVideo);
    TicksBounds(elapsed, scale, TWO_32 * TWO_32);
    var ticks := Ticks(elapsed, scale);
    hide Ticks, Be3, Be8, Value3, Value8;
    if ticks < TWO_32 * TWO_32 {
      Value3Small(scale);
      Value8OfBe8(ticks);
      TrailerLayout(Be3(scale), Be8(ticks));
    }
  }

  lemma TicksBounds(elapsed: real, scale: nat, most: nat)
    requires elapsed >= 0.0
    ensures var ticks := Ticks(elapsed, scale);
            && 0 <= ticks && ticks as real <= elapsed * scale as real < ticks as real + 1.0
            && (ticks < most <==> elapsed * scale as real < most as real)
  {
    var t := elapsed * scale as real;
    assert t >= 0.0;
    assert t.Floor as real <= t < t.Floor as real + 1.0;
  }

  lemma TrailerLayout(scale: seq<Byte>, ticks: seq<Byte>)
    requires |scale| == 3 && |ticks| == 8
    ensures var r := [0] + scale + [0, 0, 0, 0] + ticks;
            |r| == 16 && r[1..4] == scale && r[8..] == ticks
  {}

  /** What a sync writes, and whether it all fitted. */
  datatype Pair = Pair(bytes: seq<Byte>, ok: bool)

  /** A clock sync and an mpma tag, each with its trailer. */
  function SyncPair(f64: Doubles, timestamp: int, now: real, start: real): Pair {
    var sync := Tag(SCRIPT, ScriptPayload(CLOCK_SYNC, ClockSync(f64, timestamp, now)), timestamp);
    var mpma := Tag(SCRIPT, ScriptPayload(MPMA, Mpma(f64)), 0);
    var trailer := Trailer(false, now - start);
    if sync.None? || mpma.None? then Pair([], false)
    else if trailer.None? then Pair(sync.value, false)
    else Pair((sync.value + trailer.value) + (mpma.value + trailer.value), true)
  }

  // ----- the rewriting ----------------------------------------------------------------------------

  // A classic tag has the codec id in its low nibble; an enhanced one has a FourCC behind its first byte.
  datatype Codec = Classic(id: nat) | Enhanced(fourcc: seq<Byte>)

  function VideoCodec(body: seq<Byte>): Codec
    requires |body| >= 5
  {
    if body[0] >= 0x80 then Enhanced(body[1..5]) else Classic(body[0] % 16)
  }

  /** What is let through: AVC, and a FourCC that happens to spell h264. */
  predicate IsH264(c: Codec) {
    c == Classic(7) || c == Enhanced(Ascii("h264"))
  }

  datatype Outcome = Done | NotFlv | UnsupportedCodec(codec: Codec) | OutOfRange

  /** What has been written, when syncs were put in, and how it ended. */
  datatype Sent = Sent(bytes: seq<Byte>, syncs: seq<real>, outcome: Outcome)

  // One tag: written with its trailer, or the end of it all.
  datatype Step = Next(bytes: seq<Byte>) | Stop(bytes: seq<Byte>, outcome: Outcome)

  /** The tag at the front of rest with its trailer. */
  function CopyTrailed(rest: seq<Byte>, now: real, start: real): Step
    requires |rest| >= 11
  {
    var n := 15 + PayloadSize(rest);
    if |rest| < n then Stop(rest, Done)
    else if rest[0] == VIDEO && n > 15 && !IsH264(VideoCodec(rest[11..n])) then
      Stop([], UnsupportedCodec(VideoCodec(rest[11..n])))
    else
      var trailer := Trailer(rest[0] == VIDEO, now - start);
      if trailer.None? then Stop(rest[..n], OutOfRange) else Next(rest[..n] + trailer.value)
  }

  function Prepend(front: seq<Byte>, step: Step): Step {
    step.(bytes := front + step.bytes)
  }

  /** The tag at the front of rest; due: a sync goes before it. */
  function CopyOne(f64: Doubles, rest: seq<Byte>, now: real, due: bool, start: real): Step
    requires |rest| >= 11
  {
    if due then
      var pair := SyncPair(f64, Timestamp(rest), now, start);
      if pair.ok then Prepend(pair.bytes, CopyTrailed(rest, now, start)) else Stop(pair.bytes, OutOfRange)
    else CopyTrailed(rest, now, start)
  }

  predicate Due(now: real, last: real) {
    now - last >= CLOCK_SYNC_INTERVAL_S
  }

  /** The tags of rest, the k-th reading of the clock being the next one. */
  function Copy(f64: Doubles, clock: nat -> real, rest: seq<Byte>, k: nat, last: real, start: real): Sent
    decreases |rest|
  {
    if |rest| < 11 then Sent([], [], Done)
    else
      var now := clock(k);
      var syncs := if Due(now, last) then [now] else [];
      match CopyOne(f64, rest, now, Due(now, last), start)
      case Stop(bytes, outcome) => Sent(bytes, syncs, outcome)
      case Next(bytes) =>
        var more := Copy(f64, clock, Behind(15 + PayloadSize(rest), rest), k + 1, if Due(now, last) then now else last, start);
        Sent(bytes + more.bytes, syncs + more.syncs, more.outcome)
  }

  function UpTo(n: nat, s: seq<Byte>): seq<Byte> {
    if |s| <= n then s else s[..n]
  }

  function Behind(n: nat, s: seq<Byte>): seq<Byte> {
    if |s| <= n then [] else s[n..]
  }

  /** The whole stream: its header with both tracks flagged, PreviousTagSize0, and its tags. */
  function Rewrite(f64: Doubles, clock: nat -> real, data: seq<Byte>): Sent {
    if |data| < 9 || data[..3] != Ascii("FLV") then Sent([], [], NotFlv)
    else
      var tags := Copy(f64, clock, Behind(13, data), 2, clock(0), clock(1));
      tags.(bytes := data[..4] + [7] + data[5..9] + UpTo(4, data[9..]) + tags.bytes)
  }

  // ----- taking out what was put in ---------------------------------------------------------------

  ghost predicate StartsWith(s: seq<Byte>, prefix: seq<Byte>) {
    |prefix| <= |s| && s[..|prefix|] == prefix
  }

  /** A script tag named like the ones put in. */
  ghost predicate LooksInserted(tag: seq<Byte>) {
    && |tag| >= 11 && tag[0] == SCRIPT
    && (StartsWith(tag[11..], [2] + AmfString(CLOCK_SYNC)) || StartsWith(tag[11..], [2] + AmfString(MPMA)))
  }

  /** Read tag by tag: drop the inserted ones and the 16 bytes behind each tag. */
  ghost function Strip(s: seq<Byte>): seq<Byte>
    decreases |s|
  {
    if |s| < 11 || |s| < 15 + PayloadSize(s) then s
    else
      var n := 15 + PayloadSize(s);
      (if LooksInserted(s[..n]) then [] else s[..n]) + Strip(Behind(16, s[n..]))
  }

  /** The tags of a source without those that look inserted; the bytes of an incomplete tag header at
      its end are never sent. */
  ghost function Kept(s: seq<Byte>): seq<Byte>
    decreases |s|
  {
    if |s| < 11 then []
    else if |s| < 15 + PayloadSize(s) then s
    else
      var n := 15 + PayloadSize(s);
      (if LooksInserted(s[..n]) then [] else s[..n]) + Kept(s[n..])
  }

  /** A source's bytes up to an incomplete tag header. */
  function Whole(s: seq<Byte>): seq<Byte>
    decreases |s|
  {
    if |s| < 11 then [] else if |s| < 15 + PayloadSize(s) then s
    else s[..15 + PayloadSize(s)] + Whole(s[15 + PayloadSize(s)..])
  }

  /** Some complete tag of a source looks inserted. */
  ghost predicate HasInserted(s: seq<Byte>)
    decreases |s|
  {
    |s| >= 11 && |s| >= 15 + PayloadSize(s)
    && (LooksInserted(s[..15 + PayloadSize(s)]) || HasInserted(s[15 + PayloadSize(s)..]))
  }

  lemma {:induction false} KeptIsWhole(s: seq<Byte>)
    ensures |Kept(s)| <= |Whole(s)|
    ensures Kept(s) == Whole(s) <==> !HasInserted(s)
    decreases |s|
  {
    hide *;
    if |s| < 11 || |s| < 15 + PayloadSize(s) {
      NoTag(s);
    } else {
      var n := 15 + PayloadSize(s);
      KeptIsWhole(s[n..]);
      OneTagOff(s);
      OneTagKept(s);
      OneTagInserted(s);
      SameBehind(if LooksInserted(s[..n]) then [] else s[..n], s[..n], Kept(s[n..]), Whole(s[n..]));
      NotNothing(s, n);
    }
  }

  lemma NoTag(s: seq<Byte>)
    requires |s| < 11 || |s| < 15 + PayloadSize(s)
    ensures Kept(s) == Whole(s) && !HasInserted(s)
  {}

  lemma NotNothing(s: seq<Byte>, n: nat)
    requires 0 < n <= |s|
    ensures s[..n] != []
  {}

  lemma OneTagOff(s: seq<Byte>)
    requires |s| >= 11 && |s| >= 15 + PayloadSize(s)
    ensures Whole(s) == s[..15 + PayloadSize(s)] + Whole(s[15 + PayloadSize(s)..])
  {
    hide PayloadSize;
  }

  lemma OneTagKept(s: seq<Byte>)
    requires |s| >= 11 && |s| >= 15 + PayloadSize(s)
    ensures Kept(s) == (if LooksInserted(s[..15 + PayloadSize(s)]) then [] else s[..15 + PayloadSize(s)])
                       + Kept(s[15 + PayloadSize(s)..])
  {
    hide LooksInserted, PayloadSize;
  }

  lemma OneTagInserted(s: seq<Byte>)
    requires |s| >= 11 && |s| >= 15 + PayloadSize(s)
    ensures HasInserted(s) <==> LooksInserted(s[..15 + PayloadSize(s)]) || HasInserted(s[15 + PayloadSize(s)..])
  {
    hide LooksInserted, PayloadSize;
  }

  lemma SameBehind(a: seq<Byte>, tag: seq<Byte>, kept: seq<Byte>, whole: seq<Byte>)
    requires (a == [] || a == tag) && tag != [] && |kept| <= |whole|
    ensures |a + kept| <= |tag + whole|
    ensures a + kept == tag + whole <==> a == tag && kept == whole
  {
    if a == tag {
      assert (a + kept)[|tag|..] == kept && (tag + whole)[|tag|..] == whole;
    }
  }

  /** A tag and its 16 bytes are read off the front. */
  lemma StripOne(tag: seq<Byte>, trailer: seq<Byte>, more: seq<Byte>)
    requires |tag| >= 11 && |tag| == 15 + PayloadSize(tag) && |trailer| == 16
    ensures Strip(tag + trailer + more) == (if LooksInserted(tag) then [] else tag) + Strip(more)
  {
    hide *;
    TrailedParts(tag, trailer, more);
    StripIs(tag + trailer + more);
  }

  lemma TrailedParts(tag: seq<Byte>, trailer: seq<Byte>, more: seq<Byte>)
    requires |tag| >= 11 && |trailer| == 16
    ensures var s := tag + trailer + more;
            && |s| >= |tag| && s[..|tag|] == tag && Behind(16, s[|tag|..]) == more && PayloadSize(s) == PayloadSize(tag)
  {
    var s := tag + trailer + more;
    SameSize(tag, s);
    hide PayloadSize;
    assert s[..|tag|] == tag;
    assert s[|tag|..] == trailer + more;
    assert (trailer + more)[16..] == more;
  }

  lemma SameSize(tag: seq<Byte>, s: seq<Byte>)
    requires 11 <= |tag| <= |s| && s[1] == tag[1] && s[2] == tag[2] && s[3] == tag[3]
    ensures PayloadSize(s) == PayloadSize(tag)
  {
    hide Value3;
    assert s[1..4] == [s[1], s[2], s[3]] && tag[1..4] == [tag[1], tag[2], tag[3]];
  }

  lemma StripIs(s: seq<Byte>)
    requires |s| >= 11 && |s| >= 15 + PayloadSize(s)
    ensures Strip(s) == (if LooksInserted(s[..15 + PayloadSize(s)]) then [] else s[..15 + PayloadSize(s)])
                        + Strip(Behind(16, s[15 + PayloadSize(s)..]))
  {
    hide LooksInserted, PayloadSize, Behind;
  }

  /** A script tag put in is recognized and read to its end. */
  lemma InsertedTag(name: string, value: seq<Byte>, timestamp: int)
    requires name == CLOCK_SYNC || name == MPMA
    requires |value| < 1000 && Tag(SCRIPT, ScriptPayload(name, value), timestamp).Some?
    ensures var t := Tag(SCRIPT, ScriptPayload(name, value), timestamp).value;
            |t| >= 11 && |t| == 15 + PayloadSize(t) && LooksInserted(t)
  {
    var payload := ScriptPayload(name, value);
    TagRoundTrip(SCRIPT, payload, timestamp);
    var t, prefix := Tag(SCRIPT, payload, timestamp).value, [2] + AmfString(name);
    assert payload == prefix + value;
    assert t[11..][..|prefix|] == t[11..11 + |payload|][..|prefix|] == prefix;
  }

  lemma StripPair(f64: Doubles, timestamp: int, now: real, start: real, more: seq<Byte>)
    requires SyncPair(f64, timestamp, now, start).ok
    ensures Strip(SyncPair(f64, timestamp, now, start).bytes + more) == Strip(more)
  {
    hide Strip, LooksInserted, Tag, ClockSync, Mpma, ScriptPayload, Trailer;
    var sync := Tag(SCRIPT, ScriptPayload(CLOCK_SYNC, ClockSync(f64, timestamp, now)), timestamp).value;
    var mpma := Tag(SCRIPT, ScriptPayload(MPMA, Mpma(f64)), 0).value;
    var trailer := Trailer(false, now - start).value;
    InsertedTag(CLOCK_SYNC, ClockSync(f64, timestamp, now), timestamp);
    InsertedTag(MPMA, Mpma(f64), 0);
    StripOne(mpma, trailer, more);
    StripOne(sync, trailer, mpma + trailer + more);
    assert (sync + trailer) + (mpma + trailer) + more == sync + trailer + (mpma + trailer + more);
  }

  /** Stripping what a step wrote gives back the tag it copied, unless that looks inserted. */
  ghost predicate StripsBack(step: Step, rest: seq<Byte>, more: seq<Byte>)
    requires |rest| >= 11
  {
    var n := 15 + PayloadSize(rest);
    && (step == Stop(step.bytes, Done) ==> |rest| < n && Strip(step.bytes) == rest)
    && (step.Next? ==>
          |rest| >= n && Strip(step.bytes + more) == (if LooksInserted(rest[..n]) then [] else rest[..n]) + Strip(more))
  }

  lemma StripTrailed(rest: seq<Byte>, now: real, start: real, more: seq<Byte>)
    requires |rest| >= 11
    ensures StripsBack(CopyTrailed(rest, now, start), rest, more)
  {
    var step, n := CopyTrailed(rest, now, start), 15 + PayloadSize(rest);
    hide Trailer, LooksInserted, VideoCodec;
    if step.Next? {
      assert rest[..n][1..4] == rest[1..4];
      StripOne(rest[..n], Trailer(rest[0] == VIDEO, now - start).value, more);
    }
  }

  lemma StripPrepended(pair: seq<Byte>, step: Step, rest: seq<Byte>, more: seq<Byte>)
    requires |rest| >= 11 && StripsBack(step, rest, more)
    requires Strip(pair + step.bytes) == Strip(step.bytes)
    requires Strip(pair + (step.bytes + more)) == Strip(step.bytes + more)
    ensures StripsBack(Prepend(pair, step), rest, more)
  {
    hide Strip, LooksInserted, PayloadSize;
    assert (pair + step.bytes) + more == pair + (step.bytes + more);
  }

  lemma StripStep(f64: Doubles, rest: seq<Byte>, now: real, due: bool, start: real, more: seq<Byte>)
    requires |rest| >= 11
    ensures StripsBack(CopyOne(f64, rest, now, due, start), rest, more)
  {
    StripTrailed(rest, now, start, more);
    hide SyncPair, CopyTrailed, Strip, Timestamp;
    var pair, tail := SyncPair(f64, Timestamp(rest), now, start), CopyTrailed(rest, now, start);
    if due && pair.ok {
      StripPair(f64, Timestamp(rest), now, start, tail.bytes);
      StripPair(f64, Timestamp(rest), now, start, tail.bytes + more);
      StripPrepended(pair.bytes, tail, rest, more);
    }
  }

  /** Stripping what was written for a source gives back its tags but those that look inserted. */
  lemma {:induction false} StripCopy(f64: Doubles, clock: nat -> real, rest: seq<Byte>, k: nat, last: real, start: real)
    requires Copy(f64, clock, rest, k, last, start).outcome.Done?
    ensures Strip(Copy(f64, clock, rest, k, last, start).bytes) == Kept(rest)
    decreases |rest|
  {
    if |rest| >= 11 {
      hide CopyOne, Strip, LooksInserted;
      var now := clock(k);
      var next, behind := if Due(now, last) then now else last, Behind(15 + PayloadSize(rest), rest);
      StripStep(f64, rest, now, Due(now, last), start, Copy(f64, clock, behind, k + 1, next, start).bytes);
      if CopyOne(f64, rest, now, Due(now, last), start).Next? {
        StripCopy(f64, clock, behind, k + 1, next, start);
        assert behind == rest[15 + PayloadSize(rest)..];
      }
    }
  }

  /** Taking out what was put in gives back the source's tags byte for byte, up to an incomplete tag
      header at its end, exactly if none of them looks like one put in. */
  lemma RewriteIsInvertible(f64: Doubles, clock: nat -> real, data: seq<Byte>)
    requires Rewrite(f64, clock, data).outcome.Done?
    ensures var r := Rewrite(f64, clock, data).bytes;
            && |r| >= 9 && r[..4] == data[..4] && r[4] == 7 && r[5..9] == data[5..9]
            && UpTo(4, r[9..]) == UpTo(4, data[9..])
            && (Strip(Behind(13, r)) == Whole(Behind(13, data)) <==> !HasInserted(Behind(13, data)))
  {
    var r, tags := Rewrite(f64, clock, data).bytes, Copy(f64, clock, Behind(13, data), 2, clock(0), clock(1));
    hide Copy, Strip, Kept, Whole, HasInserted;
    var first := UpTo(4, data[9..]);
    StripCopy(f64, clock, Behind(13, data), 2, clock(0), clock(1));
    KeptIsWhole(Behind(13, data));
    if |first| < 4 { ShortSource(f64, clock, 2, clock(0), clock(1)); }
    HeadLayout(data, first, tags.bytes);
  }

  lemma HeadLayout(data: seq<Byte>, first: seq<Byte>, more: seq<Byte>)
    requires |data| >= 9 && (|first| == 4 || (|first| < 4 && more == []))
    ensures var r := data[..4] + [7] + data[5..9] + first + more;
            && |r| >= 9 && r[..4] == data[..4] && r[4] == 7 && r[5..9] == data[5..9]
            && UpTo(4, r[9..]) == first && Behind(13, r) == more
  {
    var r := data[..4] + [7] + data[5..9] + first + more;
    assert r[9..] == first + more;
  }

  lemma ShortSource(f64: Doubles, clock: nat -> real, k: nat, last: real, start: real)
    ensures Copy(f64, clock, [], k, last, start).bytes == []
  {}

  const FLV_HEAD: seq<Byte> := [0x46, 0x4C, 0x56, 1, 5, 0, 0, 0, 9, 0, 0, 0, 0]

  /** A source made of a header and one tag. */
  function OneTag(tag: seq<Byte>): seq<Byte> {
    FLV_HEAD + tag
  }

  lemma OneTagParts(tag: seq<Byte>)
    ensures var data := OneTag(tag); |data| >= 9 && data[..3] == Ascii("FLV") && Behind(13, data) == tag
  {}

  /** A clock that never goes back, read within the 64 bits of a trailer. */
  ghost predicate GoodClock(clock: nat -> real) {
    && (forall i, j :: 0 <= i <= j ==> clock(i) <= clock(j))
    && (forall i :: 0 <= i ==> (clock(i) - clock(1)) * TIMESCALE_VIDEO as real < (TWO_32 * TWO_32) as real)
  }

  lemma TrailerFits(clock: nat -> real, k: nat, isVideo: bool)
    requires GoodClock(clock) && k >= 1
    ensures Trailer(isVideo, clock(k) - clock(1)).Some?
  {
    assert clock(1) <= clock(k);
    TrailerRoundTrip(isVideo, clock(k) - clock(1));
  }

  lemma SyncFits(f64: Doubles, clock: nat -> real, k: nat, header: seq<Byte>)
    requires GoodClock(clock) && k >= 1 && |header| >= 11
    ensures SyncPair(f64, Timestamp(header), clock(k), clock(1)).ok
  {
    hide ClockSync, Mpma, Trailer;
    TrailerFits(clock, k, false);
  }

  /** How a source's tags end, told from the source alone: the first complete video tag that is not
      H.264 stops the copying. */
  function Verdict(rest: seq<Byte>): Outcome
    decreases |rest|
  {
    if |rest| < 11 then Done
    else
      var n := 15 + PayloadSize(rest);
      if |rest| < n then Done
      else if rest[0] == VIDEO && n > 15 && !IsH264(VideoCodec(rest[11..n])) then UnsupportedCodec(VideoCodec(rest[11..n]))
      else Verdict(rest[n..])
  }

  lemma CopyOneEndsAs(f64: Doubles, clock: nat -> real, rest: seq<Byte>, k: nat, due: bool)
    requires GoodClock(clock) && k >= 1 && |rest| >= 11
    ensures var step, n := CopyOne(f64, rest, clock(k), due, clock(1)), 15 + PayloadSize(rest);
            if step.Next? then |rest| >= n && Verdict(rest) == Verdict(Behind(n, rest))
            else step.outcome == Verdict(rest)
  {
    SyncFits(f64, clock, k, rest);
    TrailerFits(clock, k, rest[0] == VIDEO);
    hide SyncPair, Trailer, Timestamp, VideoCodec, IsH264, GoodClock;
    var n := 15 + PayloadSize(rest);
    if |rest| >= n { assert Behind(n, rest) == rest[n..]; }
  }

  lemma BehindIsLess(rest: seq<Byte>)
    requires |rest| >= 11
    ensures |Behind(15 + PayloadSize(rest), rest)| < |rest|
  {
    hide PayloadSize;
  }

  lemma OutcomeNext(f64: Doubles, clock: nat -> real, rest: seq<Byte>, k: nat, last: real, start: real)
    requires |rest| >= 11
    ensures var now := clock(k);
            Copy(f64, clock, rest, k, last, start).outcome
            == match CopyOne(f64, rest, now, Due(now, last), start)
               case Stop(bytes, outcome) => outcome
               case Next(bytes) =>
                 Copy(f64, clock, Behind(15 + PayloadSize(rest), rest), k + 1, if Due(now, last) then now else last, start).outcome
  {
    hide CopyOne, PayloadSize, Behind;
  }

  lemma {:induction false} CopyEndsAs(f64: Doubles, clock: nat -> real, rest: seq<Byte>, k: nat, last: real)
    requires GoodClock(clock) && k >= 1
    ensures Copy(f64, clock, rest, k, last, clock(1)).outcome == Verdict(rest)
    decreases |rest|
  {
    hide *;
    if |rest| < 11 {
      TooShortToCopy(f64, clock, rest, k, last, clock(1));
    } else {
      var now := clock(k);
      var behind, next := Behind(15 + PayloadSize(rest), rest), if Due(now, last) then now else last;
      OutcomeNext(f64, clock, rest, k, last, clock(1));
      CopyOneEndsAs(f64, clock, rest, k, Due(now, last));
      BehindIsLess(rest);
      CopyEndsAs(f64, clock, behind, k + 1, next);
    }
  }

  lemma TooShortToCopy(f64: Doubles, clock: nat -> real, rest: seq<Byte>, k: nat, last: real, start: real)
    requires |rest| < 11
    ensures Copy(f64, clock, rest, k, last, start).outcome == Verdict(rest)
  {}

  /** With a clock that never goes back, how a rewrite ends depends on the source alone. */
  lemma RewriteEndsAs(f64: Doubles, clock: nat -> real, data: seq<Byte>)
    requires GoodClock(clock)
    ensures Rewrite(f64, clock, data).outcome
            == if |data| < 9 || data[..3] != Ascii("FLV") then NotFlv else Verdict(Behind(13, data))
  {
    CopyEndsAs(f64, clock, Behind(13, data), 2, clock(0));
  }

  /** Stripping loses a source's own tag if it is named like one put in: this source has only that. */
  lemma OwnSyncIsLost(f64: Doubles, clock: nat -> real)
    requires GoodClock(clock)
    ensures var own := Tag(SCRIPT, ScriptPayload(CLOCK_SYNC, []), 0).value;
            var r := Rewrite(f64, clock, OneTag(own));
            && r.outcome == Done && HasInserted(own)
            && Whole(Behind(13, OneTag(own))) == own && |own| == 29 && Strip(Behind(13, r.bytes)) == []
  {
    var own := Tag(SCRIPT, ScriptPayload(CLOCK_SYNC, []), 0).value;
    TagRoundTrip(SCRIPT, ScriptPayload(CLOCK_SYNC, []), 0);
    InsertedTag(CLOCK_SYNC, [], 0);
    OneTagParts(own);
    assert own[..29] == own && own[29..] == [];
    hide Tag, Copy, Strip, LooksInserted;
    assert Kept(own) == [];
    RewriteEndsAs(f64, clock, OneTag(own));
    var tags := Copy(f64, clock, own, 2, clock(0), clock(1));
    StripCopy(f64, clock, own, 2, clock(0), clock(1));
    HeadLayout(OneTag(own), UpTo(4, OneTag(own)[9..]), tags.bytes);
  }

  /** A complete video tag with an enhanced header passes exactly if the four bytes behind its first
      spell h264; the FourCC of H.264 itself, avc1, does not. */
  lemma EnhancedPassesIfSpelled(rest: seq<Byte>)
    requires |rest| >= 11 && PayloadSize(rest) > 0 && |rest| >= 15 + PayloadSize(rest)
    requires rest[0] == VIDEO && rest[11] >= 0x80
    ensures Verdict(rest) == (if rest[12..16] == Ascii("h264") then Verdict(rest[15 + PayloadSize(rest)..])
                              else UnsupportedCodec(Enhanced(rest[12..16])))
    ensures Ascii("avc1") != Ascii("h264")
  {
    assert Ascii("avc1")[0] != Ascii("h264")[0];
    hide Ascii, PayloadSize;
    var n := 15 + PayloadSize(rest);
    EnhancedCodec(rest, n);
    hide VideoCodec;
    var codec := VideoCodec(rest[11..n]);
    assert Verdict(rest) == if IsH264(codec) then Verdict(rest[n..]) else UnsupportedCodec(codec);
  }

  lemma EnhancedCodec(rest: seq<Byte>, n: nat)
    requires 16 <= n <= |rest| && rest[11] >= 0x80
    ensures VideoCodec(rest[11..n]) == Enhanced(rest[12..16])
  {
    var a, b := rest[11..n][1..5], rest[12..16];
    assert |a| == 4 && |b| == 4;
    assert a[0] == b[0] && a[1] == b[1] && a[2] == b[2] && a[3] == b[3];
    assert a == b;
  }

  /** An enhanced tag that spells h264, and nothing else, is rewritten to its end. */
  lemma SpelledH264IsPushed(f64: Doubles, clock: nat -> real)
    requires GoodClock(clock)
    ensures var tag: seq<Byte> := [VIDEO, 0, 0, 5, 0, 0, 0, 0, 0, 0, 0, 0x90, 0x68, 0x32, 0x36, 0x34, 0, 0, 0, 16];
            && VideoCodec(tag[11..]) == Enhanced(Ascii("h264"))
            && Rewrite(f64, clock, OneTag(tag)).outcome == Done
  {
    var tag: seq<Byte> := [VIDEO, 0, 0, 5, 0, 0, 0, 0, 0, 0, 0, 0x90, 0x68, 0x32, 0x36, 0x34, 0, 0, 0, 16];
    assert tag[12..16] == Ascii("h264") && tag[11..][1..5] == tag[12..16];
    assert tag[1..4] == [0, 0, 5];
    EnhancedPassesIfSpelled(tag);
    assert tag[20..] == [];
    OneTagParts(tag);
    RewriteEndsAs(f64, clock, OneTag(tag));
  }

  /** Syncs come at least five seconds apart, the first five seconds after the start. */
  ghost predicate WellSpaced(syncs: seq<real>, last: real) {
    && (syncs != [] ==> syncs[0] - last >= CLOCK_SYNC_INTERVAL_S)
    && forall i :: 0 <= i < |syncs| - 1 ==> syncs[i + 1] - syncs[i] >= CLOCK_SYNC_INTERVAL_S
  }

  lemma {:induction false} CopyIsWellSpaced(f64: Doubles, clock: nat -> real, rest: seq<Byte>, k: nat, last: real, start: real)
    ensures WellSpaced(Copy(f64, clock, rest, k, last, start).syncs, last)
    decreases |rest|
  {
    if |rest| >= 11 {
      hide CopyOne;
      var now := clock(k);
      var next := if Due(now, last) then now else last;
      CopyIsWellSpaced(f64, clock, Behind(15 + PayloadSize(rest), rest), k + 1, next, start);
    }
  }

  lemma SyncsAreWellSpaced(f64: Doubles, clock: nat -> real, data: seq<Byte>)
    ensures WellSpaced(Rewrite(f64, clock, data).syncs, clock(0))
  {
    CopyIsWellSpaced(f64, clock, Behind(13, data), 2, clock(0), clock(1));
  }

  // ----- the loops --------------------------------------------------------------------------------

  /** A source of bytes that hands out as many as it likes of those asked for, and none at its end. */
  class Reader {
    var rest: seq<Byte>
    var sizes: seq<nat>          // how much it hands out per call, at least one byte; then all

    constructor (data: seq<Byte>, sizes: seq<nat>)
      ensures rest == data
    {
      rest, this.sizes := data, sizes;
    }

    method Read(n: nat) returns (chunk: seq<Byte>)
      modifies this
      ensures old(rest) == chunk + rest && |chunk| <= n
      ensures chunk == [] ==> n == 0 || rest == []
    {
      var m := if n < |rest| then n else |rest|;
      if sizes != [] {
        if m > sizes[0] { m := if sizes[0] == 0 then 1 else sizes[0]; }
        sizes := sizes[1..];
      }
      chunk, rest := rest[..m], rest[m..];
    }
  }

  /** n bytes, or what is left: however the source cuts them. */
  method ReadExact(r: Reader, n: nat) returns (buf: seq<Byte>)
    modifies r
    ensures buf == UpTo(n, old(r.rest)) && r.rest == Behind(n, old(r.rest))
  {
    buf := [];
    while |buf| < n
      invariant |buf| <= n && old(r.rest) == buf + r.rest
      decreases n - |buf|
    {
      var chunk := r.Read(n - |buf|);
      if chunk == [] {
        assert old(r.rest) == buf;
        return;
      }
      buf := buf + chunk;
    }
    assert old(r.rest)[..n] == buf;
  }

  method RewriteFlv(f64: Doubles, clock: nat -> real, r: Reader) returns (sent: Sent)
    modifies r
    ensures sent == Rewrite(f64, clock, old(r.rest))
  {
    var header := ReadExact(r, 9);
    if |header| < 9 || header[..3] != Ascii("FLV") { return Sent([], [], NotFlv); }
    var first := ReadExact(r, 4);
    assert r.rest == Behind(13, old(r.rest));
    var tags := CopyTags(f64, clock, r);
    sent := tags.(bytes := header[..4] + [7] + header[5..9] + first + tags.bytes);
  }

  function Then(a: Sent, b: Sent): Sent {
    Sent(a.bytes + b.bytes, a.syncs + b.syncs, b.outcome)
  }

  /** One round of the loop. */
  lemma CopyRound(f64: Doubles, clock: nat -> real, rest: seq<Byte>, k: nat, last: real, start: real, sent: Sent)
    ensures var now := clock(k);
            var due := Due(now, last);
            var syncs := sent.syncs + (if due then [now] else []);
            Then(sent, Copy(f64, clock, rest, k, last, start))
            == if |rest| < 11 then sent.(outcome := Done)
               else match CopyOne(f64, rest, now, due, start)
                    case Stop(bytes, outcome) => Sent(sent.bytes + bytes, syncs, outcome)
                    case Next(bytes) =>
                      Then(Sent(sent.bytes + bytes, syncs, Done),
                           Copy(f64, clock, Behind(15 + PayloadSize(rest), rest), k + 1, if due then now else last, start))
  {
    hide CopyOne, PayloadSize, Behind;
    assert sent.bytes + [] == sent.bytes && sent.syncs + [] == sent.syncs;
    if |rest| >= 11 {
      var now := clock(k);
      var syncs := if Due(now, last) then [now] else [];
      var step := CopyOne(f64, rest, now, Due(now, last), start);
      var more := Copy(f64, clock, Behind(15 + PayloadSize(rest), rest), k + 1, if Due(now, last) then now else last, start);
      assert step.Next? ==> Copy(f64, clock, rest, k, last, start) == Then(Sent(step.bytes, syncs, Done), more);
      hide Copy;
      ThenThen(sent, Sent(step.bytes, syncs, Done), more);
    }
  }

  lemma ThenThen(a: Sent, b: Sent, d: Sent)
    ensures Then(a, Then(b, d)) == Then(Then(a, b), d)
  {
    assert a.bytes + (b.bytes + d.bytes) == a.bytes + b.bytes + d.bytes;
    assert a.syncs + (b.syncs + d.syncs) == a.syncs + b.syncs + d.syncs;
  }

  method CopyTags(f64: Doubles, clock: nat -> real, r: Reader) returns (sent: Sent)
    modifies r
    ensures sent == Copy(f64, clock, old(r.rest), 2, clock(0), clock(1))
  {
    var last, start, k := clock(0), clock(1), 2;
    sent := Sent([], [], Done);
    ghost var all := Copy(f64, clock, r.rest, k, last, start);
    assert all == Then(sent, all);
    hide CopyOne, Copy, Then;
    while true
      invariant sent.outcome.Done?
      invariant all == Then(sent, Copy(f64, clock, r.rest, k, last, start))
      decreases |r.rest|
    {
      ghost var rest := r.rest;
      CopyRound(f64, clock, rest, k, last, start, sent);
      var header := ReadExact(r, 11);
      if |header| < 11 { return; }
      var now := clock(k);
      k := k + 1;
      var due := Due(now, last);
      if due {
        last := now;
        sent := sent.(syncs := sent.syncs + [now]);
      }
      assert sent.syncs + [] == sent.syncs;
      var step := CopyTag(f64, r, header, now, due, start, rest);
      sent := sent.(bytes := sent.bytes + step.bytes);
      if step.Stop? { return sent.(outcome := step.outcome); }
    }
  }

  /** The tag whose header has just been read. */
  method CopyTag(f64: Doubles, r: Reader, header: seq<Byte>, now: real, due: bool, start: real, ghost rest: seq<Byte>)
    returns (step: Step)
    requires |header| == 11 && |rest| >= 11 && header == UpTo(11, rest) && r.rest == Behind(11, rest)
    modifies r
    ensures step == CopyOne(f64, rest, now, due, start)
    ensures step.Next? ==> r.rest == Behind(15 + PayloadSize(rest), rest)
  {
    hide SyncPair, Trailer, VideoCodec, Timestamp;
    SameHeader(header, rest);
    var size, bytes := PayloadSize(header), [];
    if due {
      var pair := SyncPair(f64, Timestamp(header), now, start);
      bytes := pair.bytes;
      if !pair.ok { return Stop(bytes, OutOfRange); }
    }
    var body := ReadExact(r, size + 4);
    HeaderAndBody(header, body, rest, size);
    hide UpTo, Behind;
    if |body| < size + 4 { return Stop(bytes + (header + body), Done); }
    if header[0] == VIDEO && size > 0 && !IsH264(VideoCodec(body)) {
      assert bytes + [] == bytes;
      return Stop(bytes, UnsupportedCodec(VideoCodec(body)));
    }
    var trailer := Trailer(header[0] == VIDEO, now - start);
    if trailer.None? { return Stop(bytes + (header + body), OutOfRange); }
    step := Next(bytes + (header + body + trailer.value));
  }

  /** A header and what is read behind it. */
  lemma HeaderAndBody(header: seq<Byte>, body: seq<Byte>, rest: seq<Byte>, size: nat)
    requires |header| == 11 && |rest| >= 11 && header == UpTo(11, rest) && body == UpTo(size + 4, Behind(11, rest))
    ensures header + body == UpTo(15 + size, rest) && (|body| < size + 4 <==> |rest| < 15 + size)
    ensures |body| == size + 4 ==> body == rest[11..15 + size] && header + body == rest[..15 + size]
    ensures Behind(size + 4, Behind(11, rest)) == Behind(15 + size, rest)
  {}

  lemma SameHeader(header: seq<Byte>, rest: seq<Byte>)
    requires |header| == 11 && |rest| >= 11 && header == rest[..11]
    ensures header[0] == rest[0] && PayloadSize(header) == PayloadSize(rest) && Timestamp(header) == Timestamp(rest)
  {
    assert header[1..4] == rest[1..4] && header[7..8] == rest[7..8] && header[4..7] == rest[4..7];
  }
}
