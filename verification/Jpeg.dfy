/** Splitting an MJPEG byte stream into its frames. The stream arrives in chunks cut anywhere; what
    comes out must not depend on the cuts, and must be the JPEGs that went in. */
module Jpeg {
  import opened Bytes
  import opened Wrappers

  /** buf.find of the two bytes 0xFF, second, from an offset on. */
  function Find(buf: seq<Byte>, second: Byte, from: nat): (r: Option<nat>)
    ensures r.Some? ==> from <= r.value && r.value + 2 <= |buf| && IsPair(buf, second, r.value)
    ensures r.Some? ==> forall i :: from <= i < r.value ==> !IsPair(buf, second, i)
    ensures r.None? ==> forall i :: from <= i ==> !IsPair(buf, second, i)
    decreases |buf| - from
  {
    if from + 2 > |buf| then None
    else if IsPair(buf, second, from) then Some(from)
    else Find(buf, second, from + 1)
  }

  predicate IsPair(buf: seq<Byte>, second: Byte, i: int) {
    0 <= i && i + 2 <= |buf| && buf[i] == 0xFF && buf[i + 1] == second
  }

  const SOI: Byte := 0xD8
  const EOI: Byte := 0xD9
  const SOS: Byte := 0xDA

  // Where the JPEG at the start of a buffer ends, if that can be told yet.
  datatype Look = Incomplete | Bad | End(at: nat)

  /** The two bytes behind a marker. */
  function Length(buf: seq<Byte>, pos: nat): nat
    requires pos + 4 <= |buf|
  {
    Word(buf[pos + 2], buf[pos + 3])
  }

  function Word(hi: int, lo: int): int {
    hi * 256 + lo
  }

  /** The header from pos on: segments are skipped by their length (a table may hold FF D9), up to the
      start of scan; from there on FF D9 is the end. */
  function Scan(buf: seq<Byte>, pos: nat): (r: Look)
    ensures r.End? ==> pos + 4 < r.at <= |buf|
    decreases |buf| - pos
  {
    if pos + 4 > |buf| then Incomplete
    else if buf[pos] != 0xFF then Bad
    else if buf[pos + 1] == 0xFF then Scan(buf, pos + 1)   // fill byte
    else
      var seg := Length(buf, pos);
      if buf[pos + 1] == SOS then
        var end := Find(buf, EOI, pos + 2 + seg);
        if end.None? then Incomplete else End(end.value + 2)
      else
        Scan(buf, pos + 2 + seg)
  }

  /** What a buffer starting with a start marker holds. */
  function LookAt(buf: seq<Byte>): (r: Look)
    ensures r.End? ==> 6 < r.at <= |buf|
  {
    Scan(buf, 2)
  }

  /** The complete frames of a buffer, and the bytes kept for later. */
  function Drain(buf: seq<Byte>): (r: (seq<seq<Byte>>, seq<Byte>))
    decreases |buf|
  {
    var start := Find(buf, SOI, 0);
    if start.None? then
      ([], LastByte(buf))        // it may be the first half of a start marker
    else
      var b := buf[start.value..];
      match LookAt(b)
      case Bad => Drain(b[2..])  // resync on the next start marker
      case Incomplete => ([], b)
      case End(n) => var more := Drain(b[n..]); ([b[..n]] + more.0, more.1)
  }

  function LastByte(buf: seq<Byte>): seq<Byte> {
    if buf == [] then [] else [buf[|buf| - 1]]
  }

  // ----- cuts do not matter -----------------------------------------------------------------------

  /** A pair found stays found when more bytes arrive. */
  lemma FindGrows(buf: seq<Byte>, more: seq<Byte>, second: Byte, from: nat)
    requires Find(buf, second, from).Some?
    ensures Find(buf + more, second, from) == Find(buf, second, from)
  {
    var k := Find(buf, second, from).value;
    assert IsPair(buf + more, second, k);
    var r := Find(buf + more, second, from);
    if r.value < k { assert IsPair(buf, second, r.value); }
  }

  /** So does the answer about a frame, once there is one. */
  lemma {:induction false} ScanGrows(buf: seq<Byte>, more: seq<Byte>, pos: nat)
    requires !Scan(buf, pos).Incomplete?
    ensures Scan(buf + more, pos) == Scan(buf, pos)
    decreases |buf| - pos
  {
    if buf[pos] == 0xFF {
      if buf[pos + 1] == 0xFF {
        ScanGrows(buf, more, pos + 1);
      } else {
        var seg := Length(buf, pos);
        if buf[pos + 1] == SOS {
          FindGrows(buf, more, EOI, pos + 2 + seg);
        } else {
          ScanGrows(buf, more, pos + 2 + seg);
        }
      }
    }
  }

  /** Searching behind g bytes that start no pair, or in the rest alone. */
  lemma {:induction false} FindShifts(w: seq<Byte>, g: nat, from: nat)
    requires g <= |w|
    ensures var whole, rest := Find(w, SOI, g + from), Find(w[g..], SOI, from);
            if rest.None? then whole.None? else whole == Some(g + rest.value)
    decreases |w| - from
  {
    if g + from + 2 <= |w| {
      assert w[g..][from] == w[g + from] && w[g..][from + 1] == w[g + from + 1];
      FindShifts(w, g, from + 1);
    }
  }

  lemma {:induction false} FindSkips(w: seq<Byte>, g: nat, from: nat)
    requires from <= g && forall i :: from <= i < g ==> !IsPair(w, SOI, i)
    ensures Find(w, SOI, from) == Find(w, SOI, g)
    decreases g - from
  {
    if from < g { FindSkips(w, g, from + 1); }
  }

  /** Without a start marker only the last byte can matter later. */
  lemma OnlyLastByteMatters(a: seq<Byte>, b: seq<Byte>)
    requires Find(a, SOI, 0).None? && a != []
    ensures Drain(a + b) == Drain(LastByte(a) + b)
  {
    var w, g := a + b, |a| - 1;
    forall i | 0 <= i < g
      ensures !IsPair(w, SOI, i)
    {
      assert w[i] == a[i] && w[i + 1] == a[i + 1];
      assert !IsPair(a, SOI, i);
    }
    FindSkips(w, g, 0);
    FindShifts(w, g, 0);
    assert w[g..] == LastByte(a) + b;
    hide Find, LookAt;
    DrainsFrom(w, g);
  }

  lemma DrainsFrom(w: seq<Byte>, g: nat)
    requires g < |w|
    requires var whole, rest := Find(w, SOI, 0), Find(w[g..], SOI, 0);
             if rest.None? then whole.None? else whole == Some(g + rest.value)
    ensures Drain(w) == Drain(w[g..])
  {
    hide Find, Drain;
    var rest := Find(w[g..], SOI, 0);
    if rest.Some? {
      SkipJunk(w);
      SkipJunk(w[g..]);
      assert w[g + rest.value..] == w[g..][rest.value..];
    } else {
      NoStart(w);
      NoStart(w[g..]);
    }
  }

  lemma NoStart(w: seq<Byte>)
    requires Find(w, SOI, 0).None?
    ensures Drain(w) == ([], LastByte(w))
  {
    hide Find, LookAt;
  }

  /** A buffer behaves like itself from its first start marker on. */
  lemma SkipJunk(buf: seq<Byte>)
    requires Find(buf, SOI, 0).Some?
    ensures var b := buf[Find(buf, SOI, 0).value..];
            Find(b, SOI, 0) == Some(0) && Drain(b) == Drain(buf)
  {
    var b := buf[Find(buf, SOI, 0).value..];
    assert IsPair(b, SOI, 0);
    assert Find(b, SOI, 0) == Some(0);
    assert b[0..] == b;
  }

  /** Draining in two steps is draining at once: the frames so far, then those of what was kept
      together with the new bytes. */
  lemma {:induction false} DrainInSteps(a: seq<Byte>, b: seq<Byte>)
    ensures var first := Drain(a);
            var second := Drain(first.1 + b);
            Drain(a + b) == (first.0 + second.0, second.1)
    decreases |a|, 1
  {
    var start := Find(a, SOI, 0);
    if start.None? {
      if a != [] { OnlyLastByteMatters(a, b); }
      assert [] + Drain(LastByte(a) + b).0 == Drain(LastByte(a) + b).0;
    } else {
      FindGrows(a, b, SOI, 0);
      var s := a[start.value..];
      assert (a + b)[start.value..] == s + b;
      SkipJunk(a + b);
      SkipJunk(a);
      DrainFrameInSteps(s, b);
    }
  }

  lemma {:induction false} DrainFrameInSteps(s: seq<Byte>, b: seq<Byte>)
    requires Find(s, SOI, 0) == Some(0)
    ensures var first := Drain(s);
            var second := Drain(first.1 + b);
            Drain(s + b) == (first.0 + second.0, second.1)
    decreases |s|, 0
  {
    FindGrows(s, b, SOI, 0);
    assert s[0..] == s && (s + b)[0..] == s + b;
    match LookAt(s)
    case Bad =>
      ScanGrows(s, b, 2);
      assert (s + b)[2..] == s[2..] + b;
      DrainInSteps(s[2..], b);
    case Incomplete =>
      assert [] + Drain(s + b).0 == Drain(s + b).0;
    case End(n) =>
      ScanGrows(s, b, 2);
      assert (s + b)[n..] == s[n..] + b && (s + b)[..n] == s[..n];
      DrainInSteps(s[n..], b);
      FourParts([], [s[..n]], Drain(s[n..]).0, Drain(Drain(s[n..]).1 + b).0);
  }

  lemma FourParts<T>(a: seq<T>, b: seq<T>, c: seq<T>, d: seq<T>)
    ensures a + b + c + d == a + b + (c + d)
    ensures b + c + d == b + (c + d)
  {}

  function Concat(chunks: seq<seq<Byte>>): seq<Byte> {
    if chunks == [] then [] else Concat(chunks[..|chunks| - 1]) + chunks[|chunks| - 1]
  }

  /** Chunk by chunk: the frames sent and the buffer after all of them. */
  function Feed(chunks: seq<seq<Byte>>): (seq<seq<Byte>>, seq<Byte>) {
    if chunks == [] then ([], [])
    else
      var before := Feed(chunks[..|chunks| - 1]);
      var r := Drain(before.1 + chunks[|chunks| - 1]);
      (before.0 + r.0, r.1)
  }

  /** However a stream is cut, the frames are those of the whole stream. */
  lemma {:induction false} ChunksDoNotMatter(chunks: seq<seq<Byte>>)
    ensures Feed(chunks) == Drain(Concat(chunks))
  {
    if chunks != [] {
      var front := chunks[..|chunks| - 1];
      ChunksDoNotMatter(front);
      DrainInSteps(Concat(front), chunks[|chunks| - 1]);
    }
  }

  // ----- what went in comes out -------------------------------------------------------------------

  /** A marker segment before the scan: fill bytes, a marker with a length, and its payload
      (section B.1.1.4 of ITU-T T.81). */
  datatype Segment = Segment(fill: nat, marker: Byte, payload: seq<Byte>)

  /** scan: everything from behind the scan header to the end marker. */
  datatype Image = Image(segments: seq<Segment>, fill: nat, header: seq<Byte>, scan: seq<Byte>)

  predicate ValidSegment(s: Segment) {
    s.marker != 0xFF && s.marker != SOS && |s.payload| + 2 < 0x1_0000
  }

  predicate ValidImage(j: Image) {
    (forall k :: 0 <= k < |j.segments| ==> ValidSegment(j.segments[k])) && |j.header| + 2 < 0x1_0000
  }

  function Fill(n: nat): (r: seq<Byte>)
    ensures |r| == n && forall i :: 0 <= i < n ==> r[i] == 0xFF
  {
    seq(n, i => 0xFF)
  }

  /** The marker, the length of what follows with its own two bytes, and the payload. */
  function Marked(marker: Byte, payload: seq<Byte>): seq<Byte> {
    [0xFF, marker, (|payload| + 2) / 256 % 256, (|payload| + 2) % 256] + payload
  }

  function Header(segments: seq<Segment>): seq<Byte> {
    if segments == [] then []
    else Fill(segments[0].fill) + (Marked(segments[0].marker, segments[0].payload) + Header(segments[1..]))
  }

  function Encode(j: Image): seq<Byte> {
    [0xFF, SOI] + (Header(j.segments) + (Fill(j.fill) + (Marked(SOS, j.header) + (j.scan + [0xFF, EOI]))))
  }

  /** Where the end marker is found, counted from the scan. */
  function ScanEnd(scan: seq<Byte>): (r: nat)
    ensures r <= |scan| && (r == |scan| <==> forall i :: !IsPair(scan, EOI, i))
  {
    var found := Find(scan, EOI, 0);
    if found.Some? then found.value else |scan|
  }

  /** The buffer holds s at pos. */
  ghost predicate Holds(buf: seq<Byte>, pos: nat, s: seq<Byte>) {
    pos + |s| <= |buf| && forall i :: 0 <= i < |s| ==> buf[pos + i] == s[i]
  }

  lemma HoldsParts(buf: seq<Byte>, pos: nat, a: seq<Byte>, b: seq<Byte>)
    requires Holds(buf, pos, a + b)
    ensures Holds(buf, pos, a) && Holds(buf, pos + |a|, b)
  {
    forall i | 0 <= i < |a|
      ensures buf[pos + i] == a[i]
    {
      assert (a + b)[i] == a[i];
    }
    forall i | 0 <= i < |b|
      ensures buf[pos + |a| + i] == b[i]
    {
      assert (a + b)[|a| + i] == b[i];
      assert buf[pos + (|a| + i)] == b[i];
    }
  }

  /** Fill bytes are passed over. */
  lemma {:induction false} ScanFill(buf: seq<Byte>, pos: nat, fill: nat)
    requires Holds(buf, pos, Fill(fill)) && pos + fill + 4 <= |buf| && buf[pos + fill] == 0xFF
    ensures Scan(buf, pos) == Scan(buf, pos + fill)
    decreases fill
  {
    if fill > 0 {
      assert Fill(fill) == Fill(1) + Fill(fill - 1);
      HoldsParts(buf, pos, Fill(1), Fill(fill - 1));
      assert buf[pos] == Fill(1)[0];
      if fill > 1 { assert buf[pos + 1 + 0] == Fill(fill - 1)[0]; }
      ScanFill(buf, pos + 1, fill - 1);
    }
  }

  lemma HoldsMarked(buf: seq<Byte>, pos: nat, marker: Byte, payload: seq<Byte>, rest: seq<Byte>)
    requires Holds(buf, pos, Marked(marker, payload) + rest) && |payload| + 2 < 0x1_0000
    ensures pos + 4 <= |buf| && buf[pos] == 0xFF && buf[pos + 1] == marker
    ensures Length(buf, pos) == |payload| + 2 && Holds(buf, pos + 2 + (|payload| + 2), rest)
  {
    var m := Marked(marker, payload);
    HoldsParts(buf, pos, m, rest);
    assert buf[pos + 0] == m[0] && buf[pos + 1] == m[1] && buf[pos + 2] == m[2] && buf[pos + 3] == m[3];
  }

  /** Segments are passed over by their lengths, whatever they hold. */
  lemma {:induction false} ScanHeader(buf: seq<Byte>, pos: nat, segments: seq<Segment>, rest: seq<Byte>)
    requires forall k :: 0 <= k < |segments| ==> ValidSegment(segments[k])
    requires Holds(buf, pos, Header(segments) + rest)
    ensures Scan(buf, pos) == Scan(buf, pos + |Header(segments)|)
    ensures Holds(buf, pos + |Header(segments)|, rest)
    decreases |segments|
  {
    hide Holds, Header, Fill, Marked, Scan, Length;
    if segments == [] {
      HeaderOfNone(segments, rest);
    } else {
      var s, more := segments[0], Header(segments[1..]);
      var m := Marked(s.marker, s.payload);
      HeaderSplit(segments, rest);
      HoldsParts(buf, pos, Fill(s.fill), m + (more + rest));
      HoldsMarked(buf, pos + s.fill, s.marker, s.payload, more + rest);
      ScanFill(buf, pos, s.fill);
      ScanSegment(buf, pos + s.fill, s);
      HeaderLength(segments);
      ScanHeader(buf, pos + s.fill + (4 + |s.payload|), segments[1..], rest);
    }
  }

  lemma HeaderOfNone(segments: seq<Segment>, rest: seq<Byte>)
    requires segments == []
    ensures Header(segments) + rest == rest && |Header(segments)| == 0
  {}

  lemma HeaderSplit(segments: seq<Segment>, rest: seq<Byte>)
    requires segments != []
    ensures var s := segments[0];
            Header(segments) + rest == Fill(s.fill) + (Marked(s.marker, s.payload) + (Header(segments[1..]) + rest))
  {
    hide Fill, Marked;
  }

  /** One segment is passed over. */
  lemma ScanSegment(buf: seq<Byte>, pos: nat, s: Segment)
    requires ValidSegment(s) && pos + 4 <= |buf| && buf[pos] == 0xFF && buf[pos + 1] == s.marker
    requires Length(buf, pos) == |s.payload| + 2
    ensures Scan(buf, pos) == Scan(buf, pos + (4 + |s.payload|))
  {
    hide Length;
  }

  lemma HeaderLength(segments: seq<Segment>)
    requires segments != []
    ensures |Header(segments)| == segments[0].fill + (4 + |segments[0].payload|) + |Header(segments[1..])|
  {}

  /** The end marker of a scan is the first FF D9 in it. */
  lemma FindScanEnd(buf: seq<Byte>, pos: nat, scan: seq<Byte>)
    requires Holds(buf, pos, scan + [0xFF, EOI])
    ensures Find(buf, EOI, pos) == Some(pos + ScanEnd(scan))
  {
    var s, n := scan + [0xFF, EOI], ScanEnd(scan);
    assert buf[pos + n] == s[n] && buf[pos + (n + 1)] == s[n + 1];
    assert IsPair(buf, EOI, pos + n);
    forall i | pos <= i < pos + n
      ensures !IsPair(buf, EOI, i)
    {
      assert !IsPair(scan, EOI, i - pos);
      assert buf[pos + (i - pos)] == s[i - pos] && buf[pos + (i - pos + 1)] == s[i - pos + 1];
    }
  }

  /** Looking at an encoded image with anything behind it finds the first FF D9 behind its scan
      header, even if its tables hold one. */
  lemma LookAtImage(j: Image, tail: seq<Byte>)
    requires ValidImage(j)
    ensures LookAt(Encode(j) + tail) == End(|Encode(j)| - (|j.scan| - ScanEnd(j.scan)))
  {
    hide ScanEnd, Scan, Holds, Header, Fill, Marked, Encode, Find;
    var buf := Encode(j) + tail;
    EncodeLength(j);
    EncodedHolds(j, tail);
    ScanHeader(buf, 2, j.segments, Fill(j.fill) + (Marked(SOS, j.header) + (j.scan + [0xFF, EOI])));
    LookAtScan(buf, 2 + |Header(j.segments)|, j.fill, j.header, j.scan);
  }

  lemma EncodedHolds(j: Image, tail: seq<Byte>)
    ensures Holds(Encode(j) + tail, 2,
                  Header(j.segments) + (Fill(j.fill) + (Marked(SOS, j.header) + (j.scan + [0xFF, EOI]))))
  {
    hide Header, Fill, Marked;
    var buf := Encode(j) + tail;
    assert Holds(buf, 0, Encode(j));
    HoldsParts(buf, 0, [0xFF, SOI], Header(j.segments) + (Fill(j.fill) + (Marked(SOS, j.header) + (j.scan + [0xFF, EOI]))));
  }

  lemma LookAtScan(buf: seq<Byte>, pos: nat, fill: nat, header: seq<Byte>, scan: seq<Byte>)
    requires Holds(buf, pos, Fill(fill) + (Marked(SOS, header) + (scan + [0xFF, EOI]))) && |header| + 2 < 0x1_0000
    ensures Scan(buf, pos) == End(pos + fill + 4 + |header| + ScanEnd(scan) + 2)
  {
    var data := scan + [0xFF, EOI];
    HoldsParts(buf, pos, Fill(fill), Marked(SOS, header) + data);
    HoldsMarked(buf, pos + fill, SOS, header, data);
    ScanFill(buf, pos, fill);
    hide Holds, Fill, Marked, ScanEnd;
    FindScanEnd(buf, pos + fill + 4 + |header|, scan);
  }

  lemma EncodeLength(j: Image)
    ensures |Encode(j)| == 2 + |Header(j.segments)| + j.fill + 4 + |j.header| + |j.scan| + 2
  {}

  /** Bytes without a start marker. */
  predicate Junk(s: seq<Byte>) {
    Find(s, SOI, 0).None?
  }

  lemma FindBehindJunk(junk: seq<Byte>, rest: seq<Byte>)
    requires Junk(junk) && |rest| >= 2 && rest[0] == 0xFF && rest[1] == SOI
    ensures Find(junk + rest, SOI, 0) == Some(|junk|)
  {
    var buf := junk + rest;
    assert IsPair(buf, SOI, |junk|);
    forall i | 0 <= i < |junk|
      ensures !IsPair(buf, SOI, i)
    {
      if i + 1 < |junk| { assert !IsPair(junk, SOI, i); }
    }
  }

  /** An image behind junk is given out whole exactly if its scan holds no FF D9 of its own. */
  lemma ImageComesOut(junk: seq<Byte>, j: Image, tail: seq<Byte>)
    requires Junk(junk) && ValidImage(j)
    ensures var r := Drain(junk + Encode(j) + tail);
            var whole := forall i :: !IsPair(j.scan, EOI, i);
            && r.0 != []
            && (whole <==> r.0[0] == Encode(j))
            && (whole ==> r == ([Encode(j)] + Drain(tail).0, Drain(tail).1))
  {
    var e := Encode(j);
    var rest := e + tail;
    FindBehindJunk(junk, rest);
    assert junk + e + tail == junk + rest;
    assert (junk + rest)[|junk|..] == rest;
    LookAtImage(j, tail);
    var n := |e| - (|j.scan| - ScanEnd(j.scan));
    assert |rest[..n]| == n;
    if n == |e| { assert rest[..n] == e && rest[n..] == tail; }
  }

  /** Entropy-coded data: behind an FF comes a stuffed zero or a restart marker. */
  predicate Stuffed(s: seq<Byte>) {
    forall i :: 0 <= i < |s| && s[i] == 0xFF ==> i + 1 < |s| && (s[i + 1] == 0 || 0xD0 <= s[i + 1] <= 0xD7)
  }

  /** So an image with one scan always comes out whole. */
  lemma OneScanComesOut(junk: seq<Byte>, j: Image, tail: seq<Byte>)
    requires Junk(junk) && ValidImage(j) && Stuffed(j.scan)
    ensures Drain(junk + Encode(j) + tail) == ([Encode(j)] + Drain(tail).0, Drain(tail).1)
  {
    ImageComesOut(junk, j, tail);
    assert forall i :: !IsPair(j.scan, EOI, i);
  }

  // ----- an image with two scans ------------------------------------------------------------------

  const DQT: Byte := 0xDB
  const DHT: Byte := 0xC4
  const SOF: Byte := 0xC0

  /** So many quantizers of 1. */
  function Ones(n: nat): (r: seq<Byte>)
    ensures |r| == n && forall i :: 0 <= i < n ==> r[i] == 1
  {
    seq(n, _ => 1)
  }

  /** A Huffman table with one code, of one bit, for the symbol 0. */
  function OneCode(destination: Byte): seq<Byte> {
    [destination, 1, 0, 0, 0, 0, 0, 0, 0, 0, 0, 0, 0, 0, 0, 0, 0, 0]
  }

  /** 8 by 8 pixels, two components, all coefficients 0. */
  const FRAME := [Segment(0, DQT, [0] + Ones(64)), Segment(0, SOF, [8, 0, 8, 0, 8, 2, 1, 0x11, 0, 2, 0x11, 1]),
                  Segment(0, DHT, OneCode(0)), Segment(0, DHT, OneCode(0x10))]

  /** The second component's quantizers start with 255 and 217. */
  const QUANTIZERS: seq<Byte> := [1, 0xFF, EOI] + Ones(62)

  /** The header of the scan of one component. */
  function ScanOf(component: Byte): seq<Byte> {
    [1, component, 0, 0, 63, 0]
  }

  /** One block: two codes of one bit, filled up with ones. */
  const BLOCK: seq<Byte> := [0x3F]

  /** Each component in its own scan, with the second one's quantizers between the scans. */
  const TWO_SCANS := Image(FRAME, 0, ScanOf(1), BLOCK + Marked(DQT, QUANTIZERS) + Marked(SOS, ScanOf(2)) + BLOCK)

  /** What is behind FF D9 in those quantizers. */
  const BEHIND: seq<Byte> := Ones(62) + Marked(SOS, ScanOf(2)) + BLOCK + [0xFF, EOI]

  /** This image of two scans comes out cut at the FF D9 in the table between them; the rest of it is junk. */
  lemma CutAtItsFirstEnd()
    ensures ValidImage(TWO_SCANS) && Stuffed(BLOCK) && |QUANTIZERS| == 65
    ensures |BEHIND| < |Encode(TWO_SCANS)|
    ensures var e := Encode(TWO_SCANS);
            var cut := e[..|e| - |BEHIND|];
            Drain(e) == ([cut], [EOI]) && e == cut + BEHIND
  {
    var e := Encode(TWO_SCANS);
    TwoScansAreValid();
    TwoScansEnd();
    EncodeLength(TWO_SCANS);
    EncodeEnds(TWO_SCANS);
    StartsWithMarker(TWO_SCANS);
    hide Find, Scan, Encode, Header, Marked, Drain, ScanEnd;
    LookAtImage(TWO_SCANS, []);
    assert e + [] == e;
    var n := |e| - |BEHIND|;
    assert e[n..] == BEHIND;
    DrainsOne(e, n);
    BehindIsJunk();
    assert [e[..n]] + Drain(BEHIND).0 == [e[..n]];
  }

  lemma TwoScansAreValid()
    ensures ValidImage(TWO_SCANS) && Stuffed(BLOCK) && |QUANTIZERS| == 65
  {}

  /** The scans with the table between them, and where they are taken to end. */
  lemma TwoScansEnd()
    ensures var scan := TWO_SCANS.scan;
            ScanEnd(scan) == 6 && |scan| == 81 && |BEHIND| == 75 && scan[8..] + [0xFF, EOI] == BEHIND
  {
    var scan := TWO_SCANS.scan;
    assert scan[..8] == [0x3F, 0xFF, DQT, 0, 67, 1, 0xFF, EOI];
    assert IsPair(scan, EOI, 6);
  }

  lemma EncodeEnds(j: Image)
    ensures |Encode(j)| >= |j.scan| + 2 && Encode(j)[|Encode(j)| - (|j.scan| + 2)..] == j.scan + [0xFF, EOI]
  {
    hide Header, Fill, Marked;
  }

  lemma StartsWithMarker(j: Image)
    ensures |Encode(j)| >= 2 && Find(Encode(j), SOI, 0) == Some(0)
  {
    hide Header, Fill, Marked;
    assert IsPair(Encode(j), SOI, 0);
  }

  lemma BehindIsJunk()
    ensures Drain(BEHIND) == ([], [EOI])
  {
    assert forall i :: 0 <= i < |BEHIND| ==> BEHIND[i] != SOI;
    forall i: int
      ensures !IsPair(BEHIND, SOI, i)
    {}
    assert Find(BEHIND, SOI, 0).None?;
  }

  lemma DrainsOne(buf: seq<Byte>, n: nat)
    requires Find(buf, SOI, 0) == Some(0) && LookAt(buf) == End(n)
    ensures Drain(buf) == ([buf[..n]] + Drain(buf[n..]).0, Drain(buf[n..]).1)
  {
    assert buf[0..] == buf;
  }

  datatype Piece = Piece(junk: seq<Byte>, image: Image)

  predicate WellFormed(p: Piece) {
    Junk(p.junk) && ValidImage(p.image) && Find(p.image.scan, EOI, 0).None?
  }

  function Stream(pieces: seq<Piece>): seq<Byte> {
    if pieces == [] then [] else pieces[0].junk + Encode(pieces[0].image) + Stream(pieces[1..])
  }

  function Images(pieces: seq<Piece>): seq<seq<Byte>> {
    if pieces == [] then [] else [Encode(pieces[0].image)] + Images(pieces[1..])
  }

  lemma {:induction false} ImagesComeOut(pieces: seq<Piece>, tail: seq<Byte>)
    requires forall k :: 0 <= k < |pieces| ==> WellFormed(pieces[k])
    ensures Drain(Stream(pieces) + tail) == (Images(pieces) + Drain(tail).0, Drain(tail).1)
    decreases |pieces|
  {
    hide Drain, Encode, Find, ValidImage;
    if pieces == [] {
      assert Stream(pieces) + tail == tail;
      assert [] + Drain(tail).0 == Drain(tail).0;
    } else {
      var p, more := pieces[0], Stream(pieces[1..]);
      FourParts(p.junk, Encode(p.image), more, tail);
      ImageComesOut(p.junk, p.image, more + tail);
      ImagesComeOut(pieces[1..], tail);
      FourParts([], [Encode(p.image)], Images(pieces[1..]), Drain(tail).0);
    }
  }

  /** A frame that has not arrived in full gives nothing yet. */
  lemma UnfinishedGivesNothing(junk: seq<Byte>, j: Image, n: nat)
    requires Junk(junk) && ValidImage(j) && Find(j.scan, EOI, 0).None? && n < |Encode(j)|
    ensures Drain(junk + Encode(j)[..n]).0 == []
  {
    var e := Encode(j);
    var part := e[..n];
    if n < 2 {
      forall i
        ensures !IsPair(junk + part, SOI, i)
      {
        if i + 1 < |junk| { assert !IsPair(junk, SOI, i); }
      }
    } else {
      FindBehindJunk(junk, part);
      assert (junk + part)[|junk|..] == part;
      LookAtImage(j, []);
      assert e + [] == e == part + e[n..];
      if !LookAt(part).Incomplete? { ScanGrows(part, e[n..], 2); }
    }
  }

  /** However a stream of images with junk between them is cut, what comes out is those images; an
      unfinished one at the end is ignored. */
  lemma SplitsIntoItsImages(chunks: seq<seq<Byte>>, pieces: seq<Piece>, junk: seq<Byte>, last: Image, n: nat)
    requires forall k :: 0 <= k < |pieces| ==> WellFormed(pieces[k])
    requires Junk(junk) && ValidImage(last) && Find(last.scan, EOI, 0).None? && n < |Encode(last)|
    requires Concat(chunks) == Stream(pieces) + (junk + Encode(last)[..n])
    ensures Feed(chunks).0 == Images(pieces)
  {
    ChunksDoNotMatter(chunks);
    ImagesComeOut(pieces, junk + Encode(last)[..n]);
    UnfinishedGivesNothing(junk, last, n);
  }

  // ----- the loops --------------------------------------------------------------------------------

  method JpegEnd(buf: seq<Byte>) returns (r: Look)
    ensures r == LookAt(buf)
  {
    var pos := 2;
    while pos + 4 <= |buf|
      invariant Scan(buf, 2) == Scan(buf, pos)
      decreases |buf| - pos
    {
      if buf[pos] != 0xFF { return Bad; }
      var marker := buf[pos + 1];
      if marker == 0xFF {
        pos := pos + 1;
        continue;
      }
      var seg := Length(buf, pos);
      if marker == SOS {
        var end := Find(buf, EOI, pos + 2 + seg);
        return if end.None? then Incomplete else End(end.value + 2);
      }
      pos := pos + 2 + seg;
    }
    return Incomplete;
  }

  /** The chunks up to the empty one that ends the stream. */
  function Delivered(chunks: seq<seq<Byte>>): seq<seq<Byte>> {
    if chunks == [] || chunks[0] == [] then [] else [chunks[0]] + Delivered(chunks[1..])
  }

  method JpegFrames(chunks: seq<seq<Byte>>) returns (frames: seq<seq<Byte>>)
    ensures frames == Feed(Delivered(chunks)).0
  {
    hide Drain;
    var buf: seq<Byte> := [];
    frames := [];
    var k := 0;
    ghost var done: seq<seq<Byte>> := [];
    while k < |chunks|
      invariant 0 <= k <= |chunks|
      invariant Delivered(chunks) == done + Delivered(chunks[k..])
      invariant (frames, buf) == Feed(done)
    {
      DeliveredNext(chunks, done, k);
      if chunks[k] == [] { return; }
      var more;
      more, buf := TakeFrames(buf + chunks[k]);
      frames := frames + more;
      assert (done + [chunks[k]])[..|done|] == done;
      done := done + [chunks[k]];
      k := k + 1;
    }
    assert done + [] == done;
  }

  lemma DeliveredNext(chunks: seq<seq<Byte>>, done: seq<seq<Byte>>, k: nat)
    requires k < |chunks|
    ensures done + Delivered(chunks[k..])
            == if chunks[k] == [] then done else done + [chunks[k]] + Delivered(chunks[k + 1..])
  {
    assert chunks[k..][0] == chunks[k] && chunks[k..][1..] == chunks[k + 1..];
    assert done + [] == done;
  }

  method TakeFrames(all: seq<Byte>) returns (frames: seq<seq<Byte>>, buf: seq<Byte>)
    ensures (frames, buf) == Drain(all)
  {
    buf, frames := all, [];
    assert [] + Drain(all).0 == Drain(all).0;
    while true
      invariant Drain(all) == (frames + Drain(buf).0, Drain(buf).1)
      decreases |buf|
    {
      assert frames + [] == frames;
      var start := Find(buf, SOI, 0);
      if start.None? {
        buf := LastByte(buf);
        return;
      }
      assert Drain(buf) == Drain(buf[start.value..]) by { SkipJunk(buf); }
      buf := buf[start.value..];
      var look := JpegEnd(buf);
      match look
      case Bad => buf := buf[2..];
      case Incomplete => return;
      case End(n) =>
        FourParts([], frames, [buf[..n]], Drain(buf[n..]).0);
        frames := frames + [buf[..n]];
        buf := buf[n..];
    }
  }
}
