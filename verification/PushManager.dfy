/** Which channels of an ONVIF camera are pushed to the console. The manager keeps the wanted channels
    and the source of each device, and after every operation the running pushes are exactly those. */
module PushManager {
  import opened Wrappers

  type Device = string
  type Channel = string

  datatype Source = Source(url: string, audio: bool)

  /** A channel's stream name and destination. */
  datatype Want = Want(name: string, dest: string)

  datatype Key = Key(device: Device, channel: Channel)

  /** What a push sends where. */
  datatype Job = Job(url: string, want: Want)

  /** A channel's settings as the console sends them. */
  datatype Settings = Settings(dests: seq<string>, name: Option<string>)

  type Sources = map<Device, Source>
  type Wanted = map<Device, map<Channel, Want>>

  /** A running push: ffmpeg and its rewriter, until it is stopped. */
  class FlvPush {
    const key: Key
    const job: Job
    const audio: bool
    var stopped: bool

    constructor (key: Key, job: Job, audio: bool)
      ensures this.key == key && this.job == job && this.audio == audio && !stopped
    {
      this.key, this.job, this.audio, stopped := key, job, audio, false;
    }

    method Stop()
      modifies this
      ensures stopped
    {
      stopped := true;
    }
  }

  /** The channels wanted for a device: none without a source (or with an empty URL). */
  function WantedFor(sources: Sources, wanted: Wanted, device: Device): map<Channel, Want> {
    if device in sources && sources[device].url != "" && device in wanted then wanted[device] else map[]
  }

  /** What should run under a key. good: the destinations a push can be made for. */
  function Desired(sources: Sources, wanted: Wanted, good: string -> bool, k: Key): Option<Job> {
    var channels := WantedFor(sources, wanted, k.device);
    if k.channel in channels && good(channels[k.channel].dest) then
      Some(Job(sources[k.device].url, channels[k.channel]))
    else None
  }

  predicate StartsWith(s: string, part: string) {
    |part| <= |s| && s[..|part|] == part
  }

  predicate Contains(s: string, part: string) {
    exists i :: 0 <= i <= |s| && StartsWith(s[i..], part)
  }

  /** One channel's settings: pushed, stopped, or left as it was. */
  function Apply(channels: map<Channel, Want>, channel: Channel, s: Settings): map<Channel, Want> {
    if s.dests == [] || (exists k :: 0 <= k < |s.dests| && Contains(s.dests[k], "/dev/null")) then channels - {channel}
    else if s.name.Some? && s.name.value != "" && StartsWith(s.dests[0], "tcp://") then
      channels[channel := Want(s.name.value, s.dests[0])]
    else channels
  }

  function ApplyAll(channels: map<Channel, Want>, video: seq<(Channel, Settings)>): map<Channel, Want> {
    if video == [] then channels
    else
      var last := video[|video| - 1];
      Apply(ApplyAll(channels, video[..|video| - 1]), last.0, last.1)
  }

  function ChannelsOf(wanted: Wanted, device: Device): map<Channel, Want> {
    if device in wanted then wanted[device] else map[]
  }

  class Manager {
    const good: string -> bool
    var sources: Sources
    var wanted: Wanted
    var pushes: map<Key, FlvPush>
    ghost var started: set<FlvPush>           // every push ever started

    /** Only running pushes with a good destination are in the table, each under its own key; a push that is
        not in the table has been stopped. */
    ghost predicate Valid()
      reads this, started
    {
      && (forall k :: k in pushes ==> pushes[k] in started && pushes[k].key == k && !pushes[k].stopped)
      && (forall k :: k in pushes ==> good(pushes[k].job.want.dest))
      && (forall p :: p in started && !p.stopped ==> p.key in pushes && pushes[p.key] == p)
    }

    ghost function Running(k: Key): Option<Job>
      reads this`pushes
    {
      if k in pushes then Some(pushes[k].job) else None
    }

    /** What runs under k is what should. */
    ghost predicate Right(k: Key)
      reads this`sources, this`wanted, this`pushes
    {
      Running(k) == Desired(sources, wanted, good, k)
    }

    ghost predicate Reconciled()
      reads this, started
    {
      Valid() && forall k :: Right(k)
    }

    /** Pushes of other devices are the same ones as before. */
    twostate predicate OthersUntouched(device: Device)
      reads this`pushes
    {
      forall k: Key :: k.device != device ==>
        (k in pushes <==> k in old(pushes)) && (k in pushes ==> pushes[k] == old(pushes[k]))
    }

    /** A push whose job did not change is the same one; any other was started with its source's audio
        flag. */
    ghost predicate Continues(before: map<Key, FlvPush>)
      reads this`pushes, this`sources
    {
      forall k :: k in pushes ==>
        if k in before && before[k].job == pushes[k].job then pushes[k] == before[k] else FromSource(k)
    }

    constructor (good: string -> bool)
      ensures Reconciled() && this.good == good && sources == map[] && wanted == map[] && pushes == map[] && started == {}
    {
      this.good, sources, wanted, pushes, started := good, map[], map[], map[], {};
    }

    /** Stop what is no longer wanted as it is, then start what is missing. */
    method Sync(device: Device)
      requires Valid() && forall k: Key :: k.device != device ==> Right(k)
      modifies this`pushes, this`started, started
      ensures Reconciled() && old(started) <= started && fresh(started - old(started))
      ensures OthersUntouched(device) && Continues(old(pushes))
      ensures forall k :: k in old(pushes) && old(Right(k)) ==> k in pushes && pushes[k] == old(pushes[k])
    {
      StopStale(device);
      ghost var kept := pushes;
      StartMissing(device);
      forall k | k in pushes && k !in kept
        ensures !(k in old(pushes) && old(pushes[k]).job == pushes[k].job)
      {
        assert Right(k);
      }
    }

    /** The push under k is stopped and removed unless it is what should run there. */
    method StopIfStale(k: Key)
      requires Valid() && k in pushes
      modifies this`pushes, pushes[k]
      ensures Valid()
      ensures pushes == if old(Right(k)) then old(pushes) else old(pushes) - {k}
    {
      var channels := WantedFor(sources, wanted, k.device);
      if k.channel !in channels || pushes[k].job != Job(sources[k.device].url, channels[k.channel]) {
        var p := pushes[k];
        pushes := pushes - {k};
        p.Stop();
      }
    }

    method StopStale(device: Device)
      requires Valid()
      modifies this`pushes, started
      ensures Valid()
      ensures forall k :: k in pushes ==> k in old(pushes) && pushes[k] == old(pushes[k])
      ensures forall k :: k in old(pushes) ==> (k in pushes <==> k.device != device || old(Right(k)))
    {
      hide Desired;
      var todo := set k | k in pushes && k.device == device;
      while todo != {}
        invariant Valid()
        invariant forall k :: k in todo ==> k in pushes && k.device == device
        invariant forall k :: k in pushes ==> k in old(pushes) && pushes[k] == old(pushes[k])
        invariant forall k :: k in old(pushes) ==> (k in pushes <==> k.device != device || k in todo || old(Right(k)))
        decreases |todo|
      {
        var k :| k in todo;
        todo := todo - {k};
        assert Right(k) == old(Right(k));
        hide Valid;
        PushIsStarted(k);
        StopIfStale(k);
      }
    }

    lemma PushIsStarted(k: Key)
      requires Valid() && k in pushes
      ensures pushes[k] in started
    {}

    /** A push is started under k if one should run there. */
    method StartIfMissing(k: Key)
      requires Valid() && k.channel in WantedFor(sources, wanted, k.device)
      modifies this`pushes, this`started
      ensures Valid() && Kept() && old(started) <= started && fresh(started - old(started))
      ensures forall l :: l != k ==> (l in pushes <==> l in old(pushes))
      ensures k !in old(pushes) ==> Right(k)
      ensures k in pushes && k !in old(pushes) ==> FromSource(k)
    {
      var channels := WantedFor(sources, wanted, k.device);
      if k !in pushes && good(channels[k.channel].dest) {   // a bad destination raises, and is logged
        var p := new FlvPush(k, Job(sources[k.device].url, channels[k.channel]), sources[k.device].audio);
        pushes := pushes[k := p];
        started := started + {p};
      }
    }

    /** The pushes there were are still there. */
    twostate predicate Kept()
      reads this`pushes
    {
      forall k :: k in old(pushes) ==> k in pushes && pushes[k] == old(pushes[k])
    }

    /** The push under k has its source's audio flag. */
    ghost predicate FromSource(k: Key)
      requires k in pushes
      reads this`pushes, this`sources
    {
      k.device in sources && pushes[k].audio == sources[k.device].audio
    }

    method StartMissing(device: Device)
      requires Valid() && forall k: Key :: k.device != device || k in pushes ==> Right(k)
      modifies this`pushes, this`started
      ensures Reconciled() && old(started) <= started && fresh(started - old(started))
      ensures OthersUntouched(device) && Kept() && forall k :: k in pushes && k !in old(pushes) ==> FromSource(k)
    {
      hide Desired, WantedFor, Valid;
      var todo := WantedFor(sources, wanted, device).Keys;
      Unwanted(device);
      while todo != {}
        invariant todo <= WantedFor(sources, wanted, device).Keys
        invariant Valid() && Kept()
        invariant forall k :: k in pushes && k !in old(pushes) ==> k.device == device && FromSource(k)
        invariant old(started) <= started && fresh(started - old(started))
        invariant forall k: Key :: k.device != device || k in pushes || k.channel !in todo ==> Right(k)
        decreases |todo|
      {
        var channel :| channel in todo;
        todo := todo - {channel};
        StartIfMissing(Key(device, channel));
      }
    }

    /** A channel nobody wants needs no push. */
    lemma Unwanted(device: Device)
      ensures forall k: Key :: k.device == device && k.channel !in WantedFor(sources, wanted, device) && k !in pushes ==> Right(k)
    {}

    // ----- the operations -------------------------------------------------------------------------

    method SetSource(device: Device, source: Source)
      requires Reconciled()
      modifies this`sources, this`pushes, this`started, started
      ensures Reconciled() && old(started) <= started && fresh(started - old(started))
      ensures sources == old(sources)[device := source]
      ensures OthersUntouched(device) && Continues(old(pushes))
      ensures device in old(sources) && old(sources)[device].url == source.url ==> pushes == old(pushes)
    {
      sources := sources[device := source];
      OthersStayRight(device);
      SameUrlStaysRight(device);
      Sync(device);
      forall k
        ensures k in pushes <==> Desired(sources, wanted, good, k).Some?
      {
        assert Right(k);
      }
    }

    /** With the same URL for a device everything that ran is what should run. */
    twostate lemma SameUrlStaysRight(device: Device)
      requires old(Reconciled()) && pushes == old(pushes) && wanted == old(wanted) && device in sources
      requires sources == old(sources)[device := sources[device]]
      ensures device in old(sources) && old(sources)[device].url == sources[device].url ==>
                forall k :: Right(k) && (k in pushes <==> Desired(sources, wanted, good, k).Some?)
    {
      if device in old(sources) && old(sources)[device].url == sources[device].url {
        forall k
          ensures Right(k) && (k in pushes <==> Desired(sources, wanted, good, k).Some?)
        {
          assert old(Right(k));
        }
      }
    }

    /** Streaming stopped: the wanted channels are remembered. */
    method StopDevice(device: Device)
      requires Reconciled()
      modifies this`sources, this`pushes, this`started, started
      ensures Reconciled() && old(started) <= started && fresh(started - old(started))
      ensures sources == old(sources) - {device}
      ensures OthersUntouched(device) && Continues(old(pushes)) && forall k: Key :: k.device == device ==> k !in pushes
    {
      sources := sources - {device};
      OthersStayRight(device);
      Sync(device);
      NoSourceNoPush(device);
    }

    /** The device is forgotten. */
    method ClearDevice(device: Device)
      requires Reconciled()
      modifies this`sources, this`wanted, this`pushes, this`started, started
      ensures Reconciled() && old(started) <= started && fresh(started - old(started))
      ensures sources == old(sources) - {device} && wanted == old(wanted) - {device}
      ensures OthersUntouched(device) && Continues(old(pushes)) && forall k: Key :: k.device == device ==> k !in pushes
    {
      sources := sources - {device};
      wanted := wanted - {device};
      OthersStayRight(device);
      Sync(device);
      NoSourceNoPush(device);
    }

    method Configure(device: Device, video: seq<(Channel, Settings)>)
      requires Reconciled()
      modifies this`wanted, this`pushes, this`started, started
      ensures Reconciled() && old(started) <= started && fresh(started - old(started))
      ensures wanted == old(wanted)[device := ApplyAll(ChannelsOf(old(wanted), device), video)]
      ensures OthersUntouched(device) && Continues(old(pushes))
    {
      if device !in wanted { wanted := wanted[device := map[]]; }
      for n := 0 to |video|
        invariant wanted == old(wanted)[device := ApplyAll(ChannelsOf(old(wanted), device), video[..n])]
        modifies this`wanted
      {
        assert video[..n + 1][..n] == video[..n];
        wanted := wanted[device := Apply(wanted[device], video[n].0, video[n].1)];
      }
      assert video[..|video|] == video;
      OthersStayRight(device);
      Sync(device);
    }

    method StopAll()
      requires Reconciled()
      modifies this`sources, this`wanted, this`pushes, started
      ensures Reconciled() && sources == map[] && wanted == map[] && pushes == map[]
      ensures forall p :: p in started ==> p.stopped
    {
      var todo := pushes.Keys;
      while todo != {}
        invariant todo <= pushes.Keys
        invariant forall k :: k in pushes ==> pushes[k] in started
        invariant forall p :: p in started && !p.stopped ==> p.key in todo && pushes[p.key] == p
        decreases |todo|
      {
        var k :| k in todo;
        todo := todo - {k};
        pushes[k].Stop();
      }
      pushes := map[];
      sources := map[];
      wanted := map[];
    }

    /** What was asked of one device does not change what other devices should run. */
    twostate lemma OthersStayRight(device: Device)
      requires old(Reconciled()) && pushes == old(pushes) && started == old(started)
      requires forall p :: p in started ==> p.stopped == old(p.stopped)
      requires forall d: Device :: d != device ==> (d in sources <==> d in old(sources)) && (d in wanted <==> d in old(wanted))
      requires forall d: Device :: d != device && d in sources ==> sources[d] == old(sources[d])
      requires forall d: Device :: d != device && d in wanted ==> wanted[d] == old(wanted[d])
      ensures Valid() && forall k: Key :: k.device != device ==> Right(k)
    {
      forall k: Key | k.device != device
        ensures Right(k)
      {
        assert old(Right(k));
      }
    }

    /** Any one operation. */
    method Do(op: Op)
      requires Reconciled()
      modifies this, started
      ensures Reconciled() && old(started) <= started && fresh(started - old(started))
      ensures Tables(sources, wanted) == After(Tables(old(sources), old(wanted)), op)
      ensures Continues(old(pushes))
    {
      match op
      case Set(d, source) => SetSource(d, source);
      case Stop(d) => StopDevice(d);
      case Clear(d) => ClearDevice(d);
      case Config(d, video) => Configure(d, video);
      case All => StopAll();
    }

    lemma GoesOn(ops: seq<Op>, n: nat, before: map<Key, FlvPush>)
      requires n < |ops| && RunAs(good, ops[..n], before) && Reconciled() && Continues(before)
      requires Tables(sources, wanted) == AfterAll(ops[..n + 1])
      ensures RunAs(good, ops[..n + 1], pushes)
    {
      hide Desired, AfterAll, AudioAfter, StartedBy, Valid;
      forall k
        ensures k in pushes <==> JobAfter(good, ops[..n + 1], k).Some?
        ensures k in pushes ==> JobAfter(good, ops[..n + 1], k) == Some(pushes[k].job)
        ensures k in pushes ==> pushes[k].audio == AudioAfter(good, ops[..n + 1], k)
      {
        assert Right(k);
        if k in pushes { AudioStep(good, ops, n, k); }
      }
    }

    lemma NoSourceNoPush(device: Device)
      requires Reconciled() && device !in sources
      ensures forall k: Key :: k.device == device ==> k !in pushes
    {
      forall k: Key | k.device == device
        ensures k !in pushes
      {
        assert Right(k);
      }
    }
  }

  /** Stopping a device and giving it the same source again brings every one of its channels back. */
  method StopAndResume(m: Manager, device: Device)
    requires m.Reconciled() && device in m.sources
    modifies m, m.started
    ensures m.Reconciled()
    ensures forall k :: m.Running(k) == old(m.Running(k))
  {
    var source := m.sources[device];
    m.StopDevice(device);
    m.SetSource(device, source);
    forall k
      ensures m.Running(k) == old(m.Running(k))
    {
      assert m.Right(k) && old(m.Right(k));
      assert m.sources == old(m.sources);
    }
  }

  /** Any sequence of operations. */
  datatype Op = Set(device: Device, source: Source) | Stop(device: Device) | Clear(device: Device)
              | Config(device: Device, video: seq<(Channel, Settings)>) | All

  datatype Tables = Tables(sources: Sources, wanted: Wanted)

  function After(t: Tables, op: Op): Tables {
    match op
    case Set(d, source) => t.(sources := t.sources[d := source])
    case Stop(d) => t.(sources := t.sources - {d})
    case Clear(d) => Tables(t.sources - {d}, t.wanted - {d})
    case Config(d, video) => t.(wanted := t.wanted[d := ApplyAll(ChannelsOf(t.wanted, d), video)])
    case All => Tables(map[], map[])
  }

  function AfterAll(ops: seq<Op>): Tables {
    if ops == [] then Tables(map[], map[]) else After(AfterAll(ops[..|ops| - 1]), ops[|ops| - 1])
  }

  /** What runs under a key after some operations. */
  function JobAfter(good: string -> bool, ops: seq<Op>, k: Key): Option<Job> {
    Desired(AfterAll(ops).sources, AfterAll(ops).wanted, good, k)
  }

  /** How many of the operations were done when the push running under k was started: it has run under
      the same job since. */
  function StartedBy(good: string -> bool, ops: seq<Op>, k: Key): (n: nat)
    requires JobAfter(good, ops, k).Some?
    ensures 0 < n <= |ops| && JobAfter(good, ops[..n], k) == JobAfter(good, ops, k)
  {
    var front := ops[..|ops| - 1];
    if JobAfter(good, front, k) == JobAfter(good, ops, k) then
      var n := StartedBy(good, front, k);
      assert front[..n] == ops[..n];
      n
    else
      assert ops[..|ops|] == ops;
      |ops|
  }

  /** The audio flag of the push running under k: that of its source when it was started. */
  function AudioAfter(good: string -> bool, ops: seq<Op>, k: Key): bool
    requires JobAfter(good, ops, k).Some?
  {
    AfterAll(ops[..StartedBy(good, ops, k)]).sources[k.device].audio
  }

  /** These pushes are what the operations ask for, each with the flag they started it with. */
  ghost predicate RunAs(good: string -> bool, ops: seq<Op>, pushes: map<Key, FlvPush>) {
    forall k ::
      && (k in pushes <==> JobAfter(good, ops, k).Some?)
      && (k in pushes ==> JobAfter(good, ops, k) == Some(pushes[k].job) && pushes[k].audio == AudioAfter(good, ops, k))
  }

  predicate Sets(op: Op, device: Device) {
    op.Set? && op.device == device
  }

  /** Each time the device was given a source since its push was started, the URL was the same. */
  lemma {:induction false} SourceSince(good: string -> bool, ops: seq<Op>, k: Key, j: nat)
    requires JobAfter(good, ops, k).Some? && StartedBy(good, ops, k) <= j < |ops| && Sets(ops[j], k.device)
    ensures ops[j].source.url == AfterAll(ops).sources[k.device].url
  {
    if j < |ops| - 1 {
      var front := ops[..|ops| - 1];
      assert front[j] == ops[j];
      SourceSince(good, front, k, j);
    }
  }

  /** Operation j is the last one that gives the device a source, and gives it the other flag. */
  ghost predicate FlipsAt(ops: seq<Op>, n: nat, device: Device, audio: bool, j: int) {
    && n <= j < |ops| && Sets(ops[j], device) && ops[j].source.audio != audio
    && forall i :: j < i < |ops| ==> !Sets(ops[i], device)
  }

  /** The last source the device was given since the n-th operation has another flag. */
  ghost predicate Flipped(ops: seq<Op>, n: nat, device: Device, audio: bool) {
    exists j :: FlipsAt(ops, n, device, audio, j)
  }

  lemma FlippedNext(ops: seq<Op>, n: nat, device: Device, audio: bool)
    requires n < |ops|
    ensures var front, last := ops[..|ops| - 1], ops[|ops| - 1];
            && (Sets(last, device) ==> (Flipped(ops, n, device, audio) <==> last.source.audio != audio))
            && (!Sets(last, device) ==> (Flipped(ops, n, device, audio) <==> Flipped(front, n, device, audio)))
  {
    hide FlipsAt;
    var front, last := ops[..|ops| - 1], ops[|ops| - 1];
    forall j: int
      ensures if Sets(last, device) then FlipsAt(ops, n, device, audio, j) <==> j == |ops| - 1 && last.source.audio != audio
              else FlipsAt(ops, n, device, audio, j) <==> FlipsAt(front, n, device, audio, j)
    {
      FlipsAtNext(ops, n, device, audio, j);
    }
    hide Sets;
    assert Flipped(ops, n, device, audio) <== FlipsAt(ops, n, device, audio, |ops| - 1);
  }

  lemma FlipsAtNext(ops: seq<Op>, n: nat, device: Device, audio: bool, j: int)
    requires n < |ops|
    ensures var front, last := ops[..|ops| - 1], ops[|ops| - 1];
            if Sets(last, device) then FlipsAt(ops, n, device, audio, j) <==> j == |ops| - 1 && last.source.audio != audio
            else FlipsAt(ops, n, device, audio, j) <==> FlipsAt(front, n, device, audio, j)
  {
    hide Sets;
    var front := ops[..|ops| - 1];
    assert forall i :: 0 <= i < |front| ==> ops[i] == front[i];
  }

  /** A running push keeps the audio flag it was started with: it differs from its source's exactly if
      the last source the device was given since then (with the same URL) has the other flag. */
  lemma {:induction false} AudioGoesStale(good: string -> bool, ops: seq<Op>, k: Key)
    requires JobAfter(good, ops, k).Some?
    ensures AfterAll(ops).sources[k.device].audio != AudioAfter(good, ops, k)
            <==> Flipped(ops, StartedBy(good, ops, k), k.device, AudioAfter(good, ops, k))
  {
    var front, n, audio := ops[..|ops| - 1], StartedBy(good, ops, k), AudioAfter(good, ops, k);
    if n == |ops| {
      assert ops[..n] == ops;
    } else {
      assert front[..n] == ops[..n];
      AudioGoesStale(good, front, k);
      FlippedNext(ops, n, k.device, audio);
      hide *;
      FlagNext(good, ops, k);
    }
  }

  /** The current flag after an operation that leaves the push under k running. */
  lemma FlagNext(good: string -> bool, ops: seq<Op>, k: Key)
    requires JobAfter(good, ops, k).Some? && StartedBy(good, ops, k) < |ops|
    ensures var front, last := ops[..|ops| - 1], ops[|ops| - 1];
            && JobAfter(good, front, k).Some?
            && StartedBy(good, front, k) == StartedBy(good, ops, k) && AudioAfter(good, front, k) == AudioAfter(good, ops, k)
            && AfterAll(ops).sources[k.device].audio
               == if Sets(last, k.device) then last.source.audio else AfterAll(front).sources[k.device].audio
  {
    var front := ops[..|ops| - 1];
    SourceNext(ops, k.device);
    StartedNext(good, ops, k);
    hide *;
    assert front[..StartedBy(good, front, k)] == ops[..StartedBy(good, front, k)];
    SameAudio(good, front, ops, k);
  }

  lemma StartedNext(good: string -> bool, ops: seq<Op>, k: Key)
    requires JobAfter(good, ops, k).Some? && StartedBy(good, ops, k) < |ops|
    ensures var front := ops[..|ops| - 1];
            && JobAfter(good, front, k) == JobAfter(good, ops, k) && StartedBy(good, front, k) == StartedBy(good, ops, k)
            && k.device in AfterAll(ops).sources && k.device in AfterAll(front).sources
  {
    hide AfterAll;
  }

  /** The source of a device with one operation more. */
  lemma SourceNext(ops: seq<Op>, device: Device)
    requires ops != []
    ensures var front, last := ops[..|ops| - 1], ops[|ops| - 1];
            device in AfterAll(ops).sources && device in AfterAll(front).sources ==>
              AfterAll(ops).sources[device] == if Sets(last, device) then last.source else AfterAll(front).sources[device]
  {}

  lemma SameAudio(good: string -> bool, a: seq<Op>, b: seq<Op>, k: Key)
    requires JobAfter(good, a, k).Some? && JobAfter(good, b, k).Some?
    requires a[..StartedBy(good, a, k)] == b[..StartedBy(good, b, k)]
    ensures AudioAfter(good, a, k) == AudioAfter(good, b, k)
  {}

  const DEST := "tcp://h:7550"

  lemma NullNeedsD(dest: string)
    ensures Contains(dest, "/dev/null") ==> 'd' in dest
  {
    if i :| 0 <= i <= |dest| && StartsWith(dest[i..], "/dev/null") { assert dest[i + 1] == dest[i..][..9][1]; }
  }

  lemma DestIsPushed(channel: Channel)
    ensures Apply(map[], channel, Settings([DEST], Some("n"))) == map[channel := Want("n", DEST)]
  {
    NullNeedsD(DEST);
    assert DEST[..6] == "tcp://";
    hide Contains;
  }

  /** A camera that loses its audio while it is pushed: the push still runs with audio. */
  lemma SilentCameraKeepsAudio(good: string -> bool)
    requires good("tcp://h:7550")
    ensures var k := Key("d", "c");
            var ops := [Config("d", [("c", Settings(["tcp://h:7550"], Some("n")))]), Set("d", Source("u", true)), Set("d", Source("u", false))];
            && JobAfter(good, ops, k) == Some(Job("u", Want("n", "tcp://h:7550")))
            && AudioAfter(good, ops, k) && !AfterAll(ops).sources["d"].audio
  {
    hide Apply;
    var k, settings := Key("d", "c"), Settings([DEST], Some("n"));
    var ops := [Config("d", [("c", settings)]), Set("d", Source("u", true)), Set("d", Source("u", false))];
    var wanted: Wanted := map["d" := map["c" := Want("n", DEST)]];
    DestIsPushed("c");
    assert [("c", settings)][..0] == [];
    assert ops[..3] == ops && ops[..2][..1] == ops[..1] && ops[..1][..0] == [];
    assert ApplyAll(map[], [("c", settings)]) == wanted["d"];
    assert AfterAll(ops[..1]) == After(AfterAll([]), ops[0]) == Tables(map[], wanted);
    assert AfterAll(ops[..2]) == Tables(map["d" := Source("u", true)], wanted);
    assert AfterAll(ops) == Tables(map["d" := Source("u", false)], wanted);
    assert StartedBy(good, ops[..2], k) == 2;
  }

  /** One operation more: the push goes on, or is started with the source's flag. */
  lemma AudioStep(good: string -> bool, ops: seq<Op>, n: nat, k: Key)
    requires n < |ops| && JobAfter(good, ops[..n + 1], k).Some?
    ensures AudioAfter(good, ops[..n + 1], k)
            == if JobAfter(good, ops[..n], k) == JobAfter(good, ops[..n + 1], k) then AudioAfter(good, ops[..n], k)
               else AfterAll(ops[..n + 1]).sources[k.device].audio
  {
    var more := ops[..n + 1];
    assert more[..n] == ops[..n];
    if JobAfter(good, ops[..n], k) == JobAfter(good, more, k) {
      var m := StartedBy(good, ops[..n], k);
      assert more[..m] == ops[..n][..m];
    } else {
      assert more[..n + 1] == more;
    }
  }

  /** After any operations the running pushes are exactly those the operations ask for, and every other
      push ever started has been stopped; each has the audio flag it was started with. */
  method RunAll(good: string -> bool, ops: seq<Op>) returns (m: Manager)
    ensures fresh(m) && m.Reconciled()
    ensures forall k :: m.Running(k) == Desired(AfterAll(ops).sources, AfterAll(ops).wanted, good, k)
    ensures forall p :: p in m.started ==> p.stopped || (p.key in m.pushes && m.pushes[p.key] == p)
    ensures forall k :: k in m.pushes ==> JobAfter(good, ops, k).Some? && m.pushes[k].audio == AudioAfter(good, ops, k)
  {
    m := new Manager(good);
    for n := 0 to |ops|
      invariant fresh(m) && fresh(m.started) && m.Reconciled() && m.good == good
      invariant Tables(m.sources, m.wanted) == AfterAll(ops[..n])
      invariant RunAs(good, ops[..n], m.pushes)
    {
      assert ops[..n + 1][..n] == ops[..n];
      ghost var before := m.pushes;
      m.Do(ops[n]);
      m.GoesOn(ops, n, before);
    }
    assert ops[..|ops|] == ops;
  }
}
