/** The plate vote: reads are grouped by Jaro-Winkler similarity, and the largest group votes character
    by character. Reals stand for the floats. */
module PlateVote {
  import opened Reals
  import opened Wrappers

  // ----- similarity -------------------------------------------------------------------------------

  /** Which characters of a and b have found a partner. */
  datatype Hits = Hits(a: seq<bool>, b: seq<bool>)

  function MaxNat(x: nat, y: nat): nat {
    if x >= y then x else y
  }

  function MinNat(x: nat, y: nat): nat {
    if x <= y then x else y
  }

  /** How far apart partners may be. */
  function Reach(a: string, b: string): nat {
    var half := MaxNat(|a|, |b|) / 2;
    if half >= 1 then half - 1 else 0
  }

  /** The first free partner of ch in b from j on, before end. */
  function Partner(ch: char, b: string, hit: seq<bool>, j: nat, end: nat): (r: Option<nat>)
    requires end <= |b| == |hit|
    ensures r.Some? ==> j <= r.value < end && !hit[r.value] && b[r.value] == ch
    decreases end - j
  {
    if j >= end then None
    else if !hit[j] && b[j] == ch then Some(j)
    else Partner(ch, b, hit, j + 1, end)
  }

  function Unmarked(n: nat): seq<bool> {
    seq(n, i => false)
  }

  /** The partners of the first n characters of a. */
  function Pairing(a: string, b: string, n: nat): (r: Hits)
    requires n <= |a|
    ensures |r.a| == |a| && |r.b| == |b| && forall i :: n <= i < |a| ==> !r.a[i]
  {
    if n == 0 then Hits(Unmarked(|a|), Unmarked(|b|))
    else
      var p, i := Pairing(a, b, n - 1), n - 1;
      var reach := Reach(a, b);
      var j := Partner(a[i], b, p.b, if i >= reach then i - reach else 0, MinNat(|b|, i + reach + 1));
      if j.Some? then Hits(p.a[i := true], p.b[j.value := true]) else p
  }

  function Count(hit: seq<bool>): nat {
    if hit == [] then 0 else Count(hit[..|hit| - 1]) + (if hit[|hit| - 1] then 1 else 0)
  }

  lemma {:induction false} CountSet(hit: seq<bool>, k: nat)
    requires k < |hit| && !hit[k]
    ensures Count(hit[k := true]) == Count(hit) + 1
  {
    var last := |hit| - 1;
    if k == last {
      assert hit[k := true][..last] == hit[..last];
    } else {
      CountSet(hit[..last], k);
      assert hit[k := true][..last] == hit[..last][k := true];
    }
  }

  lemma {:induction false} CountBounds(hit: seq<bool>)
    ensures Count(hit) <= |hit|
    ensures Count(hit) == |hit| <==> forall k :: 0 <= k < |hit| ==> hit[k]
    ensures (forall k :: 0 <= k < |hit| ==> !hit[k]) ==> Count(hit) == 0
  {
    if hit != [] {
      var last := |hit| - 1;
      CountBounds(hit[..last]);
      assert forall k :: 0 <= k < last ==> hit[..last][k] == hit[k];
    }
  }

  /** As many characters are marked on one side as on the other. */
  lemma {:induction false} EquallyManyMarked(a: string, b: string, n: nat)
    requires n <= |a|
    ensures Count(Pairing(a, b, n).a) == Count(Pairing(a, b, n).b)
  {
    if n == 0 {
      CountBounds(Unmarked(|a|));
      CountBounds(Unmarked(|b|));
    } else {
      EquallyManyMarked(a, b, n - 1);
      var p, r := Pairing(a, b, n - 1), Pairing(a, b, n);
      if r != p {
        var k :| 0 <= k < |b| && !p.b[k] && r == Hits(p.a[n - 1 := true], p.b[k := true]);
        CountSet(p.a, n - 1);
        CountSet(p.b, k);
      }
    }
  }

  /** The marked characters, in order. */
  function Marked(s: string, hit: seq<bool>): (r: string)
    requires |s| == |hit|
    ensures |r| == Count(hit)
  {
    if s == [] then []
    else
      var last := |s| - 1;
      Marked(s[..last], hit[..last]) + (if hit[last] then [s[last]] else [])
  }

  lemma {:induction false} AllMarked(s: string, hit: seq<bool>)
    requires |s| == |hit| && forall k :: 0 <= k < |hit| ==> hit[k]
    ensures Marked(s, hit) == s
  {
    if s != [] { AllMarked(s[..|s| - 1], hit[..|s| - 1]); }
  }

  function Differences(a: string, b: string): (r: nat)
    requires |a| == |b|
    ensures r <= |a| && (r == 0 <==> a == b)
  {
    if a == [] then 0
    else
      var last := |a| - 1;
      assert a == a[..last] + [a[last]] && b == b[..last] + [b[last]];
      Differences(a[..last], b[..last]) + (if a[last] != b[last] then 1 else 0)
  }

  /** The length of the common start, at most n. */
  function CommonStart(a: string, b: string, n: nat): (r: nat)
    ensures r <= n
  {
    if n == 0 || a == [] || b == [] || a[0] != b[0] then 0 else 1 + CommonStart(a[1..], b[1..], n - 1)
  }

  /** The Jaro similarity, m characters having partners, h of them out of place. */
  function Jaro(la: nat, lb: nat, m: nat, h: nat): real
    requires 0 < m <= la && m <= lb
  {
    (m as real / la as real + m as real / lb as real + (m as real - h as real / 2.0) / m as real) / 3.0
  }

  /** The Jaro similarity of two texts; 0 when nothing has a partner. */
  function JaroOf(a: string, b: string): real
    requires a != [] && b != []
  {
    var hits := Pairing(a, b, |a|);
    var m := Count(hits.a);
    EquallyManyMarked(a, b, |a|);
    CountBounds(hits.a);
    CountBounds(hits.b);
    if m == 0 then 0.0 else Jaro(|a|, |b|, m, Differences(Marked(a, hits.a), Marked(b, hits.b)))
  }

  function JaroWinkler(a: string, b: string): real {
    if a == b then 1.0
    else if a == [] || b == [] || JaroOf(a, b) == 0.0 then 0.0
    else JaroOf(a, b) + CommonStart(a, b, 4) as real * 0.1 * (1.0 - JaroOf(a, b))
  }

  lemma Quotient(m: nat, n: nat)
    requires 0 < m <= n
    ensures 0.0 < m as real / n as real <= 1.0
    ensures m as real / n as real == 1.0 <==> m == n
  {
    var q := m as real / n as real;
    assert q * n as real == m as real;
    assert (q - 1.0) * n as real == m as real - n as real;
    Signs(q - 1.0, n as real);
  }

  lemma JaroBounds(la: nat, lb: nat, m: nat, h: nat)
    requires 0 < m <= la && m <= lb && h <= m
    ensures 0.0 < Jaro(la, lb, m, h) <= 1.0
    ensures Jaro(la, lb, m, h) == 1.0 <==> m == la && m == lb && h == 0
  {
    Quotient(m, la);
    Quotient(m, lb);
    var t := (m as real - h as real / 2.0) / m as real;
    assert t * m as real == m as real - h as real / 2.0;
    assert 0.0 < t <= 1.0 && (t == 1.0 <==> h == 0) by { Lowered(m, h, t); }
  }

  lemma Lowered(m: nat, h: nat, t: real)
    requires 0 < m && h <= m && t * m as real == m as real - h as real / 2.0
    ensures 0.0 < t <= 1.0 && (t == 1.0 <==> h == 0)
  {
    var s := t - 1.0;
    Signs(t, m as real);
    Signs(s, m as real);
    assert s * m as real == t * m as real - m as real;
    assert s * m as real == -(h as real / 2.0);
  }

  /** Raising by a part of what is missing stays in [0, 1] and reaches 1 only from 1. */
  lemma Raised(jaro: real, p: real)
    requires 0.0 < jaro <= 1.0 && 0.0 <= p <= 0.4
    ensures 0.0 < jaro + p * (1.0 - jaro) <= 1.0
    ensures jaro + p * (1.0 - jaro) == 1.0 <==> jaro == 1.0
  {
    var x := 1.0 - jaro;
    Signs(p, x);
    Signs(1.0 - p, x);
    assert p * x >= 0.0;
    assert (1.0 - p) * x == x - p * x;
    assert jaro + p * (1.0 - jaro) == jaro + p * x;
  }

  lemma JaroOfBounds(a: string, b: string)
    requires a != [] && b != []
    ensures 0.0 <= JaroOf(a, b) <= 1.0 && (JaroOf(a, b) == 1.0 ==> a == b)
  {
    var hits := Pairing(a, b, |a|);
    var m := Count(hits.a);
    EquallyManyMarked(a, b, |a|);
    CountBounds(hits.a);
    CountBounds(hits.b);
    hide Pairing, Count;
    if m > 0 {
      var am, bm := Marked(a, hits.a), Marked(b, hits.b);
      JaroBounds(|a|, |b|, m, Differences(am, bm));
      hide Jaro, Differences, Marked;
      if JaroOf(a, b) == 1.0 {
        AllMarked(a, hits.a);
        AllMarked(b, hits.b);
      }
    }
  }

  /** Similarity lies between 0 and 1, and is 1 only for equal texts. */
  lemma SimilarityBounds(a: string, b: string)
    ensures 0.0 <= JaroWinkler(a, b) <= 1.0
    ensures JaroWinkler(a, b) == 1.0 <==> a == b
  {
    hide JaroOf, CommonStart;
    if a != b && a != [] && b != [] {
      JaroOfBounds(a, b);
      if JaroOf(a, b) != 0.0 { Raised(JaroOf(a, b), CommonStart(a, b, 4) as real * 0.1); }
    }
  }

  // ----- clusters ---------------------------------------------------------------------------------

  const PLATE_CLUSTER_SIMILARITY := 0.85

  datatype Read = Read(text: string, conf: real)

  type Cluster = seq<Read>

  function SimilaritySum(cluster: Cluster, text: string): real {
    if cluster == [] then 0.0
    else SimilaritySum(cluster[..|cluster| - 1], text) + JaroWinkler(text, cluster[|cluster| - 1].text)
  }

  predicate Fits(cluster: Cluster, text: string) {
    cluster != [] && SimilaritySum(cluster, text) / |cluster| as real >= PLATE_CLUSTER_SIMILARITY
  }

  /** The first of the clusters from c on that a text fits. */
  function FirstFit(clusters: seq<Cluster>, text: string, c: nat): (r: Option<nat>)
    requires c <= |clusters|
    ensures r.Some? ==> c <= r.value < |clusters| && Fits(clusters[r.value], text)
    ensures r.Some? ==> forall d :: c <= d < r.value ==> !Fits(clusters[d], text)
    ensures r.None? ==> forall d :: c <= d < |clusters| ==> !Fits(clusters[d], text)
    decreases |clusters| - c
  {
    if c == |clusters| then None
    else if Fits(clusters[c], text) then Some(c)
    else FirstFit(clusters, text, c + 1)
  }

  function Placed(clusters: seq<Cluster>, read: Read): seq<Cluster> {
    var c := FirstFit(clusters, read.text, 0);
    if c.Some? then clusters[c.value := clusters[c.value] + [read]] else clusters + [[read]]
  }

  function Clusters(seen: seq<Read>): seq<Cluster> {
    if seen == [] then [] else Placed(Clusters(seen[..|seen| - 1]), seen[|seen| - 1])
  }

  function All(clusters: seq<Cluster>): multiset<Read> {
    if clusters == [] then multiset{} else All(clusters[..|clusters| - 1]) + multiset(clusters[|clusters| - 1])
  }

  lemma {:induction false} AllAfterPlacing(clusters: seq<Cluster>, c: nat, read: Read)
    requires c < |clusters|
    ensures All(clusters[c := clusters[c] + [read]]) == All(clusters) + multiset{read}
  {
    var last := |clusters| - 1;
    var after := clusters[c := clusters[c] + [read]];
    if c == last {
      assert after[..last] == clusters[..last];
    } else {
      AllAfterPlacing(clusters[..last], c, read);
      assert after[..last] == clusters[..last][c := clusters[c] + [read]];
    }
  }

  /** The clusters partition the reads: each read is in exactly one, as often as it was read. */
  lemma {:induction false} ClustersPartition(seen: seq<Read>)
    ensures All(Clusters(seen)) == multiset(seen)
    ensures forall c :: 0 <= c < |Clusters(seen)| ==> Clusters(seen)[c] != []
  {
    if seen != [] {
      hide All, Placed;
      var front, read := seen[..|seen| - 1], seen[|seen| - 1];
      ClustersPartition(front);
      AllPlaced(Clusters(front), read);
      LastCounts(seen);
    }
  }

  lemma LastCounts(seen: seq<Read>)
    requires seen != []
    ensures multiset(seen) == multiset(seen[..|seen| - 1]) + multiset{seen[|seen| - 1]}
  {
    assert seen == seen[..|seen| - 1] + [seen[|seen| - 1]];
  }

  lemma AllPlaced(clusters: seq<Cluster>, read: Read)
    requires forall c :: 0 <= c < |clusters| ==> clusters[c] != []
    ensures All(Placed(clusters, read)) == All(clusters) + multiset{read}
    ensures forall c :: 0 <= c < |Placed(clusters, read)| ==> Placed(clusters, read)[c] != []
  {
    hide Fits;
    var c := FirstFit(clusters, read.text, 0);
    if c.Some? {
      AllAfterPlacing(clusters, c.value, read);
    } else {
      assert (clusters + [[read]])[..|clusters|] == clusters;
    }
  }

  // ----- the main group ---------------------------------------------------------------------------

  function MaxConf(seen: seq<Read>): real
    requires seen != []
  {
    if |seen| == 1 then seen[0].conf
    else
      var m, v := MaxConf(seen[..|seen| - 1]), seen[|seen| - 1].conf;
      if v > m then v else m
  }

  /** More reads, or as many and a more confident one. */
  predicate Bigger(a: Cluster, b: Cluster)
    requires a != [] && b != []
  {
    |a| > |b| || (|a| == |b| && MaxConf(a) > MaxConf(b))
  }

  /** The first of the biggest clusters. */
  function Biggest(clusters: seq<Cluster>): (r: Cluster)
    requires clusters != [] && forall c :: 0 <= c < |clusters| ==> clusters[c] != []
    ensures r in clusters && r != []
  {
    if |clusters| == 1 then clusters[0]
    else
      var best, last := Biggest(clusters[..|clusters| - 1]), clusters[|clusters| - 1];
      if Bigger(last, best) then last else best
  }

  lemma {:induction false} NoneIsBigger(clusters: seq<Cluster>, c: nat)
    requires (forall d :: 0 <= d < |clusters| ==> clusters[d] != []) && c < |clusters|
    ensures !Bigger(clusters[c], Biggest(clusters))
  {
    if |clusters| > 1 && c < |clusters| - 1 { NoneIsBigger(clusters[..|clusters| - 1], c); }
  }

  /** The reads of a length. */
  function OfLength(seen: seq<Read>, n: nat): (r: seq<Read>)
    ensures |r| <= |seen|
  {
    if seen == [] then []
    else OfLength(seen[..|seen| - 1], n) + (if |seen[|seen| - 1].text| == n then [seen[|seen| - 1]] else [])
  }

  lemma {:induction false} OfLengthMembers(seen: seq<Read>, n: nat)
    ensures forall x :: x in OfLength(seen, n) <==> x in seen && |x.text| == n
  {
    if seen != [] {
      var front, last := seen[..|seen| - 1], seen[|seen| - 1];
      OfLengthMembers(front, n);
      assert seen == front + [last];
    }
  }

  lemma HasItsLength(seen: seq<Read>, k: nat)
    requires k < |seen|
    ensures OfLength(seen, |seen[k].text|) != []
  {
    OfLengthMembers(seen, |seen[k].text|);
    assert seen[k] in OfLength(seen, |seen[k].text|);
  }

  /** The length most of the first n reads have (of equally many, the one with the most confident read;
      of those, the first that came up). */
  function MainLength(seen: seq<Read>, n: nat): (r: nat)
    requires 0 < n <= |seen|
    ensures OfLength(seen, r) != []
  {
    if n == 1 then
      HasItsLength(seen, 0);
      |seen[0].text|
    else
      var best, len := MainLength(seen, n - 1), |seen[n - 1].text|;
      HasItsLength(seen, n - 1);
      if Bigger(OfLength(seen, len), OfLength(seen, best)) then len else best
  }

  lemma {:induction false} NoLengthIsBigger(seen: seq<Read>, n: nat, k: nat)
    requires k < n <= |seen|
    ensures OfLength(seen, |seen[k].text|) != []
    ensures !Bigger(OfLength(seen, |seen[k].text|), OfLength(seen, MainLength(seen, n)))
  {
    hide Bigger, OfLength;
    HasItsLength(seen, k);
    HasItsLength(seen, n - 1);
    if k < n - 1 {
      NoLengthIsBigger(seen, n - 1, k);
      BiggerTurns(OfLength(seen, |seen[k].text|), OfLength(seen, MainLength(seen, n - 1)), OfLength(seen, |seen[n - 1].text|));
    } else if n > 1 {
      BiggerNotItself(OfLength(seen, |seen[n - 1].text|));
    } else {
      BiggerNotItself(OfLength(seen, |seen[0].text|));
    }
  }

  lemma BiggerNotItself(a: Cluster)
    requires a != []
    ensures !Bigger(a, a)
  {}

  lemma BiggerTurns(a: Cluster, b: Cluster, d: Cluster)
    requires a != [] && b != [] && d != [] && !Bigger(a, b)
    ensures Bigger(d, b) ==> !Bigger(a, d)
  {}

  // ----- the vote ---------------------------------------------------------------------------------

  /** The confidence behind ch at place i. */
  function Weight(voters: seq<Read>, i: nat, ch: char): real
    requires forall k :: 0 <= k < |voters| ==> i < |voters[k].text|
  {
    if voters == [] then 0.0
    else
      var last := voters[|voters| - 1];
      Weight(voters[..|voters| - 1], i, ch) + (if last.text[i] == ch then last.conf else 0.0)
  }

  /** The character most of the confidence is behind at place i; of the first n voters' characters, the
      first of equal ones. */
  function Voted(voters: seq<Read>, i: nat, n: nat): char
    requires 0 < n <= |voters| && forall k :: 0 <= k < |voters| ==> i < |voters[k].text|
  {
    if n == 1 then voters[0].text[i]
    else
      var best, ch := Voted(voters, i, n - 1), voters[n - 1].text[i];
      if Weight(voters, i, ch) > Weight(voters, i, best) then ch else best
  }

  lemma {:induction false} NoneWeighsMore(voters: seq<Read>, i: nat, n: nat, k: nat)
    requires k < n <= |voters| && forall j :: 0 <= j < |voters| ==> i < |voters[j].text|
    ensures Weight(voters, i, voters[k].text[i]) <= Weight(voters, i, Voted(voters, i, n))
  {
    if k < n - 1 { NoneWeighsMore(voters, i, n - 1, k); }
  }

  function Total(voters: seq<Read>): real {
    if voters == [] then 0.0 else Total(voters[..|voters| - 1]) + voters[|voters| - 1].conf
  }

  /** The confidence behind a whole text. */
  function Behind(voters: seq<Read>, text: string): real {
    if voters == [] then 0.0
    else
      var last := voters[|voters| - 1];
      Behind(voters[..|voters| - 1], text) + (if last.text == text then last.conf else 0.0)
  }

  /** At each place a text's character has at least the text's confidence behind it, and another one at
      most the rest. */
  lemma {:induction false} TextWeighs(voters: seq<Read>, text: string, i: nat, ch: char)
    requires forall k :: 0 <= k < |voters| ==> |voters[k].text| == |text| && voters[k].conf >= 0.0
    requires i < |text| && ch != text[i]
    ensures Weight(voters, i, text[i]) >= Behind(voters, text)
    ensures Weight(voters, i, ch) <= Total(voters) - Behind(voters, text)
  {
    if voters != [] { TextWeighs(voters[..|voters| - 1], text, i, ch); }
  }

  /** The vote over all places from i on. */
  function Vote(voters: seq<Read>, length: nat, i: nat): (r: string)
    requires voters != [] && i <= length && forall k :: 0 <= k < |voters| ==> |voters[k].text| == length
    ensures |r| == length - i && forall j :: 0 <= j < |r| ==> r[j] == Voted(voters, i + j, |voters|)
    decreases length - i
  {
    if i == length then "" else [Voted(voters, i, |voters|)] + Vote(voters, length, i + 1)
  }

  /** A text with more than half of the voters' confidence wins the vote. */
  lemma MajorityWins(voters: seq<Read>, text: string)
    requires voters != []
    requires forall k :: 0 <= k < |voters| ==> |voters[k].text| == |text| && voters[k].conf >= 0.0
    requires Behind(voters, text) > Total(voters) / 2.0
    ensures Vote(voters, |text|, 0) == text
  {
    var r := Vote(voters, |text|, 0);
    forall i | 0 <= i < |text|
      ensures r[i] == text[i]
    {
      var won := Voted(voters, i, |voters|);
      if won != text[i] {
        TextWeighs(voters, text, i, won);
        SomeoneReadIt(voters, text);
        var k :| 0 <= k < |voters| && voters[k].text == text;
        NoneWeighsMore(voters, i, |voters|, k);
        assert false;
      }
    }
  }

  lemma {:induction false} SomeoneReadIt(voters: seq<Read>, text: string)
    requires (forall k :: 0 <= k < |voters| ==> voters[k].conf >= 0.0) && Behind(voters, text) > Total(voters) / 2.0
    ensures exists k :: 0 <= k < |voters| && voters[k].text == text
  {
    if forall k :: 0 <= k < |voters| ==> voters[k].text != text {
      NobodyBehind(voters, text);
      assert false;
    }
  }

  lemma {:induction false} NobodyBehind(voters: seq<Read>, text: string)
    requires forall k :: 0 <= k < |voters| ==> voters[k].text != text && voters[k].conf >= 0.0
    ensures Behind(voters, text) == 0.0 <= Total(voters)
  {
    if voters != [] { NobodyBehind(voters[..|voters| - 1], text); }
  }

  /** A track's plate. */
  datatype Plate = Plate(text: string, conf: real, agreeing: nat)

  function Main(seen: seq<Read>): (r: Cluster)
    requires seen != []
    ensures r != []
  {
    ClustersPartition(seen);
    assert seen[0] in All(Clusters(seen));
    Biggest(Clusters(seen))
  }

  function Voters(seen: seq<Read>): (r: seq<Read>)
    requires seen != []
    ensures r != []
  {
    OfLength(Main(seen), MainLength(Main(seen), |Main(seen)|))
  }

  /** The voters share the main length, so they vote place by place. */
  lemma VotersShareTheirLength(seen: seq<Read>)
    requires seen != []
    ensures var voters, length := Voters(seen), MainLength(Main(seen), |Main(seen)|);
            forall k :: 0 <= k < |voters| ==> |voters[k].text| == length
  {
    OfLengthMembers(Main(seen), MainLength(Main(seen), |Main(seen)|));
    assert forall k :: 0 <= k < |Voters(seen)| ==> Voters(seen)[k] in Voters(seen);
  }

  function Mean(voters: seq<Read>): real
    requires voters != []
  {
    Total(voters) / |voters| as real
  }

  function Rep(seen: seq<Read>): Plate
    requires seen != []
  {
    var main, voters := Main(seen), Voters(seen);
    VotersShareTheirLength(seen);
    Plate(Vote(voters, MainLength(main, |main|), 0), Mean(voters), |voters|)
  }

  /** A text with more than half of its voters' confidence is the plate. */
  lemma MajorityIsThePlate(seen: seq<Read>, text: string)
    requires seen != [] && forall k :: 0 <= k < |seen| ==> seen[k].conf >= 0.0
    requires |text| == MainLength(Main(seen), |Main(seen)|) && Behind(Voters(seen), text) > Total(Voters(seen)) / 2.0
    ensures Rep(seen).text == text
  {
    VotersShareTheirLength(seen);
    var voters := Voters(seen);
    forall k | 0 <= k < |voters|
      ensures voters[k].conf >= 0.0
    {
      OfLengthMembers(Main(seen), |text|);
      assert voters[k] in voters;
      MainIsRead(seen, voters[k]);
    }
    MajorityWins(voters, text);
  }

  lemma MainIsRead(seen: seq<Read>, x: Read)
    requires seen != [] && x in Main(seen)
    ensures x in seen
  {
    ClustersPartition(seen);
    var clusters := Clusters(seen);
    var c :| 0 <= c < |clusters| && clusters[c] == Main(seen);
    InAll(clusters, c, x);
    assert x in multiset(seen);
  }

  lemma {:induction false} InAll(clusters: seq<Cluster>, c: nat, x: Read)
    requires c < |clusters| && x in clusters[c]
    ensures x in All(clusters)
  {
    if c < |clusters| - 1 { InAll(clusters[..|clusters| - 1], c, x); }
  }

  // ----- the loops --------------------------------------------------------------------------------

  method FindPartner(ch: char, b: string, hit: seq<bool>, from: nat, end: nat) returns (r: Option<nat>)
    requires end <= |b| == |hit|
    ensures r == Partner(ch, b, hit, from, end)
  {
    var j := from;
    while j < end
      invariant Partner(ch, b, hit, from, end) == Partner(ch, b, hit, j, end)
    {
      if !hit[j] && b[j] == ch { return Some(j); }
      j := j + 1;
    }
    return None;
  }

  method Pair(a: string, b: string) returns (r: Hits)
    ensures r == Pairing(a, b, |a|)
  {
    r := Hits(Unmarked(|a|), Unmarked(|b|));
    var reach := Reach(a, b);
    for i := 0 to |a|
      invariant r == Pairing(a, b, i)
    {
      var j := FindPartner(a[i], b, r.b, if i >= reach then i - reach else 0, MinNat(|b|, i + reach + 1));
      if j.Some? { r := Hits(r.a[i := true], r.b[j.value := true]); }
    }
  }

  method Place(clusters: seq<Cluster>, read: Read) returns (r: seq<Cluster>)
    ensures r == Placed(clusters, read)
  {
    hide Fits;
    r := clusters;
    for c := 0 to |clusters|
      invariant FirstFit(clusters, read.text, 0) == FirstFit(clusters, read.text, c)
    {
      if Fits(clusters[c], read.text) { return clusters[c := clusters[c] + [read]]; }
    }
    return clusters + [[read]];
  }

  method GroupReads(seen: seq<Read>) returns (clusters: seq<Cluster>)
    ensures clusters == Clusters(seen)
  {
    hide Placed;
    clusters := [];
    for n := 0 to |seen|
      invariant clusters == Clusters(seen[..n])
    {
      assert seen[..n + 1][..n] == seen[..n];
      clusters := Place(clusters, seen[n]);
    }
    assert seen[..|seen|] == seen;
  }

  method VoteText(voters: seq<Read>, length: nat) returns (text: string)
    requires voters != [] && forall k :: 0 <= k < |voters| ==> |voters[k].text| == length
    ensures text == Vote(voters, length, 0)
  {
    hide Voted, Vote;
    VoteEnds(voters, length);
    text := "";
    assert Vote(voters, length, 0) == text + Vote(voters, length, 0);
    for i := 0 to length
      invariant Vote(voters, length, 0) == text + Vote(voters, length, i)
    {
      VoteNext(voters, length, i, text);
      text := text + [Voted(voters, i, |voters|)];
    }
    assert text + [] == text;
  }

  lemma VoteEnds(voters: seq<Read>, length: nat)
    requires voters != [] && forall k :: 0 <= k < |voters| ==> |voters[k].text| == length
    ensures Vote(voters, length, length) == ""
  {}

  lemma VoteNext(voters: seq<Read>, length: nat, i: nat, text: string)
    requires voters != [] && i < length && forall k :: 0 <= k < |voters| ==> |voters[k].text| == length
    ensures text + Vote(voters, length, i) == text + [Voted(voters, i, |voters|)] + Vote(voters, length, i + 1)
  {
    hide Voted;
    assert Vote(voters, length, i) == [Voted(voters, i, |voters|)] + Vote(voters, length, i + 1);
  }

  method PlateRep(seen: seq<Read>) returns (plate: Plate)
    requires seen != []
    ensures plate == Rep(seen)
  {
    hide *;
    var clusters := GroupReads(seen);
    BiggestIsMain(seen);
    var main := Biggest(clusters);
    RepIs(seen);
    var length := MainLength(main, |main|);
    var voters := OfLength(main, length);
    var text := VoteText(voters, length);
    plate := Plate(text, Mean(voters), |voters|);
  }

  lemma BiggestIsMain(seen: seq<Read>)
    requires seen != []
    ensures var clusters := Clusters(seen);
            && clusters != [] && (forall c :: 0 <= c < |clusters| ==> clusters[c] != [])
            && Biggest(clusters) == Main(seen)
  {
    ClustersPartition(seen);
    assert seen[0] in All(Clusters(seen));
  }

  lemma RepIs(seen: seq<Read>)
    requires seen != []
    ensures var main := Main(seen);
            var length := MainLength(main, |main|);
            var voters := OfLength(main, length);
            && voters != [] && (forall k :: 0 <= k < |voters| ==> |voters[k].text| == length)
            && Rep(seen) == Plate(Vote(voters, length, 0), Mean(voters), |voters|)
  {
    hide Main, MainLength, Vote, OfLength, Mean;
    VotersShareTheirLength(seen);
    var length := MainLength(Main(seen), |Main(seen)|);
    var voters := OfLength(Main(seen), length);
    assert voters == Voters(seen);
    forall k | 0 <= k < |voters|
      ensures |voters[k].text| == length
    {
      assert |Voters(seen)[k].text| == length;
    }
  }
}
