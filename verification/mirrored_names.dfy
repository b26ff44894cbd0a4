/**
 * Which names two peers may have that identify each other. Each sends what the other expects; whether that makes
 * the configurations mirrored, each naming the other as its remote system, depends on the hyphens in the names.
 */
module MirroredNames {
  import opened FmtpMessages
  import opened StateMachine
  import opened Peers
  import opened PromptPeers
  import opened MutualIdentification
  import opened HandshakeRun

  /** Each of two configurations expects what the other sends. */
  ghost predicate IdentifyEachOther(localA: Text, remoteA: Text, localB: Text, remoteB: Text) {
    Expects(localA, remoteA, localB, remoteB) && Expects(localB, remoteB, localA, remoteA)
  }

  /** Only its mirror identifies a configuration and is identified by it. */
  ghost predicate PinsMirror(localA: Text, remoteA: Text) {
    forall localB, remoteB :: IdentifyEachOther(localA, remoteA, localB, remoteB) ==>
                                localA == remoteB && remoteA == localB
  }

  /** The text a configuration expects, and a hyphen behind it. */
  function Ring(localName: Text, remoteName: Text): (w: Text)
    ensures |w| == |localName| + |remoteName| + 2
  {
    remoteName + [HYPHEN] + localName + [HYPHEN]
  }

  /** The text is its first z bytes, two times or more. */
  ghost predicate Repeats(w: Text, z: nat) {
    0 < z < |w| && |w| % z == 0 && forall i :: 0 <= i < |w| - z ==> w[i] == w[i + z]
  }

  /** No repetition but the two halves of a configuration whose names have the same length. */
  ghost predicate HasOneReading(localName: Text, remoteName: Text) {
    var w := Ring(localName, remoteName);
    forall z: nat :: Repeats(w, z) ==> |w| == 2 * z && |localName| == |remoteName|
  }

  // Rotations of a text

  function Rotated(w: Text, k: nat): (r: Text)
    requires k <= |w|
    ensures |r| == |w|
  {
    w[k..] + w[..k]
  }

  /** Where index i of n goes when a text is rotated by k. */
  function Moved(n: nat, k: nat, i: nat): (j: nat)
    requires k <= n && i < n
    ensures j < n
  {
    if i < n - k then i + k else i + k - n
  }

  ghost predicate FixedBy(w: Text, k: nat)
    requires k <= |w|
  {
    forall i :: 0 <= i < |w| ==> w[i] == w[Moved(|w|, k, i)]
  }

  lemma RotatedAt(w: Text, k: nat, i: nat)
    requires k <= |w| && i < |w|
    ensures Rotated(w, k)[i] == w[Moved(|w|, k, i)]
  {
  }

  lemma RotationsAgree(w: Text, p: nat, q: nat)
    requires p <= q <= |w|
    ensures Rotated(w, p) == Rotated(w, q) <==> FixedBy(w, q - p)
  {
    var n, k := |w|, q - p;
    hide Rotated;
    forall i | 0 <= i < n
      ensures Rotated(w, p)[Moved(n, n - p, i)] == w[i] && Rotated(w, q)[Moved(n, n - p, i)] == w[Moved(n, k, i)]
    {
      RotatedAt(w, p, Moved(n, n - p, i));
      RotatedAt(w, q, Moved(n, n - p, i));
    }
    if FixedBy(w, k) {
      forall i | 0 <= i < n ensures Rotated(w, p)[i] == Rotated(w, q)[i] {
        var j := Moved(n, p, i);
        assert Moved(n, n - p, j) == i && w[j] == w[Moved(n, k, j)];
      }
    }
  }

  lemma FixedByDifference(w: Text, x: nat, y: nat)
    requires x <= y <= |w| && FixedBy(w, x) && FixedBy(w, y)
    ensures FixedBy(w, y - x)
  {
    var n := |w|;
    forall i | 0 <= i < n ensures w[i] == w[Moved(n, y - x, i)] {
      var before := Moved(n, n - x, i);
      assert w[before] == w[Moved(n, x, before)] == w[Moved(n, y, before)];
    }
  }

  /** What fixes a text is a multiple of one of its repetitions. */
  lemma {:induction false} CommonDivisor(w: Text, x: nat, y: nat) returns (g: nat, i: nat, j: nat)
    requires 0 < x <= |w| && 0 < y <= |w| && FixedBy(w, x) && FixedBy(w, y)
    ensures 0 < g <= x && g <= |w| && FixedBy(w, g) && x == g * i && y == g * j
    decreases x + y
  {
    hide FixedBy;
    if x == y {
      g, i, j := x, 1, 1;
    } else if x < y {
      FixedByDifference(w, x, y);
      g, i, j := CommonDivisor(w, x, y - x);
      j := i + j;
    } else {
      FixedByDifference(w, y, x);
      g, i, j := CommonDivisor(w, x - y, y);
      i := i + j;
    }
  }

  lemma MultipleLeavesNoRest(g: nat, j: nat)
    requires g > 0
    ensures (g * j) % g == 0
  {
    var n := g * j;
    assert n == g * (n / g) + n % g;
    RestIsNone(g, j - n / g, n % g);
  }

  lemma RestIsNone(g: nat, d: int, r: nat)
    requires r < g && g * d == r
    ensures r == 0
  {
    if d > 0 {
      assert g * d == g * (d - 1) + g;
    }
  }

  lemma FixedRepeats(w: Text, k: nat) returns (z: nat)
    requires 0 < k < |w| && FixedBy(w, k)
    ensures Repeats(w, z) && z <= k
  {
    assert FixedBy(w, |w|);
    var i, j;
    z, i, j := CommonDivisor(w, k, |w|);
    MultipleLeavesNoRest(z, j);
    forall i | 0 <= i < |w| - z ensures w[i] == w[i + z] {
      assert w[i] == w[Moved(|w|, z, i)];
    }
  }

  lemma {:induction false} RepeatsFar(w: Text, z: nat, i: nat, times: nat)
    requires Repeats(w, z) && i + z * times < |w|
    ensures w[i] == w[i + z * times]
    decreases times
  {
    if times > 0 {
      assert z * times == z * (times - 1) + z;
      RepeatsFar(w, z, i, times - 1);
    }
  }

  lemma RepetitionFixes(w: Text, z: nat)
    requires Repeats(w, z)
    ensures FixedBy(w, z)
  {
    var times := |w| / z - 1;
    assert |w| - z == z * times;
    forall i | 0 <= i < |w| ensures w[i] == w[Moved(|w|, z, i)] {
      if i >= |w| - z {
        RepeatsFar(w, z, i + z - |w|, times);
      }
    }
  }

  // Readings of a text

  /** Two configurations identify each other if their rings are the same and start at the other's hyphen. */
  lemma ReadingsOfRing(localA: Text, remoteA: Text, localB: Text, remoteB: Text)
    ensures IdentifyEachOther(localA, remoteA, localB, remoteB)
       <==> Ring(remoteB, localB) == Ring(localA, remoteA) && Ring(localB, remoteB) == Ring(remoteA, localA)
  {
    HyphenBehind(localA + [HYPHEN] + remoteA, remoteB + [HYPHEN] + localB);
    HyphenBehind(localB + [HYPHEN] + remoteB, remoteA + [HYPHEN] + localA);
  }

  lemma HyphenBehind(s: Text, t: Text)
    ensures s == t <==> s + [HYPHEN] == t + [HYPHEN]
  {
    assert (s + [HYPHEN])[..|s|] == s && (t + [HYPHEN])[..|t|] == t;
  }

  lemma RingIsRotated(localName: Text, remoteName: Text)
    ensures Rotated(Ring(localName, remoteName), |remoteName| + 1) == Ring(remoteName, localName)
  {
    assert Ring(localName, remoteName) == (remoteName + [HYPHEN]) + (localName + [HYPHEN]);
  }

  lemma PartsOfRing(localName: Text, remoteName: Text)
    ensures var w := Ring(localName, remoteName);
            w[..|remoteName|] == remoteName && w[|remoteName| + 1..|w| - 1] == localName
  {
  }

  /** Two readings of one ring identify each other exactly if the ring is fixed by the distance of their hyphens. */
  lemma EqualRingsIdentify(localA: Text, remoteA: Text, localB: Text, remoteB: Text)
    requires Ring(remoteB, localB) == Ring(localA, remoteA)
    ensures var w, p, q := Ring(localA, remoteA), |remoteA|, |localB|;
            && p < |w| && q < |w|
            && (IdentifyEachOther(localA, remoteA, localB, remoteB) <==> FixedBy(w, if p < q then q - p else p - q))
  {
    hide Ring, Rotated, FixedBy, IdentifyEachOther;
    var w, p, q := Ring(localA, remoteA), |remoteA|, |localB|;
    RingIsRotated(localA, remoteA);
    RingIsRotated(remoteB, localB);
    ReadingsOfRing(localA, remoteA, localB, remoteB);
    RotationsAgree(w, if p < q then p + 1 else q + 1, if p < q then q + 1 else p + 1);
  }

  /** Another reading of the ring makes it a repetition, and not of two halves of equal length. */
  lemma OtherReadingRepeats(localA: Text, remoteA: Text, localB: Text, remoteB: Text)
    requires IdentifyEachOther(localA, remoteA, localB, remoteB) && !(localA == remoteB && remoteA == localB)
    ensures !HasOneReading(localA, remoteA)
  {
    var w, p, q := Ring(localA, remoteA), |remoteA|, |localB|;
    ReadingsOfRing(localA, remoteA, localB, remoteB);
    if p == q {
      PartsOfRing(localA, remoteA);
      PartsOfRing(remoteB, localB);
      assert false;
    } else {
      hide Ring, IdentifyEachOther, Repeats, FixedBy;
      EqualRingsIdentify(localA, remoteA, localB, remoteB);
      var z := FixedRepeats(w, if p < q then q - p else p - q);
      assert !(|w| == 2 * z && |localA| == p);
    }
  }

  lemma HalfAtMost(n: nat, z: nat)
    requires 0 < z < n && n % z == 0
    ensures 2 * z <= n
  {
    assert n == z * (n / z);
    assert n / z >= 2;
  }

  /** A repetition, unless it is of two halves of equal length, has another reading. */
  lemma RepetitionHasOtherReading(localA: Text, remoteA: Text, z: nat) returns (localB: Text, remoteB: Text)
    requires var w := Ring(localA, remoteA); Repeats(w, z) && !(|w| == 2 * z && |localA| == |remoteA|)
    ensures IdentifyEachOther(localA, remoteA, localB, remoteB) && |localB| != |remoteA|
  {
    hide Repeats, Ring, Rotated, FixedBy, IdentifyEachOther;
    var w := Ring(localA, remoteA);
    var q := OtherHyphen(localA, remoteA, z);
    localB, remoteB := ReadAt(w, q);
    RepetitionFixes(w, z);
    EqualRingsIdentify(localA, remoteA, localB, remoteB);
  }

  /** The hyphen between the names is found again one repetition behind it or before it. */
  lemma OtherHyphen(localName: Text, remoteName: Text, z: nat) returns (q: nat)
    requires var w := Ring(localName, remoteName);
             Repeats(w, z) && !(|w| == 2 * z && |localName| == |remoteName|)
    ensures var w := Ring(localName, remoteName);
            && q + 2 <= |w| && w[q] == w[|w| - 1] == HYPHEN
            && 0 < z && (q == |remoteName| + z || q == |remoteName| - z)
  {
    var w, p := Ring(localName, remoteName), |remoteName|;
    RepeatsTwice(w, z);
    hide Repeats;
    q := if p + z <= |w| - 2 then p + z else p - z;
    assert w[p] == HYPHEN;
  }

  lemma RepeatsTwice(w: Text, z: nat)
    requires Repeats(w, z)
    ensures 0 < 2 * z <= |w| && forall i :: 0 <= i < |w| - z ==> w[i] == w[i + z]
  {
    HalfAtMost(|w|, z);
  }

  lemma ReadAt(w: Text, q: nat) returns (front: Text, behind: Text)
    requires q + 2 <= |w| && w[q] == w[|w| - 1] == HYPHEN
    ensures Ring(behind, front) == w && |front| == q
  {
    front, behind := w[..q], w[q + 1..|w| - 1];
  }

  /**
   * The names that pin their mirror: for given names, whoever identifies them and is identified by them names them
   * as they name it, exactly if the text they expect, with a hyphen behind it, repeats no part of itself, or only
   * its halves and the two names have the same length.
   */
  lemma PinsMirrorIff(localName: Text, remoteName: Text)
    ensures PinsMirror(localName, remoteName) <==> HasOneReading(localName, remoteName)
  {
    hide Ring, Repeats, IdentifyEachOther;
    if PinsMirror(localName, remoteName) {
      forall z: nat | Repeats(Ring(localName, remoteName), z)
        ensures |Ring(localName, remoteName)| == 2 * z && |localName| == |remoteName|
      {
        if !(|Ring(localName, remoteName)| == 2 * z && |localName| == |remoteName|) {
          var localB, remoteB := RepetitionHasOtherReading(localName, remoteName, z);
          assert false;
        }
      }
    }
    if HasOneReading(localName, remoteName) {
      forall localB, remoteB | IdentifyEachOther(localName, remoteName, localB, remoteB)
        ensures localName == remoteB && remoteName == localB
      {
        if !(localName == remoteB && remoteName == localB) {
          OtherReadingRepeats(localName, remoteName, localB, remoteB);
          assert false;
        }
      }
    }
  }

  // Two peers

  ghost predicate NameEachOther(sites: Sites) {
    sites.client.localATC == sites.server.remoteATC && sites.client.remoteATC == sites.server.localATC
  }

  ghost predicate Identifiable(sites: Sites) {
    exists s :: Reachable(sites, Anything(), s)
                && (PastIdentification(s.client.peer.state) || PastIdentification(s.server.peer.state))
  }

  /** A connection can get past identification, on either side and under any scheduling, iff each expects the other. */
  lemma IdentifiableIff(sites: Sites)
    ensures Identifiable(sites) <==> Matched(sites)
  {
    hide CreateIdentificationMessage;
    if Identifiable(sites) {
      hide Reachable;
      var s :| Reachable(sites, Anything(), s)
               && (PastIdentification(s.client.peer.state) || PastIdentification(s.server.peer.state));
      RunBehind(sites, s);
    }
    if Matched(sites) {
      var s := BothAssociating(sites, Anything());
      assert PastIdentification(s.client.peer.state);
    }
  }

  lemma RunBehind(sites: Sites, s: Sys)
    requires Reachable(sites, Anything(), s)
    requires PastIdentification(s.client.peer.state) || PastIdentification(s.server.peer.state)
    ensures Matched(sites)
  {
    hide CreateIdentificationMessage, PastIdentification;
    var actions: seq<Action> :| IsRun(sites, Anything(), CONNECTED, actions) && After(sites, CONNECTED, actions) == s;
    Identified(sites, actions);
  }

  /**
   * For given names of a client: every server with which it gets past identification, in whatever run, names it as
   * it names the server, exactly if the client's names have one reading.
   */
  lemma ConnectionPinsMirrorIff(client: Site)
    ensures (forall server: Site :: Identifiable(Sites(client, server)) ==> NameEachOther(Sites(client, server)))
       <==> HasOneReading(client.localATC, client.remoteATC)
  {
    hide Identifiable, HasOneReading;
    PinsMirrorIff(client.localATC, client.remoteATC);
    forall server: Site {
      IdentifiableIff(Sites(client, server));
    }
    if forall server: Site :: Identifiable(Sites(client, server)) ==> NameEachOther(Sites(client, server)) {
      forall localB, remoteB | IdentifyEachOther(client.localATC, client.remoteATC, localB, remoteB)
        ensures client.localATC == remoteB && client.remoteATC == localB
      {
        var server := Site(localB, remoteB, 0, 0, 0);
        assert Matched(Sites(client, server));
        assert NameEachOther(Sites(client, server));
      }
    } else {
      var server: Site :| Identifiable(Sites(client, server)) && !NameEachOther(Sites(client, server));
      assert Matched(Sites(client, server));
      assert IdentifyEachOther(client.localATC, client.remoteATC, server.localATC, server.remoteATC);
    }
  }

  /** It does occur: both sides are "X-X" and name "X", and get past identification with each other. */
  lemma UnmirroredSitesAssociate(ti: int, ts: int, tr: int) returns (sites: Sites, s: Sys)
    ensures var xx: Text := [88, HYPHEN, 88]; sites == Sites(Site(xx, [88], ti, ts, tr), Site(xx, [88], ti, ts, tr))
    ensures Reachable(sites, Anything(), s) && !NameEachOther(sites)
    ensures s.client.peer.state == AssPending && s.server.peer.state == AssPending
  {
    var site := Site([88, HYPHEN, 88], [88], ti, ts, tr);
    sites := Sites(site, site);
    assert [88, HYPHEN, 88] + [HYPHEN] + [88] == [88] + [HYPHEN] + [88, HYPHEN, 88];
    s := BothAssociating(sites, Anything());
    assert |sites.client.localATC| != |sites.server.remoteATC|;
  }
}
