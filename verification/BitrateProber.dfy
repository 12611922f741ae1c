/** The bitrate prober: a queue of probe clusters and the time the next probe is due. */
module BitrateProber {
  import opened Collections
  import opened Units

  const MIN_PROBE_PACKET_SIZE := 200
  const PROBE_CLUSTER_TIMEOUT := 5_000_000

  datatype ProbingState = Disabled | Inactive | Active | Suspended

  /** One report of a probe: when, how many bytes, and when the prober had asked for it. */
  datatype Probe = Probe(time: int, size: nat, due: Timestamp)

  /** The ghost part is the reports of this cluster. */
  datatype ProbeCluster = ProbeCluster(
    createdAt: int,
    minProbes: int,
    minBytes: int,
    sendBitrate: int,
    id: int,
    sentProbes: int,
    sentBytes: int,
    startedAt: Timestamp,
    ghost log: seq<Probe>)
  {
    predicate Started() { sentProbes > 0 }
  }

  datatype PacedPacketInfo = PacedPacketInfo(sendBitrate: int, id: int, minProbes: int, minBytes: int, bytesSent: int)

  function SizeSum(log: seq<Probe>): nat {
    if |log| == 0 then 0 else SizeSum(log[..|log| - 1]) + log[|log| - 1].size
  }

  /** When a probe is due that follows the probes of `log`. */
  function DueAfter(log: seq<Probe>, bitrate: int): int
    requires |log| > 0 && bitrate > 0
  {
    log[0].time + SendTime(SizeSum(log), bitrate)
  }

  /** It is the microsecond in which the bitrate has given the bytes sent since the first probe. */
  lemma DueExactly(log: seq<Probe>, bitrate: int)
    requires |log| > 0 && bitrate > 0
    ensures var us := DueAfter(log, bitrate) - log[0].time;
      us * bitrate <= SizeSum(log) * 8 * MICROS_PER_SECOND < (us + 1) * bitrate
  {
    hide SizeSum, SendTime;
    SendTimeMeans(SizeSum(log), bitrate);
  }

  /** Every report after the first was asked for when the bytes before it are worth the time, or
      at once, which happens after probing was disabled in between. */
  ghost predicate AskedOnPace(log: seq<Probe>, bitrate: int)
    requires bitrate > 0
  {
    forall k :: 1 <= k < |log| ==> log[k].due == At(DueAfter(log[..k], bitrate)) || log[k].due == MinusInfinity
  }

  /** No report after the first was asked for at once. */
  ghost predicate NeverInterrupted(log: seq<Probe>) {
    forall k :: 1 <= k < |log| ==> log[k].due != MinusInfinity
  }

  /** The counters of a cluster agree with its reports, and every report after the first was asked
      for at the time that keeps the bitrate, or at once. */
  ghost predicate ClusterOk(c: ProbeCluster) {
    && c.sendBitrate > 0
    && c.sentProbes == |c.log|
    && c.sentBytes == SizeSum(c.log)
    && (if c.Started() then c.startedAt == At(c.log[0].time) else c.startedAt.IsInfinite())
    && AskedOnPace(c.log, c.sendBitrate)
  }

  /** Every report came no more than `early` before it was due. */
  ghost predicate ReportedOnTime(log: seq<Probe>, early: nat) {
    forall k :: 1 <= k < |log| && log[k].due.At? ==> log[k].time >= log[k].due.us - early
  }

  /** Probe-rate conformance: at each probe not asked for at once, the bytes its cluster had
      already sent are below the bitrate times the time since the first probe, up to `early` and
      one microsecond of rounding. */
  lemma ProbeRateConformance(c: ProbeCluster, k: nat, early: nat)
    requires ClusterOk(c) && ReportedOnTime(c.log, early)
    requires 1 <= k < |c.log| && c.log[k].due != MinusInfinity
    ensures SizeSum(c.log[..k]) * 8 * MICROS_PER_SECOND < c.sendBitrate * (c.log[k].time - c.log[0].time + early + 1)
  {
    hide SizeSum, DueAfter;
    var due := c.log[k].due.us;
    assert c.log[..k][0] == c.log[0];
    assert c.log[k].due == At(DueAfter(c.log[..k], c.sendBitrate));
    DueExactly(c.log[..k], c.sendBitrate);
    Monotone(c.sendBitrate, due - c.log[0].time + 1, c.log[k].time - c.log[0].time + early + 1);
  }

  /** Nor is a probe asked for late: when it is due, the bitrate has given no more than was sent. */
  lemma ProbeIsNotLate(c: ProbeCluster, k: nat)
    requires ClusterOk(c) && 1 <= k < |c.log| && c.log[k].due != MinusInfinity
    ensures c.log[k].due.At? && c.sendBitrate * (c.log[k].due.us - c.log[0].time) <= SizeSum(c.log[..k]) * 8 * MICROS_PER_SECOND
  {
    hide SizeSum, DueAfter;
    assert c.log[..k][0] == c.log[0];
    assert c.log[k].due == At(DueAfter(c.log[..k], c.sendBitrate));
    DueExactly(c.log[..k], c.sendBitrate);
  }

  lemma Monotone(b: int, x: int, y: int)
    requires b > 0 && x <= y
    ensures b * x <= b * y
  {
  }

  class BitrateProber {
    var probingState: ProbingState
    var clusters: seq<ProbeCluster>
    var nextProbeTime: Timestamp
    var totalProbeCount: int
    var totalFailedProbeCount: int
    const minProbePacketsSent: int
    const minProbeDelta: nat
    const minProbeDuration: nat
    const maxProbeDelay: nat
    const abortDelayedProbes: bool

    /** Clusters that left the queue, finished or discarded. */
    ghost var ended: seq<ProbeCluster>

    ghost predicate Valid()
      reads this
    {
      && (probingState == Active ==> clusters != [])
      && (probingState == Suspended ==> clusters == [])
      && (forall i :: 0 <= i < |clusters| ==> ClusterOk(clusters[i]))
      && (forall i :: 0 < i < |clusters| ==> !clusters[i].Started())
      && (forall i :: 0 <= i < |ended| ==> ClusterOk(ended[i]))
      && (clusters != [] ==> FrontOk(clusters[0]))
    }

    /** While a started front cluster is probed, its next probe is due when the bytes sent so far
        are worth the time since its start, or at once. */
    ghost predicate FrontOk(front: ProbeCluster)
      reads this
    {
      front.Started() && probingState == Active ==>
        front.sendBitrate > 0 && |front.log| > 0
        && (nextProbeTime == At(DueAfter(front.log, front.sendBitrate)) || nextProbeTime == MinusInfinity)
    }

    /** Probing was never disabled in the middle of a cluster: a started front cluster is being
        probed, and no report after a first was or will be asked for at once. */
    ghost predicate Steady()
      reads this
    {
      && (clusters != [] && clusters[0].Started() ==> probingState == Active && nextProbeTime != MinusInfinity)
      && (forall i :: 0 <= i < |clusters| ==> NeverInterrupted(clusters[i].log))
      && (forall i :: 0 <= i < |ended| ==> NeverInterrupted(ended[i].log))
    }

    /** No cluster has been probed yet. */
    ghost predicate Unprobed()
      reads this
    {
      probingState != Active && (clusters != [] ==> !clusters[0].Started())
    }

    constructor (minProbePacketsSent: int, minProbeDelta: nat, minProbeDuration: nat, maxProbeDelay: nat, abortDelayedProbes: bool)
      ensures Valid() && Steady() && Unprobed() && probingState == Inactive && clusters == [] && ended == [] && nextProbeTime == PlusInfinity
    {
      this.minProbePacketsSent, this.minProbeDelta := minProbePacketsSent, minProbeDelta;
      this.minProbeDuration, this.maxProbeDelay := minProbeDuration, maxProbeDelay;
      this.abortDelayedProbes := abortDelayedProbes;
      probingState, clusters, nextProbeTime := Inactive, [], PlusInfinity;
      totalProbeCount, totalFailedProbeCount, ended := 0, 0, [];
    }

    predicate IsProbing()
      reads this
    {
      probingState == Active
    }

    lemma ActiveHasFront()
      requires Valid() && IsProbing()
      ensures clusters != []
    {
    }

    /** Only the state changes; disabling in the middle of a cluster is what is not steady. */
    method SetEnabled(enable: bool)
      requires Valid()
      modifies `probingState
      ensures Valid()
      ensures probingState == if !enable then Disabled else if old(probingState) == Disabled then Inactive else old(probingState)
      ensures old(Steady()) ==> (Steady() <==> enable || clusters == [] || !clusters[0].Started())
      ensures old(Unprobed()) ==> Unprobed()
    {
      if enable {
        if probingState == Disabled {
          probingState := Inactive;
        }
      } else {
        probingState := Disabled;
      }
    }

    method OnIncomingPacket(packetSize: nat)
      requires Valid()
      modifies `probingState, `nextProbeTime
      ensures Valid() && (old(Steady()) ==> Steady())
      ensures if old(probingState) == Inactive && clusters != [] && packetSize >= Min(RecommendedMinProbeSize(), MIN_PROBE_PACKET_SIZE)
              then probingState == Active && nextProbeTime == MinusInfinity
              else probingState == old(probingState) && nextProbeTime == old(nextProbeTime)
    {
      if probingState == Inactive && |clusters| > 0 && packetSize >= Min(RecommendedMinProbeSize(), MIN_PROBE_PACKET_SIZE) {
        nextProbeTime := MinusInfinity;
        probingState := Active;
      }
    }

    function RecommendedMinProbeSize(): nat
      requires Valid()
      reads this
    {
      if |clusters| == 0 then 0 else MinProbeSize(clusters[0].sendBitrate)
    }

    /** What twice the least interval between probes gives at the bitrate, in whole bytes. */
    function MinProbeSize(bitrate: nat): (bytes: nat)
      ensures bytes * 8 * MICROS_PER_SECOND <= 2 * bitrate * minProbeDelta < (bytes + 1) * 8 * MICROS_PER_SECOND
    {
      BytesDuringMeans(2 * bitrate, minProbeDelta);
      BytesDuring(2 * bitrate, minProbeDelta)
    }

    /** Drops clusters from the front while they are timed out. */
    method DropTimedOutClusters(now: int) returns (ghost dropped: nat)
      modifies `clusters, `totalFailedProbeCount, `ended
      ensures dropped <= |old(clusters)| && totalFailedProbeCount == old(totalFailedProbeCount) + dropped
      ensures forall i :: 0 <= i < dropped ==> now - old(clusters)[i].createdAt > PROBE_CLUSTER_TIMEOUT
      ensures dropped < |old(clusters)| ==> now - old(clusters)[dropped].createdAt <= PROBE_CLUSTER_TIMEOUT
      ensures ended == old(ended) + old(clusters)[..dropped]
      ensures clusters == old(clusters)[dropped..]
    {
      dropped := 0;
      while |clusters| > 0 && now - clusters[0].createdAt > PROBE_CLUSTER_TIMEOUT
        invariant dropped <= |old(clusters)| && clusters == old(clusters)[dropped..]
        invariant ended == old(ended) + old(clusters)[..dropped]
        invariant totalFailedProbeCount == old(totalFailedProbeCount) + dropped
        invariant forall i :: 0 <= i < dropped ==> now - old(clusters)[i].createdAt > PROBE_CLUSTER_TIMEOUT
        decreases |clusters|
      {
        ended := ended + [clusters[0]];
        clusters := clusters[1..];
        totalFailedProbeCount := totalFailedProbeCount + 1;
        dropped := dropped + 1;
      }
    }

    /** Drops clusters that timed out and appends a new one; active probing goes on. */
    method CreateProbeCluster(bitrate: int, now: int, clusterId: int) returns (ghost dropped: nat)
      requires Valid() && probingState != Disabled && bitrate > 0
      modifies `probingState, `clusters, `totalProbeCount, `totalFailedProbeCount, `ended
      ensures Valid() && probingState == (if old(probingState) == Active then Active else Inactive)
      ensures (old(Steady()) ==> Steady()) && (old(Unprobed()) ==> Unprobed())
      ensures dropped <= |old(clusters)| && totalFailedProbeCount == old(totalFailedProbeCount) + dropped
      ensures forall i :: 0 <= i < dropped ==> now - old(clusters)[i].createdAt > PROBE_CLUSTER_TIMEOUT
      ensures dropped < |old(clusters)| ==> now - old(clusters)[dropped].createdAt <= PROBE_CLUSTER_TIMEOUT
      ensures ended == old(ended) + old(clusters)[..dropped]
      ensures clusters == old(clusters)[dropped..] + [NewCluster(bitrate, now, clusterId)]
      ensures var c := clusters[|clusters| - 1];
        && c.createdAt == now && c.sendBitrate == bitrate && c.id == clusterId && !c.Started() && c.sentBytes == 0
        && c.minProbes == minProbePacketsSent
        && c.minBytes * 8 * MICROS_PER_SECOND <= bitrate * minProbeDuration < (c.minBytes + 1) * 8 * MICROS_PER_SECOND
    {
      hide ClusterOk, NewCluster, DueAfter;
      totalProbeCount := totalProbeCount + 1;
      dropped := DropTimedOutClusters(now);
      var cluster := NewCluster(bitrate, now, clusterId);
      NewClusterOk(bitrate, now, clusterId);
      clusters := clusters + [cluster];
      if probingState != Active {
        probingState := Inactive;
      }
      QueueShifted(old(clusters), dropped, cluster);
    }

    function NewCluster(bitrate: int, now: int, clusterId: int): ProbeCluster
      requires bitrate > 0
    {
      ProbeCluster(now, minProbePacketsSent, BytesDuring(bitrate, minProbeDuration), bitrate, clusterId,
                   0, 0, MinusInfinity, [])
    }

    lemma NewClusterOk(bitrate: int, now: int, clusterId: int)
      requires bitrate > 0
      ensures var c := NewCluster(bitrate, now, clusterId);
        && ClusterOk(c) && c.createdAt == now && c.sendBitrate == bitrate && c.id == clusterId && !c.Started() && c.sentBytes == 0
        && c.minProbes == minProbePacketsSent
        && c.minBytes * 8 * MICROS_PER_SECOND <= bitrate * minProbeDuration < (c.minBytes + 1) * 8 * MICROS_PER_SECOND
    {
      BytesDuringMeans(bitrate, minProbeDuration);
    }

    /** Dropping from the front and appending a fresh cluster keeps all but the front unstarted. */
    lemma QueueShifted(queue: seq<ProbeCluster>, dropped: nat, c: ProbeCluster)
      requires dropped <= |queue| && ClusterOk(c) && !c.Started()
      requires forall i :: 0 <= i < |queue| ==> ClusterOk(queue[i])
      requires forall i :: 0 < i < |queue| ==> !queue[i].Started()
      ensures var after := queue[dropped..] + [c];
        && (forall i :: 0 <= i < |after| ==> ClusterOk(after[i]))
        && (forall i :: 0 < i < |after| ==> !after[i].Started())
        && (after[0] == (if |queue| > 0 then queue[0] else c) || !after[0].Started())
    {
      hide ClusterOk;
      var after := queue[dropped..] + [c];
      forall i | 0 <= i < |after| ensures after[i] == if i < |queue| - dropped then queue[i + dropped] else c {
      }
    }

    /** When the next probe is wanted; never while none is. */
    function NextProbeTime(now: int): (t: Timestamp)
      requires Valid()
      reads this
      ensures probingState != Active ==> t == PlusInfinity
      ensures probingState == Active && (abortDelayedProbes || !nextProbeTime.At? || now <= nextProbeTime.us + maxProbeDelay) ==> t == nextProbeTime
      ensures !abortDelayedProbes && nextProbeTime.At? && now > nextProbeTime.us + maxProbeDelay ==> t == PlusInfinity
    {
      if probingState != Active || |clusters| == 0 then PlusInfinity
      else if !abortDelayedProbes && nextProbeTime.At? && now - nextProbeTime.us > maxProbeDelay then PlusInfinity
      else nextProbeTime
    }

    /** A probe reported no earlier than `NextProbeTime` says is on time. */
    lemma WaitingIsOnTime(asked: int, now: int, size: nat, log: seq<Probe>)
      requires Valid() && NextProbeTime(asked).AtMost(At(now)) && ReportedOnTime(log, 0)
      ensures ReportedOnTime(log + [Probe(now, size, nextProbeTime)], 0)
    {
    }

    function InfoOf(c: ProbeCluster): PacedPacketInfo {
      PacedPacketInfo(c.sendBitrate, c.id, c.minProbes, c.minBytes, c.sentBytes)
    }

    predicate Overdue(now: int)
      reads `probingState, `nextProbeTime
    {
      probingState == Active && abortDelayedProbes && nextProbeTime.At? && now - nextProbeTime.us > maxProbeDelay
    }

    /** The cluster to probe for at `now`: the front one, or the next if that is overdue. */
    ghost function Current(now: int): Option<ProbeCluster>
      reads `probingState, `nextProbeTime, `clusters
    {
      var n := if Overdue(now) then 1 else 0;
      if probingState == Active && n < |clusters| then Some(clusters[n]) else None
    }

    /** The cluster to probe for; one whose probe is overdue is discarded first. */
    method CurrentCluster(now: int) returns (info: Option<PacedPacketInfo>)
      requires Valid()
      modifies `probingState, `clusters, `ended
      ensures Valid()
      ensures info.Some? <==> probingState == Active
      ensures info.Some? ==> info.value.sendBitrate == clusters[0].sendBitrate && info.value.id == clusters[0].id
      ensures info.Some? ==> info.value.minProbes == clusters[0].minProbes && info.value.minBytes == clusters[0].minBytes
      ensures info.Some? ==> info.value.bytesSent == clusters[0].sentBytes
      ensures old(Current(now)) == if info.Some? then Some(clusters[0]) else None
      ensures clusters == (if old(Overdue(now)) then old(clusters)[1..] else old(clusters))
      ensures ended == old(ended) + (if old(Overdue(now)) then old(clusters)[..1] else [])
      ensures old(probingState) != Active ==> probingState == old(probingState)
      ensures old(Steady()) ==> Steady()
    {
      if |clusters| == 0 || probingState != Active {
        return None;
      }
      if abortDelayedProbes && nextProbeTime.At? && now - nextProbeTime.us > maxProbeDelay {
        ended := ended + [clusters[0]];
        clusters := clusters[1..];
        if |clusters| == 0 {
          probingState := Suspended;
          return None;
        }
      }
      info := Some(InfoOf(clusters[0]));
    }

    /** Records a probe of the front cluster and asks for the next one at the time that keeps its
        bitrate; a cluster with enough probes and bytes is finished. */
    method ProbeSent(now: int, size: nat)
      requires Valid() && probingState == Active && size > 0
      modifies `probingState, `clusters, `nextProbeTime, `ended
      ensures Valid()
      ensures var c := old(clusters)[0];
        var probed := c.(log := c.log + [Probe(now, size, old(nextProbeTime))], sentProbes := c.sentProbes + 1,
          sentBytes := c.sentBytes + size, startedAt := if c.Started() then c.startedAt else At(now));
        && nextProbeTime == At(DueAfter(probed.log, c.sendBitrate))
        && if probed.sentBytes >= c.minBytes && probed.sentProbes >= c.minProbes
           then clusters == old(clusters)[1..] && ended == old(ended) + [probed]
           else clusters == old(clusters)[0 := probed] && ended == old(ended)
      ensures probingState == if clusters == [] then Suspended else Active
      ensures old(Steady()) ==> Steady()
    {
      hide ClusterOk, SendTime;
      if |clusters| > 0 {
        var cluster := clusters[0];
        ProbeExtendsLog(cluster, now, size, nextProbeTime);
        if cluster.sentProbes == 0 {
          assert cluster.startedAt.IsInfinite();
          cluster := cluster.(startedAt := At(now));
        }
        cluster := Recorded(cluster, now, size, nextProbeTime);
        CountersTellDue(cluster);
        nextProbeTime := CalculateNextProbeTime(cluster);
        if cluster.sentBytes >= cluster.minBytes && cluster.sentProbes >= cluster.minProbes {
          ended := ended + [cluster];
          clusters := clusters[1..];
        } else {
          clusters := clusters[0 := cluster];
        }
        if |clusters| == 0 {
          probingState := Suspended;
        }
      }
    }

    function Recorded(c: ProbeCluster, now: int, size: nat, ghost due: Timestamp): ProbeCluster {
      c.(log := c.log + [Probe(now, size, due)], sentBytes := c.sentBytes + size, sentProbes := c.sentProbes + 1)
    }

    lemma ProbeExtendsLog(c: ProbeCluster, now: int, size: nat, due: Timestamp)
      requires ClusterOk(c)
      requires c.Started() ==> c.log != [] && (due == At(DueAfter(c.log, c.sendBitrate)) || due == MinusInfinity)
      ensures c.sentProbes == 0 ==> c.startedAt.IsInfinite() && c.log == []
      ensures var r := Recorded(if c.sentProbes == 0 then c.(startedAt := At(now)) else c, now, size, due);
        && ClusterOk(r) && r.sendBitrate > 0 && r.Started()
    {
      hide DueAfter, AskedOnPace, SizeSum;
      SizeSumExtends(c.log, Probe(now, size, due));
      DuesExtend(c.log, c.sendBitrate, Probe(now, size, due));
    }

    lemma SizeSumExtends(log: seq<Probe>, p: Probe)
      ensures SizeSum(log + [p]) == SizeSum(log) + p.size
    {
      assert (log + [p])[..|log|] == log;
    }

    lemma CountersTellDue(c: ProbeCluster)
      requires ClusterOk(c) && c.Started()
      ensures c.startedAt.At? && c.sentBytes >= 0 && c.log != []
      ensures CalculateNextProbeTime(c) == At(DueAfter(c.log, c.sendBitrate))
    {
      hide SendTime;
    }

    lemma DuesExtend(log: seq<Probe>, bitrate: int, p: Probe)
      requires bitrate > 0
      requires AskedOnPace(log, bitrate)
      requires |log| > 0 ==> p.due == At(DueAfter(log, bitrate)) || p.due == MinusInfinity
      ensures AskedOnPace(log + [p], bitrate)
    {
      hide DueAfter;
      var t := log + [p];
      forall k | 1 <= k < |t| ensures t[k].due == At(DueAfter(t[..k], bitrate)) || t[k].due == MinusInfinity {
        assert t[..k] == log[..k];
        assert k == |log| ==> log[..k] == log;
      }
    }

    function CalculateNextProbeTime(cluster: ProbeCluster): Timestamp
      requires cluster.sendBitrate > 0 && cluster.startedAt.At? && cluster.sentBytes >= 0
    {
      At(cluster.startedAt.us + SendTime(cluster.sentBytes, cluster.sendBitrate))
    }

    /** Every cluster that was ever probed, finished or not, kept its bitrate at every probe not
        asked for at once, if its probes were reported on time. */
    lemma AllClustersConform(c: ProbeCluster, k: nat, early: nat)
      requires Valid() && (c in clusters || c in ended)
      requires ReportedOnTime(c.log, early) && 1 <= k < |c.log| && c.log[k].due != MinusInfinity
      ensures SizeSum(c.log[..k]) * 8 * MICROS_PER_SECOND < c.sendBitrate * (c.log[k].time - c.log[0].time + early + 1)
    {
      ProbeRateConformance(c, k, early);
    }
  }
}
