/** The speed test service: the three-tier fallback that turns the network
    outcomes into four metrics, and the assembly of the persisted record. */
module Service {
  import opened Models
  import opened Network
  import opened Latency
  import opened Throughput
  import opened Repositories

  /** The values the last-resort tier draws at random: `rand.Intn(10)`,
      `rand.Intn(5)` and two `rand.Float64()` results. */
  datatype Draws = Draws(pingOffset: int, jitterOffset: int, downloadFraction: real, uploadFraction: real)
  {
    predicate Valid() {
      && 0 <= pingOffset < 10
      && 0 <= jitterOffset < 5
      && 0.0 <= downloadFraction < 1.0
      && 0.0 <= uploadFraction < 1.0
    }
  }

  datatype Metrics = Metrics(downloadSpeed: real, uploadSpeed: real, ping: real, jitter: real)

  function SyntheticLatency(d: Draws): Latency {
    Latency((15 + d.pingOffset) as real, (2 + d.jitterOffset) as real)
  }

  function SyntheticDownload(d: Draws): real {
    80.0 + d.downloadFraction * 40.0
  }

  function SyntheticUpload(d: Draws): real {
    5.0 + d.uploadFraction * 15.0
  }

  /** The first tier that produced a value. */
  function Tiered<T>(primary: Result<T>, alternative: Result<T>, synthetic: T): T {
    if primary.Ok? then primary.value
    else if alternative.Ok? then alternative.value
    else synthetic
  }

  function PrimaryLatency(net: Net): Result<Latency> {
    Statistics(Samples(net.dial, TcpHosts))
  }

  function AlternativeLatency(net: Net): Result<Latency> {
    Statistics(Samples(net.head, HeadHosts))
  }

  /** The mode flag picks the multi- or single-connection strategy. */
  function PrimaryDownload(net: Net, isMultiConnection: bool): Result<real>
    requires ClocksAdvance(net)
  {
    if isMultiConnection then MultiDownloadSpeed(net) else DownloadSpeed(net.get(DownloadUrl))
  }

  function PrimaryUpload(net: Net, isMultiConnection: bool): Result<real>
    requires ClocksAdvance(net)
  {
    if isMultiConnection then MultiUploadSpeed(net) else UploadSpeed(net.post(UploadUrl, UploadPayloadSize))
  }

  function MeasuredLatency(net: Net, draws: Draws): Latency {
    Tiered(PrimaryLatency(net), AlternativeLatency(net), SyntheticLatency(draws))
  }

  function MeasuredDownload(net: Net, draws: Draws, isMultiConnection: bool): real
    requires ClocksAdvance(net)
  {
    Tiered(PrimaryDownload(net, isMultiConnection), AlternativeDownloadSpeed(net), SyntheticDownload(draws))
  }

  function MeasuredUpload(net: Net, draws: Draws, isMultiConnection: bool): real
    requires ClocksAdvance(net)
  {
    Tiered(PrimaryUpload(net, isMultiConnection), AlternativeUploadSpeed(net), SyntheticUpload(draws))
  }

  /** The four metrics one run reports. */
  function Measurements(net: Net, draws: Draws, isMultiConnection: bool): Metrics
    requires ClocksAdvance(net)
  {
    Metrics(
      MeasuredDownload(net, draws, isMultiConnection),
      MeasuredUpload(net, draws, isMultiConnection),
      MeasuredLatency(net, draws).ping,
      MeasuredLatency(net, draws).jitter)
  }

  /** The latency stage: TCP probes, then HEAD probes, then the random draws. */
  method LatencyStage(net: Net, draws: Draws) returns (ping: real, jitter: real, err: Option<Error>)
    ensures Latency(ping, jitter) == MeasuredLatency(net, draws)
    ensures err.Some? <==> PrimaryLatency(net).Err? && AlternativeLatency(net).Err?
  {
    ping, jitter, err := MeasurePingAndJitter(net.dial);
    if err != None {
      ping, jitter, err := MeasureAlternativePing(net.head);
      if err != None {
        ping := (15 + draws.pingOffset) as real;
        jitter := (2 + draws.jitterOffset) as real;
      }
    }
  }

  /** The download stage: the strategy the mode selects, then the alternative
      sources, then the random draw. */
  method DownloadStage(isMultiConnection: bool, net: Net, draws: Draws) returns (downloadSpeed: real, err: Option<Error>)
    requires ClocksAdvance(net)
    ensures downloadSpeed == MeasuredDownload(net, draws, isMultiConnection)
    ensures err.Some? <==> PrimaryDownload(net, isMultiConnection).Err? && AlternativeDownloadSpeed(net).Err?
  {
    if isMultiConnection {
      downloadSpeed, err := MeasureMultiConnectionDownloadSpeed(net);
    } else {
      downloadSpeed, err := MeasureDownloadSpeed(net);
    }
    if err != None {
      downloadSpeed, err := MeasureAlternativeDownloadSpeed(net);
      if err != None {
        downloadSpeed := 80.0 + draws.downloadFraction * 40.0;
      }
    }
  }

  /** The upload stage: likewise for the upload. */
  method UploadStage(isMultiConnection: bool, net: Net, draws: Draws) returns (uploadSpeed: real, err: Option<Error>)
    requires ClocksAdvance(net)
    ensures uploadSpeed == MeasuredUpload(net, draws, isMultiConnection)
    ensures err.Some? <==> PrimaryUpload(net, isMultiConnection).Err? && AlternativeUploadSpeed(net).Err?
  {
    if isMultiConnection {
      uploadSpeed, err := MeasureMultiConnectionUploadSpeed(net);
    } else {
      uploadSpeed, err := MeasureUploadSpeed(net);
    }
    if err != None {
      uploadSpeed, err := MeasureAlternativeUploadSpeed(net);
      if err != None {
        uploadSpeed := 5.0 + draws.uploadFraction * 15.0;
      }
    }
  }

  /** Each metric is tried with its primary strategy, then its alternative,
      then made up. `err` carries the last failure along, but the run returns
      nil regardless, so it never fails. */
  method PerformSpeedTest(isMultiConnection: bool, net: Net, draws: Draws)
    returns (downloadSpeed: real, uploadSpeed: real, ping: real, jitter: real, err: Option<Error>)
    requires ClocksAdvance(net)
    ensures err == None
    ensures Metrics(downloadSpeed, uploadSpeed, ping, jitter) == Measurements(net, draws, isMultiConnection)
  {
    ping, jitter, err := LatencyStage(net, draws);
    downloadSpeed, err := DownloadStage(isMultiConnection, net, draws);
    uploadSpeed, err := UploadStage(isMultiConnection, net, draws);
    return downloadSpeed, uploadSpeed, ping, jitter, None;
  }

  /** The ping and jitter come from the TCP probes when at least three of
      them connected, otherwise from the HEAD probes when at least three of
      those succeeded, otherwise from the random draws. */
  lemma LatencyTiers(net: Net, draws: Draws)
    ensures var m := MeasuredLatency(net, draws);
      var tcp := Samples(net.dial, TcpHosts);
      var head := Samples(net.head, HeadHosts);
      && (|tcp| >= MinSamples ==> m.ping == Mean(tcp) && m.jitter == SampleVariance(tcp))
      && (|tcp| < MinSamples && |head| >= MinSamples ==> m.ping == Mean(head) && m.jitter == SampleVariance(head))
      && (|tcp| < MinSamples && |head| < MinSamples ==>
            m.ping == (15 + draws.pingOffset) as real && m.jitter == (2 + draws.jitterOffset) as real)
  {
  }

  lemma LatencyNonNegative(net: Net, draws: Draws)
    requires draws.Valid()
    ensures MeasuredLatency(net, draws).ping >= 0.0 && MeasuredLatency(net, draws).jitter >= 0.0
  {
    if PrimaryLatency(net).Ok? {
      EstimateNonNegative(net.dial, TcpHosts);
    } else if AlternativeLatency(net).Ok? {
      EstimateNonNegative(net.head, HeadHosts);
    }
  }

  lemma DownloadNonNegative(net: Net, draws: Draws, isMultiConnection: bool)
    requires ClocksAdvance(net)
    requires draws.Valid()
    ensures MeasuredDownload(net, draws, isMultiConnection) >= 0.0
  {
    AlternativeDownloadOutcome(net);
  }

  lemma UploadNonNegative(net: Net, draws: Draws, isMultiConnection: bool)
    requires ClocksAdvance(net)
    requires draws.Valid()
    ensures MeasuredUpload(net, draws, isMultiConnection) >= 0.0
  {
    AlternativeUploadOutcome(net);
  }

  /** Every reported metric is non-negative. */
  lemma MetricsNonNegative(net: Net, draws: Draws, isMultiConnection: bool)
    requires ClocksAdvance(net)
    requires draws.Valid()
    ensures var m := Measurements(net, draws, isMultiConnection);
      m.downloadSpeed >= 0.0 && m.uploadSpeed >= 0.0 && m.ping >= 0.0 && m.jitter >= 0.0
  {
    LatencyNonNegative(net, draws);
    DownloadNonNegative(net, draws, isMultiConnection);
    UploadNonNegative(net, draws, isMultiConnection);
  }

  /** When every strategy for a metric fails, the made-up value lies in its
      range: ping a whole number of milliseconds from 15 to 24, jitter a whole
      number from 2 to 6, download in [80, 120) and upload in [5, 20) Mbps. */
  lemma SyntheticRanges(net: Net, draws: Draws, isMultiConnection: bool)
    requires ClocksAdvance(net)
    requires draws.Valid()
    ensures var m := Measurements(net, draws, isMultiConnection);
      && (PrimaryLatency(net).Err? && AlternativeLatency(net).Err? ==>
            && m.ping.Floor as real == m.ping && 15.0 <= m.ping <= 24.0
            && m.jitter.Floor as real == m.jitter && 2.0 <= m.jitter <= 6.0)
      && (PrimaryDownload(net, isMultiConnection).Err? && AlternativeDownloadSpeed(net).Err? ==>
            80.0 <= m.downloadSpeed < 120.0)
      && (PrimaryUpload(net, isMultiConnection).Err? && AlternativeUploadSpeed(net).Err? ==>
            5.0 <= m.uploadSpeed < 20.0)
  {
  }

  /** The mode flag only chooses the primary throughput strategies: latency
      never depends on it, and neither does a throughput metric both of whose
      primary strategies failed. */
  lemma ModeSelectsOnlyPrimary(net: Net, draws: Draws)
    requires ClocksAdvance(net)
    ensures var multi := Measurements(net, draws, true);
      var single := Measurements(net, draws, false);
      && multi.ping == single.ping && multi.jitter == single.jitter
      && (PrimaryDownload(net, true).Err? && PrimaryDownload(net, false).Err? ==>
            multi.downloadSpeed == single.downloadSpeed)
      && (PrimaryUpload(net, true).Err? && PrimaryUpload(net, false).Err? ==>
            multi.uploadSpeed == single.uploadSpeed)
  {
  }

  /** A key missing from the metadata reads as the empty string. */
  function Lookup(info: map<string, string>, key: string): string {
    if key in info then info[key] else ""
  }

  class SpeedTestService {
    const speedTestRepo: InMemorySpeedTestRepo
    const userRepo: InMemoryUserRepo

    constructor (speedTestRepo: InMemorySpeedTestRepo, userRepo: InMemoryUserRepo)
      ensures this.speedTestRepo == speedTestRepo && this.userRepo == userRepo
    {
      this.speedTestRepo := speedTestRepo;
      this.userRepo := userRepo;
    }

    /** Measures, builds the record under `resultID` at time `now`, and saves
        it; the error returned is the one saving reported. */
    method RunSpeedTest(userID: string, ipInfo: map<string, string>, isMultiConnection: bool,
                        net: Net, draws: Draws, resultID: string, now: int)
      returns (result: SpeedTestResult, err: Option<Error>)
      requires ClocksAdvance(net)
      requires speedTestRepo.Valid()
      modifies speedTestRepo
      ensures speedTestRepo.Valid()
      ensures Metrics(result.downloadSpeed, result.uploadSpeed, result.ping, result.jitter)
              == Measurements(net, draws, isMultiConnection)
      ensures result.id == resultID && result.userID == userID && result.createdAt == now
      ensures result.isp == Lookup(ipInfo, "isp") && result.ipAddress == Lookup(ipInfo, "ip")
      ensures result.country == Lookup(ipInfo, "country") && result.region == Lookup(ipInfo, "region")
      ensures speedTestRepo.results == old(speedTestRepo.results)[resultID := result]
      ensures err == None
    {
      var downloadSpeed, uploadSpeed, ping, jitter, _ := PerformSpeedTest(isMultiConnection, net, draws);
      result := SpeedTestResult(
        resultID, userID, downloadSpeed, uploadSpeed, ping, jitter,
        Lookup(ipInfo, "isp"), Lookup(ipInfo, "ip"), Lookup(ipInfo, "country"), Lookup(ipInfo, "region"),
        now);
      err := speedTestRepo.SaveResult(result);
    }
  }
}
