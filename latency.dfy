/** The latency estimator: timed probes against a fixed set of hosts, then the
    mean of the samples as the ping and their sample variance as the "jitter".
    Both strategies (TCP connect, HTTP HEAD) share the sampling loop and the
    statistics; they differ in the probe and the host list. */
module Latency {
  import opened Models

  /** Probes made against each host. */
  const AttemptsPerHost: nat := 5
  /** A strategy with fewer successful samples than this fails. */
  const MinSamples: nat := 3
  /** Hosts dialled on TCP port 80 by the primary strategy. */
  const TcpHosts: seq<string> := ["8.8.8.8", "1.1.1.1", "208.67.222.222"]
  /** Hosts sent an HTTPS HEAD request by the fallback strategy. */
  const HeadHosts: seq<string> := ["8.8.8.8", "1.1.1.1"]

  datatype Latency = Latency(ping: real, jitter: real)

  /** Duration.Milliseconds(): whole milliseconds, truncated. */
  function Millis(ns: nat): real {
    (ns / 1000000) as real
  }

  /** The samples from the first `attempts` probes of `host`, in probe order;
      a failed probe contributes nothing. */
  function HostSamples(probe: (string, nat) -> Option<nat>, host: string, attempts: nat): seq<real> {
    if attempts == 0 then []
    else
      HostSamples(probe, host, attempts - 1) +
      match probe(host, attempts - 1)
      case None => []
      case Some(ns) => [Millis(ns)]
  }

  /** The sample set of one strategy: every host in turn, five probes each. */
  function Samples(probe: (string, nat) -> Option<nat>, hosts: seq<string>): seq<real> {
    if hosts == [] then []
    else Samples(probe, hosts[..|hosts| - 1]) + HostSamples(probe, hosts[|hosts| - 1], AttemptsPerHost)
  }

  predicate WholeMilliseconds(s: seq<real>) {
    forall i :: 0 <= i < |s| ==> s[i] >= 0.0 && s[i] == s[i].Floor as real
  }

  lemma {:induction false} HostSamplesShape(probe: (string, nat) -> Option<nat>, host: string, attempts: nat)
    ensures |HostSamples(probe, host, attempts)| <= attempts
    ensures WholeMilliseconds(HostSamples(probe, host, attempts))
  {
    if attempts > 0 {
      HostSamplesShape(probe, host, attempts - 1);
    }
  }

  /** A strategy collects at most five samples per host, each a non-negative
      whole number of milliseconds. */
  lemma {:induction false} SamplesShape(probe: (string, nat) -> Option<nat>, hosts: seq<string>)
    ensures |Samples(probe, hosts)| <= AttemptsPerHost * |hosts|
    ensures WholeMilliseconds(Samples(probe, hosts))
  {
    if hosts != [] {
      SamplesShape(probe, hosts[..|hosts| - 1]);
      HostSamplesShape(probe, hosts[|hosts| - 1], AttemptsPerHost);
    }
  }

  /** The nested probing loops: for each host, five probes, appending the
      elapsed milliseconds of each that succeeded. */
  method CollectSamples(probe: (string, nat) -> Option<nat>, hosts: seq<string>) returns (pingTimes: seq<real>)
    ensures pingTimes == Samples(probe, hosts)
  {
    pingTimes := [];
    var h := 0;
    while h < |hosts|
      invariant 0 <= h <= |hosts|
      invariant pingTimes == Samples(probe, hosts[..h])
    {
      var i := 0;
      while i < AttemptsPerHost
        invariant 0 <= i <= AttemptsPerHost
        decreases AttemptsPerHost - i
        invariant pingTimes == Samples(probe, hosts[..h]) + HostSamples(probe, hosts[h], i)
      {
        match probe(hosts[h], i) {
          case None =>
          case Some(ns) => pingTimes := pingTimes + [Millis(ns)];
        }
        i := i + 1;
      }
      assert hosts[..h + 1][..h] == hosts[..h];
      h := h + 1;
    }
    assert hosts[..h] == hosts;
  }

  function Sum(s: seq<real>): real {
    if s == [] then 0.0 else Sum(s[..|s| - 1]) + s[|s| - 1]
  }

  function Mean(s: seq<real>): real
    requires |s| > 0
  {
    Sum(s) / |s| as real
  }

  /** Σ (x − m)² over the samples. */
  function SquaredDeviations(s: seq<real>, m: real): real {
    if s == [] then 0.0
    else SquaredDeviations(s[..|s| - 1], m) + (s[|s| - 1] - m) * (s[|s| - 1] - m)
  }

  /** Σ (x − mean)² / (n − 1), or 0 for a single sample. A variance, not a
      standard deviation, though the source reports it as jitter in ms. */
  function SampleVariance(s: seq<real>): real
    requires |s| > 0
  {
    if |s| > 1 then SquaredDeviations(s, Mean(s)) / (|s| - 1) as real else 0.0
  }

  /** The estimate a strategy derives from its sample set. */
  function Statistics(s: seq<real>): Result<Latency> {
    if |s| < MinSamples then Err(NotEnoughPings)
    else Ok(Latency(Mean(s), SampleVariance(s)))
  }

  /** A Go-style `(float64, float64, error)` return agrees with `r`; on failure
      both numbers are zero. */
  predicate ReportsLatency(avgPing: real, jitter: real, err: Option<Error>, r: Result<Latency>) {
    match r
    case Ok(l) => err == None && avgPing == l.ping && jitter == l.jitter
    case Err(e) => err == Some(e) && avgPing == 0.0 && jitter == 0.0
  }

  /** The minimum-sample check, then the summing loop and the squared-deviation
      loop shared by both strategies. */
  method ComputeLatency(pingTimes: seq<real>) returns (avgPing: real, jitter: real, err: Option<Error>)
    ensures ReportsLatency(avgPing, jitter, err, Statistics(pingTimes))
  {
    if |pingTimes| < MinSamples {
      return 0.0, 0.0, Some(NotEnoughPings);
    }
    var sum := 0.0;
    var i := 0;
    while i < |pingTimes|
      invariant 0 <= i <= |pingTimes|
      invariant sum == Sum(pingTimes[..i])
    {
      assert pingTimes[..i + 1][..i] == pingTimes[..i];
      sum := sum + pingTimes[i];
      i := i + 1;
    }
    assert pingTimes[..i] == pingTimes;
    avgPing := sum / |pingTimes| as real;

    var variance := 0.0;
    i := 0;
    while i < |pingTimes|
      invariant 0 <= i <= |pingTimes|
      invariant variance == SquaredDeviations(pingTimes[..i], avgPing)
    {
      assert pingTimes[..i + 1][..i] == pingTimes[..i];
      variance := variance + (pingTimes[i] - avgPing) * (pingTimes[i] - avgPing);
      i := i + 1;
    }
    assert pingTimes[..i] == pingTimes;
    jitter := 0.0;
    if |pingTimes| > 1 {
      jitter := variance / (|pingTimes| - 1) as real;
    }
    err := None;
  }

  /** Primary strategy: TCP connects to three hosts. */
  method MeasurePingAndJitter(dial: (string, nat) -> Option<nat>) returns (avgPing: real, jitter: real, err: Option<Error>)
    ensures ReportsLatency(avgPing, jitter, err, Statistics(Samples(dial, TcpHosts)))
  {
    var pingTimes := CollectSamples(dial, TcpHosts);
    avgPing, jitter, err := ComputeLatency(pingTimes);
  }

  /** Fallback strategy: HTTP HEAD requests to two hosts. */
  method MeasureAlternativePing(head: (string, nat) -> Option<nat>) returns (avgPing: real, jitter: real, err: Option<Error>)
    ensures ReportsLatency(avgPing, jitter, err, Statistics(Samples(head, HeadHosts)))
  {
    var pingTimes := CollectSamples(head, HeadHosts);
    avgPing, jitter, err := ComputeLatency(pingTimes);
  }

  // Properties of the statistics

  lemma ProductPositive(a: real, b: real)
    requires a > 0.0 && b > 0.0
    ensures a * b > 0.0
  {
  }

  lemma SquareNonNegative(d: real)
    ensures d * d >= 0.0
  {
    if d > 0.0 {
      ProductPositive(d, d);
    } else if d < 0.0 {
      ProductPositive(-d, -d);
    }
  }

  lemma {:induction false} SquaredDeviationsNonNegative(s: seq<real>, m: real)
    ensures SquaredDeviations(s, m) >= 0.0
  {
    if s != [] {
      SquaredDeviationsNonNegative(s[..|s| - 1], m);
      SquareNonNegative(s[|s| - 1] - m);
    }
  }

  lemma {:induction false} SumOfConstant(s: seq<real>, c: real)
    requires forall i :: 0 <= i < |s| ==> s[i] == c
    ensures Sum(s) == |s| as real * c
  {
    if s != [] {
      SumOfConstant(s[..|s| - 1], c);
    }
  }

  lemma {:induction false} DeviationsFromConstant(s: seq<real>, m: real)
    requires forall i :: 0 <= i < |s| ==> s[i] == m
    ensures SquaredDeviations(s, m) == 0.0
  {
    if s != [] {
      DeviationsFromConstant(s[..|s| - 1], m);
    }
  }

  /** The jitter is never negative. */
  lemma JitterNonNegative(s: seq<real>)
    requires |s| > 0
    ensures SampleVariance(s) >= 0.0
  {
    SquaredDeviationsNonNegative(s, Mean(s));
  }

  /** Equal samples have no jitter, and their ping is that common value. */
  lemma ConstantSamplesHaveNoJitter(s: seq<real>, c: real)
    requires |s| > 0
    requires forall i :: 0 <= i < |s| ==> s[i] == c
    ensures Mean(s) == c
    ensures SampleVariance(s) == 0.0
  {
    SumOfConstant(s, c);
    assert Mean(s) == c;
    DeviationsFromConstant(s, c);
  }

  lemma {:induction false} SumBounds(s: seq<real>, lo: real, hi: real)
    requires forall i :: 0 <= i < |s| ==> lo <= s[i] <= hi
    ensures |s| as real * lo <= Sum(s) <= |s| as real * hi
  {
    if s != [] {
      SumBounds(s[..|s| - 1], lo, hi);
    }
  }

  /** The ping lies between the smallest and the largest sample. */
  lemma MeanBetween(s: seq<real>, lo: real, hi: real)
    requires |s| > 0
    requires forall i :: 0 <= i < |s| ==> lo <= s[i] <= hi
    ensures lo <= Mean(s) <= hi
  {
    var n := |s| as real;
    SumBounds(s, lo, hi);
    assert Mean(s) * n == Sum(s);
  }

  /** Whatever the probes return, a successful estimate has a non-negative
      ping and a non-negative jitter. */
  lemma EstimateNonNegative(probe: (string, nat) -> Option<nat>, hosts: seq<string>)
    requires Statistics(Samples(probe, hosts)).Ok?
    ensures Statistics(Samples(probe, hosts)).value.ping >= 0.0
    ensures Statistics(Samples(probe, hosts)).value.jitter >= 0.0
  {
    var s := Samples(probe, hosts);
    SamplesShape(probe, hosts);
    var hi := s[0];
    var k := 1;
    while k < |s|
      invariant 1 <= k <= |s|
      invariant forall i :: 0 <= i < k ==> s[i] <= hi
    {
      if s[k] > hi {
        hi := s[k];
      }
      k := k + 1;
    }
    MeanBetween(s, 0.0, hi);
    JitterNonNegative(s);
  }

  /** Samples [10, 12, 11, 13, 14] ms give ping 12 and jitter 2.5. */
  lemma StatisticsExample()
    ensures Statistics([10.0, 12.0, 11.0, 13.0, 14.0]) == Ok(Latency(12.0, 2.5))
  {
    var s1, s2, s3, s4, s := [10.0], [10.0, 12.0], [10.0, 12.0, 11.0], [10.0, 12.0, 11.0, 13.0], [10.0, 12.0, 11.0, 13.0, 14.0];
    assert s1[..0] == [] && s2[..1] == s1 && s3[..2] == s2 && s4[..3] == s3 && s[..4] == s4;
    assert Sum(s) == 60.0 by {
      assert Sum(s1) == 10.0;
      assert Sum(s2) == 22.0;
      assert Sum(s3) == 33.0;
      assert Sum(s4) == 46.0;
    }
    assert SquaredDeviations(s, 12.0) == 10.0 by {
      assert SquaredDeviations(s1, 12.0) == 4.0;
      assert SquaredDeviations(s2, 12.0) == 4.0;
      assert SquaredDeviations(s3, 12.0) == 5.0;
      assert SquaredDeviations(s4, 12.0) == 6.0;
    }
  }
}
