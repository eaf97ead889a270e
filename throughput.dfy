/** Download and upload throughput: the single-connection, multi-connection
    and alternative strategies of the speed test service, each over the
    network outcomes in `Net`. Every rate is megabits (10^6 bits) per second. */
module Throughput {
  import opened Models
  import opened Network
  import opened Median

  /** Rate of moving `bytes` bytes in `seconds` seconds. */
  function Mbps(bytes: nat, seconds: real): (r: real)
    requires seconds > 0.0
    ensures r >= 0.0
    ensures r == 0.0 <==> bytes == 0
  {
    (bytes as real * 8.0 / 1000000.0) / seconds
  }

  /** The rate times the elapsed time gives back the megabits moved. */
  lemma MbpsRoundTrip(bytes: nat, seconds: real)
    requires seconds > 0.0
    ensures Mbps(bytes, seconds) * seconds == bytes as real * 8.0 / 1000000.0
  {
  }

  /** More bytes in the same time, or the same bytes in less time, is a higher rate. */
  lemma MbpsMonotonic(b1: nat, b2: nat, s1: real, s2: real)
    requires 0.0 < s2 <= s1 && b1 <= b2
    ensures Mbps(b1, s1) <= Mbps(b2, s2)
  {
    assert Mbps(b1, s1) <= Mbps(b2, s1);
  }

  lemma MbpsExamples()
    ensures Mbps(25000000, 2.0) == 100.0
    ensures Mbps(8700000, 1.5) == 46.4
  {
  }

  /** Total of the byte counts the successive reads of a body returned. */
  function BytesRead(chunks: seq<nat>): nat {
    if |chunks| == 0 then 0 else BytesRead(chunks[..|chunks| - 1]) + chunks[|chunks| - 1]
  }

  /** Reading a body in two parts counts the bytes of both. */
  lemma {:induction false} BytesReadAppend(a: seq<nat>, b: seq<nat>)
    ensures BytesRead(a + b) == BytesRead(a) + BytesRead(b)
    decreases |b|
  {
    if |b| > 0 {
      assert (a + b)[..|a + b| - 1] == a + b[..|b| - 1];
      BytesReadAppend(a, b[..|b| - 1]);
    } else {
      assert a + b == a;
    }
  }

  /** Every read counts: the total is at least the bytes of any single read. */
  lemma {:induction false} BytesReadBoundsChunks(chunks: seq<nat>)
    ensures forall k :: 0 <= k < |chunks| ==> chunks[k] <= BytesRead(chunks)
  {
    if |chunks| > 0 {
      var init := chunks[..|chunks| - 1];
      BytesReadBoundsChunks(init);
      assert forall k :: 0 <= k < |init| ==> chunks[k] == init[k];
    }
  }

  /** The read loop: add up what every `Read` returned, including the bytes
      delivered together with the final error. */
  method ReadBody(chunks: seq<nat>) returns (totalBytes: nat)
    ensures totalBytes == BytesRead(chunks)
  {
    totalBytes := 0;
    var k := 0;
    while k < |chunks|
      invariant 0 <= k <= |chunks|
      invariant totalBytes == BytesRead(chunks[..k])
    {
      assert chunks[..k + 1][..k] == chunks[..k];
      totalBytes := totalBytes + chunks[k];
      k := k + 1;
    }
    assert chunks[..k] == chunks;
  }

  // ---------------------------------------------------------------------
  // Single connection

  const DownloadUrl: string := "https://speed.cloudflare.com/__down?bytes=25000000"
  const UploadUrl: string := "https://speed.cloudflare.com/__up"
  /** 5 MiB, sent as one POST body. */
  const UploadPayloadSize: nat := 5 * 1024 * 1024

  /** The single-connection download: the rate of the whole body when it was
      read to EOF; a failed request or a read error aborts the measurement. */
  function DownloadSpeed(f: Fetch): (r: Result<real>)
    requires f.Fetched? ==> f.seconds > 0.0
    ensures r.Ok? <==> f.Fetched? && f.eof
    ensures r.Err? ==> r.error == TransportFailure
    ensures r.Ok? ==> r.value * f.seconds == BytesRead(f.chunks) as real * 8.0 / 1000000.0
  {
    match f
    case GetFailed => Err(TransportFailure)
    case Fetched(chunks, eof, seconds) =>
      if !eof then Err(TransportFailure)
      else
        MbpsRoundTrip(BytesRead(chunks), seconds);
        Ok(Mbps(BytesRead(chunks), seconds))
  }

  /** The single-connection upload: the rate of the 5 MiB payload when the
      POST went through, whatever its response. */
  function UploadSpeed(o: Option<Seconds>): (r: Result<real>)
    requires o.Some? ==> o.value > 0.0
    ensures r.Ok? <==> o.Some?
    ensures r.Err? ==> r.error == TransportFailure
    ensures r.Ok? ==> r.value > 0.0 && r.value * o.value == UploadPayloadSize as real * 8.0 / 1000000.0
  {
    match o
    case None => Err(TransportFailure)
    case Some(seconds) =>
      MbpsRoundTrip(UploadPayloadSize, seconds);
      Ok(Mbps(UploadPayloadSize, seconds))
  }

  /** Elapsed times are positive wherever a rate is computed from them
      without a check: time has passed since a request was issued. */
  predicate ClocksAdvance(net: Net) {
    && (net.get(DownloadUrl).Fetched? ==> net.get(DownloadUrl).seconds > 0.0)
    && (net.post(UploadUrl, UploadPayloadSize).Some? ==> net.post(UploadUrl, UploadPayloadSize).value > 0.0)
    && net.multiDownloadSeconds > 0.0
    && net.multiUploadSeconds > 0.0
  }

  method MeasureDownloadSpeed(net: Net) returns (speedMbps: real, err: Option<Error>)
    requires ClocksAdvance(net)
    ensures Reports(speedMbps, err, DownloadSpeed(net.get(DownloadUrl)))
  {
    var resp := net.get(DownloadUrl);
    if resp.GetFailed? {
      return 0.0, Some(TransportFailure);
    }
    var totalBytes := ReadBody(resp.chunks);
    if !resp.eof {
      return 0.0, Some(TransportFailure);
    }
    speedMbps := Mbps(totalBytes, resp.seconds);
    err := None;
  }

  method MeasureUploadSpeed(net: Net) returns (speedMbps: real, err: Option<Error>)
    requires ClocksAdvance(net)
    ensures Reports(speedMbps, err, UploadSpeed(net.post(UploadUrl, UploadPayloadSize)))
  {
    var sent := net.post(UploadUrl, UploadPayloadSize);
    if sent.None? {
      return 0.0, Some(TransportFailure);
    }
    speedMbps := Mbps(UploadPayloadSize, sent.value);
    err := None;
  }

  // ---------------------------------------------------------------------
  // Multiple connections: four workers, server chosen round-robin

  /** Path and query of the 10,000,000-byte file each download worker fetches. */
  const WorkerDownloadPath: string := "/__down?bytes=10000000"
  /** 2 MiB per upload worker. */
  const WorkerPayloadSize: nat := 2 * 1024 * 1024

  function DownloadWorkerUrl(connID: nat): string {
    TestServers[ServerIndex(connID)].url + WorkerDownloadPath
  }

  function UploadWorkerUrl(connID: nat): string {
    TestServers[ServerIndex(connID)].url + "/__up"
  }

  /** Bytes a download worker adds to the shared total: every byte it read,
      even when the body then failed. */
  function WorkerBytes(f: Fetch): nat {
    if f.GetFailed? then 0 else BytesRead(f.chunks)
  }

  /** A download worker records an error when its request fails or its body
      ends in anything but EOF. */
  predicate WorkerFailed(f: Fetch) {
    f.GetFailed? || !f.eof
  }

  function TotalBytes(ws: seq<Fetch>): nat {
    if |ws| == 0 then 0 else TotalBytes(ws[..|ws| - 1]) + WorkerBytes(ws[|ws| - 1])
  }

  /** Number of errors the download workers appended. */
  function Failures(ws: seq<Fetch>): (n: nat)
    ensures n <= |ws|
  {
    if |ws| == 0 then 0 else Failures(ws[..|ws| - 1]) + (if WorkerFailed(ws[|ws| - 1]) then 1 else 0)
  }

  /** The error count reaches the number of workers exactly when every worker failed. */
  lemma {:induction false} FailuresCountAll(ws: seq<Fetch>)
    ensures Failures(ws) == |ws| <==> forall i :: 0 <= i < |ws| ==> WorkerFailed(ws[i])
  {
    if |ws| > 0 {
      var init := ws[..|ws| - 1];
      FailuresCountAll(init);
      assert forall i :: 0 <= i < |init| ==> ws[i] == init[i];
    }
  }

  /** What the four download workers observed, worker `c` fetching from server c mod 5. */
  function DownloadWorkers(net: Net): (ws: seq<Fetch>)
    ensures |ws| == NumConnections
    ensures forall c :: 0 <= c < NumConnections ==> ws[c] == net.get(DownloadWorkerUrl(c))
  {
    seq(NumConnections, c requires 0 <= c => net.get(DownloadWorkerUrl(c)))
  }

  /** After all workers joined: an error when every one of them failed,
      otherwise the rate of all bytes any worker read over the whole window. */
  function CombineDownloads(ws: seq<Fetch>, seconds: real): (r: Result<real>)
    requires seconds > 0.0
    ensures r.Err? <==> Failures(ws) == NumConnections
    ensures r.Err? ==> r.error == AllDownloadConnectionsFailed
    ensures r.Ok? ==> r.value * seconds == TotalBytes(ws) as real * 8.0 / 1000000.0
  {
    if Failures(ws) == NumConnections then Err(AllDownloadConnectionsFailed)
    else
      MbpsRoundTrip(TotalBytes(ws), seconds);
      Ok(Mbps(TotalBytes(ws), seconds))
  }

  function MultiDownloadSpeed(net: Net): Result<real>
    requires net.multiDownloadSeconds > 0.0
  {
    CombineDownloads(DownloadWorkers(net), net.multiDownloadSeconds)
  }

  /** The workers run one after another here; they share nothing but the two
      counters, which they only add to, so the totals after the join are the
      same in any interleaving. */
  method MeasureMultiConnectionDownloadSpeed(net: Net) returns (speedMbps: real, err: Option<Error>)
    requires net.multiDownloadSeconds > 0.0
    ensures Reports(speedMbps, err, MultiDownloadSpeed(net))
  {
    ghost var ws := DownloadWorkers(net);
    var totalBytes: nat := 0;
    var errors: nat := 0;
    var connID := 0;
    while connID < NumConnections
      invariant 0 <= connID <= NumConnections
      invariant totalBytes == TotalBytes(ws[..connID])
      invariant errors == Failures(ws[..connID])
    {
      assert ws[..connID + 1][..connID] == ws[..connID];
      var serverIndex := connID % |TestServers|;
      var url := TestServers[serverIndex].url + WorkerDownloadPath;
      var resp := net.get(url);
      if resp.GetFailed? {
        errors := errors + 1;
      } else {
        var connBytes := ReadBody(resp.chunks);
        totalBytes := totalBytes + connBytes;
        if !resp.eof {
          errors := errors + 1;
        }
      }
      connID := connID + 1;
    }
    assert ws[..connID] == ws;
    if errors == NumConnections {
      return 0.0, Some(AllDownloadConnectionsFailed);
    }
    speedMbps := Mbps(totalBytes, net.multiDownloadSeconds);
    err := None;
  }

  /** The multi-connection download fails exactly when all four workers failed. */
  lemma MultiDownloadFailsIffAllWorkersFail(net: Net)
    requires net.multiDownloadSeconds > 0.0
    ensures MultiDownloadSpeed(net).Err? <==>
      forall c :: 0 <= c < NumConnections ==> WorkerFailed(net.get(DownloadWorkerUrl(c)))
  {
    FailuresCountAll(DownloadWorkers(net));
  }

  /** Three workers read 3, 2.5 and 3.2 million bytes, one request fails;
      8.7 million bytes over 1.5 s is 46.4 Mbps. */
  lemma ThreeOfFourWorkersExample()
    ensures CombineDownloads([Fetched([3000000], true, 1.2), Fetched([2000000, 500000], true, 1.4),
                              GetFailed, Fetched([3200000], true, 1.5)], 1.5) == Ok(46.4)
  {
    var a, b, c, d := Fetched([3000000], true, 1.2), Fetched([2000000, 500000], true, 1.4),
                      GetFailed, Fetched([3200000], true, 1.5);
    assert [2000000, 500000][..1] == [2000000];
    assert [a, b][..1] == [a];
    assert [a, b, c][..2] == [a, b];
    assert [a, b, c, d][..3] == [a, b, c];
    assert TotalBytes([a]) == 3000000 && Failures([a]) == 0;
    assert TotalBytes([a, b]) == 5500000 && Failures([a, b]) == 0;
    assert TotalBytes([a, b, c]) == 5500000 && Failures([a, b, c]) == 1;
    assert TotalBytes([a, b, c, d]) == 8700000 && Failures([a, b, c, d]) == 1;
    MbpsExamples();
  }

  /** A worker whose body breaks off still adds the bytes it read: one million
      bytes that ended in a read error and one million read to EOF count as
      two million. */
  lemma BrokenWorkerBytesCount()
    ensures CombineDownloads([Fetched([1000000], false, 0.5), Fetched([1000000], true, 1.0),
                              GetFailed, GetFailed], 1.0) == Ok(16.0)
  {
    var a, b, c := Fetched([1000000], false, 0.5), Fetched([1000000], true, 1.0), GetFailed;
    assert [a, b][..1] == [a];
    assert [a, b, c][..2] == [a, b];
    assert [a, b, c, c][..3] == [a, b, c];
    assert TotalBytes([a]) == 1000000 && Failures([a]) == 1;
    assert TotalBytes([a, b]) == 2000000 && Failures([a, b]) == 1;
    assert TotalBytes([a, b, c]) == 2000000 && Failures([a, b, c]) == 2;
    assert TotalBytes([a, b, c, c]) == 2000000 && Failures([a, b, c, c]) == 3;
  }

  /** A worker that read nothing but reached EOF succeeds, so with the other
      three failing the measurement reports a rate of 0 rather than an error. */
  lemma ZeroByteSuccessExample()
    ensures CombineDownloads([Fetched([], true, 1.0), GetFailed, GetFailed, GetFailed], 1.0) == Ok(0.0)
  {
    var a, c := Fetched([], true, 1.0), GetFailed;
    assert [a, c][..1] == [a];
    assert [a, c, c][..2] == [a, c];
    assert [a, c, c, c][..3] == [a, c, c];
    assert TotalBytes([a]) == 0 && Failures([a]) == 0;
    assert TotalBytes([a, c]) == 0 && Failures([a, c]) == 1;
    assert TotalBytes([a, c, c]) == 0 && Failures([a, c, c]) == 2;
    assert TotalBytes([a, c, c, c]) == 0 && Failures([a, c, c, c]) == 3;
  }

  /** Four workers that each read data and then broke off make the whole
      measurement fail, bytes notwithstanding. */
  lemma AllBrokenWorkersFail()
    ensures CombineDownloads([Fetched([500], false, 1.0), Fetched([500], false, 1.0),
                              Fetched([500], false, 1.0), Fetched([500], false, 1.0)], 2.0)
            == Err(AllDownloadConnectionsFailed)
  {
    var ws := [Fetched([500], false, 1.0), Fetched([500], false, 1.0),
               Fetched([500], false, 1.0), Fetched([500], false, 1.0)];
    FailuresCountAll(ws);
  }

  /** What the four upload workers observed: whether the POST of 2 MiB to
      server c mod 5 went through. */
  function UploadWorkers(net: Net): (ws: seq<Option<Seconds>>)
    ensures |ws| == NumConnections
    ensures forall c :: 0 <= c < NumConnections ==> ws[c] == net.post(UploadWorkerUrl(c), WorkerPayloadSize)
  {
    seq(NumConnections, c requires 0 <= c => net.post(UploadWorkerUrl(c), WorkerPayloadSize))
  }

  /** Bytes credited by the upload workers: the whole payload per accepted POST. */
  function UploadedBytes(ws: seq<Option<Seconds>>): nat {
    if |ws| == 0 then 0
    else UploadedBytes(ws[..|ws| - 1]) + (if ws[|ws| - 1].Some? then WorkerPayloadSize else 0)
  }

  function UploadFailures(ws: seq<Option<Seconds>>): (n: nat)
    ensures n <= |ws|
  {
    if |ws| == 0 then 0 else UploadFailures(ws[..|ws| - 1]) + (if ws[|ws| - 1].None? then 1 else 0)
  }

  /** Each upload worker either fails or is credited its whole payload. */
  lemma {:induction false} UploadedBytesCountSuccesses(ws: seq<Option<Seconds>>)
    ensures UploadedBytes(ws) == (|ws| - UploadFailures(ws)) * WorkerPayloadSize
  {
    if |ws| > 0 {
      UploadedBytesCountSuccesses(ws[..|ws| - 1]);
    }
  }

  lemma {:induction false} UploadFailuresCountAll(ws: seq<Option<Seconds>>)
    ensures UploadFailures(ws) == |ws| <==> forall i :: 0 <= i < |ws| ==> ws[i].None?
  {
    if |ws| > 0 {
      var init := ws[..|ws| - 1];
      UploadFailuresCountAll(init);
      assert forall i :: 0 <= i < |init| ==> ws[i] == init[i];
    }
  }

  function CombineUploads(ws: seq<Option<Seconds>>, seconds: real): (r: Result<real>)
    requires seconds > 0.0
    ensures r.Err? <==> UploadFailures(ws) == NumConnections
    ensures r.Err? ==> r.error == AllUploadConnectionsFailed
    ensures r.Ok? ==> r.value * seconds == UploadedBytes(ws) as real * 8.0 / 1000000.0
  {
    if UploadFailures(ws) == NumConnections then Err(AllUploadConnectionsFailed)
    else
      MbpsRoundTrip(UploadedBytes(ws), seconds);
      Ok(Mbps(UploadedBytes(ws), seconds))
  }

  function MultiUploadSpeed(net: Net): Result<real>
    requires net.multiUploadSeconds > 0.0
  {
    CombineUploads(UploadWorkers(net), net.multiUploadSeconds)
  }

  method MeasureMultiConnectionUploadSpeed(net: Net) returns (speedMbps: real, err: Option<Error>)
    requires net.multiUploadSeconds > 0.0
    ensures Reports(speedMbps, err, MultiUploadSpeed(net))
  {
    ghost var ws := UploadWorkers(net);
    var totalBytes: nat := 0;
    var errors: nat := 0;
    var connID := 0;
    while connID < NumConnections
      invariant 0 <= connID <= NumConnections
      invariant totalBytes == UploadedBytes(ws[..connID])
      invariant errors == UploadFailures(ws[..connID])
    {
      assert ws[..connID + 1][..connID] == ws[..connID];
      var serverIndex := connID % |TestServers|;
      var url := TestServers[serverIndex].url + "/__up";
      var sent := net.post(url, WorkerPayloadSize);
      if sent.None? {
        errors := errors + 1;
      } else {
        totalBytes := totalBytes + WorkerPayloadSize;
      }
      connID := connID + 1;
    }
    assert ws[..connID] == ws;
    if errors == NumConnections {
      return 0.0, Some(AllUploadConnectionsFailed);
    }
    speedMbps := Mbps(totalBytes, net.multiUploadSeconds);
    err := None;
  }

  /** The multi-connection upload fails exactly when every POST failed, and
      otherwise reports a positive rate over whole 2 MiB payloads. */
  lemma MultiUploadOutcome(net: Net)
    requires net.multiUploadSeconds > 0.0
    ensures MultiUploadSpeed(net).Err? <==>
      forall c :: 0 <= c < NumConnections ==> net.post(UploadWorkerUrl(c), WorkerPayloadSize).None?
    ensures MultiUploadSpeed(net).Ok? ==> MultiUploadSpeed(net).value > 0.0
    ensures UploadedBytes(UploadWorkers(net)) % WorkerPayloadSize == 0
  {
    var ws := UploadWorkers(net);
    UploadFailuresCountAll(ws);
    UploadedBytesCountSuccesses(ws);
  }

  // ---------------------------------------------------------------------
  // Alternative sources: small transfers, median of the rates times 1.5

  const AlternativeDownloadUrls: seq<string> := [
    "https://www.google.com/images/branding/googlelogo/1x/googlelogo_color_272x92dp.png",
    "https://www.microsoft.com/favicon.ico",
    "https://speed.cloudflare.com/__down?bytes=1000000"
  ]

  const AlternativeUploadUrls: seq<string> := [
    "https://httpbin.org/post",
    "https://postman-echo.com/post"
  ]

  /** 1 MiB per alternative upload. */
  const AlternativePayloadSize: nat := 1 * 1024 * 1024

  /** A download source contributes a rate when its request went through and
      some bytes arrived in a positive time; a read error just ends the body. */
  function AlternativeDownloadRate(f: Fetch): (r: Option<real>)
    ensures r.Some? <==> f.Fetched? && BytesRead(f.chunks) > 0 && f.seconds > 0.0
    ensures r.Some? ==> r.value > 0.0 && r.value * f.seconds == BytesRead(f.chunks) as real * 8.0 / 1000000.0
  {
    if f.Fetched? && BytesRead(f.chunks) > 0 && f.seconds > 0.0 then
      MbpsRoundTrip(BytesRead(f.chunks), f.seconds);
      Some(Mbps(BytesRead(f.chunks), f.seconds))
    else None
  }

  /** An upload endpoint contributes a rate when the POST went through in a positive time. */
  function AlternativeUploadRate(o: Option<Seconds>): (r: Option<real>)
    ensures r.Some? <==> o.Some? && o.value > 0.0
    ensures r.Some? ==> r.value > 0.0 && r.value * o.value == AlternativePayloadSize as real * 8.0 / 1000000.0
  {
    if o.Some? && o.value > 0.0 then
      MbpsRoundTrip(AlternativePayloadSize, o.value);
      Some(Mbps(AlternativePayloadSize, o.value))
    else None
  }

  /** The collected rates, in the order the sources were tried. */
  function Collected(rates: seq<Option<real>>): (speeds: seq<real>)
    ensures |speeds| <= |rates|
  {
    if |rates| == 0 then []
    else
      var last := rates[|rates| - 1];
      Collected(rates[..|rates| - 1]) + (if last.Some? then [last.value] else [])
  }

  /** Nothing is collected exactly when no source produced a rate. */
  lemma {:induction false} CollectedSomes(rates: seq<Option<real>>)
    ensures |Collected(rates)| == 0 <==> forall i :: 0 <= i < |rates| ==> rates[i].None?
  {
    if |rates| > 0 {
      var init := rates[..|rates| - 1];
      CollectedSomes(init);
      assert rates == init + [rates[|rates| - 1]];
    }
  }

  /** Only positive rates are collected when every source's rate is positive. */
  lemma {:induction false} CollectedPositive(rates: seq<Option<real>>)
    requires forall i :: 0 <= i < |rates| && rates[i].Some? ==> rates[i].value > 0.0
    ensures forall k :: 0 <= k < |Collected(rates)| ==> Collected(rates)[k] > 0.0
  {
    if |rates| > 0 {
      CollectedPositive(rates[..|rates| - 1]);
    }
  }

  function AlternativeDownloadRates(net: Net): (rates: seq<Option<real>>)
    ensures |rates| == |AlternativeDownloadUrls|
    ensures forall i :: 0 <= i < |rates| ==> rates[i] == AlternativeDownloadRate(net.get(AlternativeDownloadUrls[i]))
  {
    seq(|AlternativeDownloadUrls|, i requires 0 <= i < |AlternativeDownloadUrls| =>
      AlternativeDownloadRate(net.get(AlternativeDownloadUrls[i])))
  }

  function AlternativeUploadRates(net: Net): (rates: seq<Option<real>>)
    ensures |rates| == |AlternativeUploadUrls|
    ensures forall i :: 0 <= i < |rates| ==> rates[i] == AlternativeUploadRate(net.post(AlternativeUploadUrls[i], AlternativePayloadSize))
  {
    seq(|AlternativeUploadUrls|, i requires 0 <= i < |AlternativeUploadUrls| =>
      AlternativeUploadRate(net.post(AlternativeUploadUrls[i], AlternativePayloadSize)))
  }

  function AlternativeDownloadSpeed(net: Net): Result<real> {
    ScaledMedian(Collected(AlternativeDownloadRates(net)), AllAlternativeDownloadsFailed)
  }

  function AlternativeUploadSpeed(net: Net): Result<real> {
    ScaledMedian(Collected(AlternativeUploadRates(net)), AllAlternativeUploadsFailed)
  }

  /** The common tail of both alternative measurements: fail when no rate
      was collected, otherwise sort and report the scaled median. */
  method ReportScaledMedian(speeds: seq<real>, failure: Error) returns (speedMbps: real, err: Option<Error>)
    ensures Reports(speedMbps, err, ScaledMedian(speeds, failure))
  {
    if |speeds| == 0 {
      return 0.0, Some(failure);
    }
    var sorted := Sort(speeds);
    speedMbps := sorted[|sorted| / 2] * MedianCorrection;
    err := None;
  }

  method MeasureAlternativeDownloadSpeed(net: Net) returns (speedMbps: real, err: Option<Error>)
    ensures Reports(speedMbps, err, AlternativeDownloadSpeed(net))
  {
    ghost var rates := AlternativeDownloadRates(net);
    var speeds: seq<real> := [];
    var k := 0;
    while k < |AlternativeDownloadUrls|
      invariant 0 <= k <= |AlternativeDownloadUrls|
      invariant speeds == Collected(rates[..k])
    {
      assert rates[..k + 1][..k] == rates[..k];
      var resp := net.get(AlternativeDownloadUrls[k]);
      if resp.Fetched? {
        var totalBytes := ReadBody(resp.chunks);
        if totalBytes > 0 && resp.seconds > 0.0 {
          speeds := speeds + [Mbps(totalBytes, resp.seconds)];
        }
      }
      k := k + 1;
    }
    assert rates[..k] == rates;
    speedMbps, err := ReportScaledMedian(speeds, AllAlternativeDownloadsFailed);
  }

  method MeasureAlternativeUploadSpeed(net: Net) returns (speedMbps: real, err: Option<Error>)
    ensures Reports(speedMbps, err, AlternativeUploadSpeed(net))
  {
    ghost var rates := AlternativeUploadRates(net);
    var speeds: seq<real> := [];
    var k := 0;
    while k < |AlternativeUploadUrls|
      invariant 0 <= k <= |AlternativeUploadUrls|
      invariant speeds == Collected(rates[..k])
    {
      assert rates[..k + 1][..k] == rates[..k];
      var sent := net.post(AlternativeUploadUrls[k], AlternativePayloadSize);
      if sent.Some? && sent.value > 0.0 {
        speeds := speeds + [Mbps(AlternativePayloadSize, sent.value)];
      }
      k := k + 1;
    }
    assert rates[..k] == rates;
    speedMbps, err := ReportScaledMedian(speeds, AllAlternativeUploadsFailed);
  }

  /** The median of positive rates, scaled, is positive. */
  lemma ScaledMedianPositive(speeds: seq<real>, failure: Error)
    requires forall i :: 0 <= i < |speeds| ==> speeds[i] > 0.0
    ensures ScaledMedian(speeds, failure).Ok? ==> ScaledMedian(speeds, failure).value > 0.0
  {
    if |speeds| > 0 {
      MedianSplits(speeds, failure);
    }
  }

  /** Over rates that are positive wherever present, the scaled median fails
      exactly when no source produced a rate, and is otherwise positive. */
  lemma CollectedMedianOutcome(rates: seq<Option<real>>, failure: Error)
    requires forall i :: 0 <= i < |rates| && rates[i].Some? ==> rates[i].value > 0.0
    ensures ScaledMedian(Collected(rates), failure).Err? <==> forall i :: 0 <= i < |rates| ==> rates[i].None?
    ensures ScaledMedian(Collected(rates), failure).Ok? ==> ScaledMedian(Collected(rates), failure).value > 0.0
  {
    CollectedSomes(rates);
    CollectedPositive(rates);
    ScaledMedianPositive(Collected(rates), failure);
  }

  /** The alternative download fails exactly when no source delivered bytes
      in a positive time, and otherwise reports a positive rate. */
  lemma AlternativeDownloadOutcome(net: Net)
    ensures AlternativeDownloadSpeed(net).Err? <==>
      forall i :: 0 <= i < |AlternativeDownloadUrls| ==>
        var f := net.get(AlternativeDownloadUrls[i]); !(f.Fetched? && BytesRead(f.chunks) > 0 && f.seconds > 0.0)
    ensures AlternativeDownloadSpeed(net).Ok? ==> AlternativeDownloadSpeed(net).value > 0.0
  {
    var rates := AlternativeDownloadRates(net);
    CollectedMedianOutcome(rates, AllAlternativeDownloadsFailed);
  }

  /** The alternative upload fails exactly when no POST went through in a
      positive time, and otherwise reports a positive rate. */
  lemma AlternativeUploadOutcome(net: Net)
    ensures AlternativeUploadSpeed(net).Err? <==>
      forall i :: 0 <= i < |AlternativeUploadUrls| ==>
        var o := net.post(AlternativeUploadUrls[i], AlternativePayloadSize); !(o.Some? && o.value > 0.0)
    ensures AlternativeUploadSpeed(net).Ok? ==> AlternativeUploadSpeed(net).value > 0.0
  {
    var rates := AlternativeUploadRates(net);
    CollectedMedianOutcome(rates, AllAlternativeUploadsFailed);
  }

  /** Sources tried in order: a tiny logo, a favicon read with an error, one
      million bytes. The rates 0.8, 0.4 and 4.0 sort to 0.4, 0.8, 4.0, and the
      middle one scaled gives 1.2 Mbps. */
  lemma AlternativeDownloadExample(net: Net)
    requires net.get(AlternativeDownloadUrls[0]) == Fetched([5000], true, 0.05)
    requires net.get(AlternativeDownloadUrls[1]) == Fetched([2000, 3000], false, 0.1)
    requires net.get(AlternativeDownloadUrls[2]) == Fetched([1000000], true, 2.0)
    ensures AlternativeDownloadSpeed(net) == Ok(1.2)
  {
    assert AlternativeDownloadRate(Fetched([5000], true, 0.05)) == Some(0.8) by {
      assert BytesRead([5000]) == 5000;
    }
    assert AlternativeDownloadRate(Fetched([2000, 3000], false, 0.1)) == Some(0.4) by {
      assert [2000, 3000][..1] == [2000];
      assert BytesRead([2000, 3000]) == 5000;
    }
    assert AlternativeDownloadRate(Fetched([1000000], true, 2.0)) == Some(4.0) by {
      assert BytesRead([1000000]) == 1000000;
    }
    assert AlternativeDownloadRates(net) == [Some(0.8), Some(0.4), Some(4.0)];
    CollectedMedianExample();
  }

  lemma CollectedMedianExample()
    ensures ScaledMedian(Collected([Some(0.8), Some(0.4), Some(4.0)]), AllAlternativeDownloadsFailed) == Ok(1.2)
  {
    var rates := [Some(0.8), Some(0.4), Some(4.0)];
    assert Collected(rates) == [0.8, 0.4, 4.0] by {
      assert rates[..2][..1] == [Some(0.8)];
      assert rates[..2] == rates[..|rates| - 1];
      assert Collected([Some(0.8)]) == [0.8];
      assert Collected(rates[..2]) == [0.8, 0.4];
    }
    ThreeRatesExample(Collected(rates));
  }
}
