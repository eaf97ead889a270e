# Online speed test backend — a Dafny model of its core

The backend measures a client's connection and stores the results. This
project models two parts of it:

- **The in-memory repositories** of the API server (`cmd/api/main.go`). They
  are two maps keyed by ID, `InMemorySpeedTestRepo` and `InMemoryUserRepo`.
  Each is a Dafny class with a `map` field. Its methods update the map in
  place under `modifies` clauses and state the whole new map. The class
  invariant says every stored record sits under its own ID.
- **The measurement engine** of `SpeedTestService`
  (`internal/services/speedtest_service.go`):
  - **Latency.** Each strategy makes five timed probes per host: TCP connects
    to three hosts, or HTTPS HEAD requests to two. It needs at least three
    successful samples. The ping is the mean of the samples. The "jitter" is
    their sample variance Σ(x − mean)²/(n − 1), exactly as the code computes
    it, even though a comment calls it a standard deviation.
  - **Throughput.** A rate is bytes·8/10⁶/seconds. There are three download
    and three upload strategies:
    - a single connection;
    - four round-robin workers over five test servers;
    - "alternative" small transfers, reported as 1.5 × the upper median of
      the per-source rates.
  - **The three-tier fallback** of `performSpeedTest`: for each metric, try
    the primary strategy, then the alternative one, then a random value. It
    never fails.
  - **`RunSpeedTest`**: builds the stored record from the metrics and the
    client's IP metadata, then saves it.

The network is an oracle value `Net`. It gives the outcome of every dial,
HEAD, GET and POST a run can make, and the elapsed time of each transfer.
The random draws of the last tier are a `Draws` value. The result ID and the
creation time are parameters.

Every loop of the measurement engine is proved against a specification function:

- `CollectSamples` against `Samples`;
- `ComputeLatency` against `Statistics`;
- `ReadBody` against `BytesRead`;
- the worker loops against `CombineDownloads` and `CombineUploads`;
- the alternative loops against `ScaledMedian ∘ Collected`.

The Go `(value, error)` returns are tied to those functions by the predicates
`Reports` and `ReportsLatency`: on success they carry the value and no error,
and on failure zero and the error.

Two details follow the code as written:

- Upload payloads are binary sizes: 5·1024·1024 bytes single-connection,
  2·1024·1024 per worker and 1·1024·1024 per alternative POST.
- A multi-connection download worker whose body breaks off after some reads
  records an error AND still adds the bytes it read. The rate is therefore
  computed over the bytes of all workers, including failed ones, and it can
  be 0 when the workers that succeeded read nothing.

Files:

| file | module |
|---|---|
| `models.dfy` | `Models`: records, errors, `Option`, `Result` and `Reports` |
| `repositories.dfy` | `Repositories`: the two in-memory repository classes |
| `network.dfy` | `Network`: network outcomes, test servers and round-robin choice |
| `latency.dfy` | `Latency`: sampling loops and ping/jitter statistics |
| `median.dfy` | `Median`: insertion sort and the scaled upper median |
| `throughput.dfy` | `Throughput`: the Mbps formula and the six throughput strategies |
| `service.dfy` | `Service`: the fallback chain and `RunSpeedTest` |

## Model

| member | source | states |
|---|---|---|
| `Repositories.InMemorySpeedTestRepo.constructor` | cmd/api/main.go:768-770 | A new repository is empty and satisfies the ID invariant. |
| `Repositories.InMemorySpeedTestRepo.SaveResult` | cmd/api/main.go:782-785 | The map becomes the old map with `result` under its ID: an existing entry is overwritten and every other entry is kept. It never fails and keeps the ID invariant. |
| `Repositories.InMemorySpeedTestRepo.GetResultsByUserID` | cmd/api/main.go:787-795 | Every returned result belongs to the user and is the record stored under its ID. Every stored result of the user is returned. No ID appears twice. The order is left open and the call never fails. |
| `Repositories.InMemorySpeedTestRepo.GetResultByID` | cmd/api/main.go:797-803 | A stored ID yields its record. Any other ID yields "result not found". |
| `Repositories.InMemorySpeedTestRepo.DeleteResult` | cmd/api/main.go:805-808 | The map loses exactly that key, whether or not it was present. It always succeeds. |
| `Repositories.InMemoryUserRepo.constructor` | cmd/api/main.go:773-775 | A new user repository is empty and satisfies the ID invariant. |
| `Repositories.InMemoryUserRepo.SaveUser` | cmd/api/main.go:815-818 | The map becomes the old map with `user` under its ID. It never fails. |
| `Repositories.InMemoryUserRepo.GetUserByID` | cmd/api/main.go:820-826 | A stored ID yields its profile. Any other ID yields "user not found". |
| `Repositories.InMemoryUserRepo.GetUserByEmail` | cmd/api/main.go:828-835 | The call fails, with "user not found", exactly when no stored profile has that email. Otherwise it returns a profile with that email which is the one stored under its own ID. |
| `Repositories.SaveThenGetResult` | cmd/api/main.go:782-803 | Reading back a saved result by its ID returns it, and every other ID's entry is unchanged. |
| `Repositories.DeleteThenGetResult` | cmd/api/main.go:797-808 | After a delete, reading that ID fails with "result not found" and every other entry is unchanged. Deleting an absent ID changes nothing. |
| `Repositories.SaveThenGetUser` | cmd/api/main.go:815-835 | After saving a profile, lookup by its ID returns it, and lookup by its email succeeds with a profile having that email. |
| `Network.ServerIndex` | internal/services/speedtest_service.go:280 | connID mod 5 is always a valid index into the five servers. It is the connection ID itself below 5. |
| `Network.RoundRobinSpreads` | internal/services/speedtest_service.go:280 | Two connection IDs less than five apart go to different servers. |
| `Network.WorkersUseDistinctServers` | internal/services/speedtest_service.go:269-281 | The four workers use four distinct servers. |
| `Latency.CollectSamples` | internal/services/speedtest_service.go:133-147 | The nested probing loops collect exactly `Samples(probe, hosts)`: the truncated milliseconds of each successful probe, host by host and attempt by attempt. |
| `Latency.HostSamplesShape` | internal/services/speedtest_service.go:137-146 | Probing one host yields at most one sample per attempt, and each sample is a non-negative whole number of milliseconds. |
| `Latency.SamplesShape` | internal/services/speedtest_service.go:135-147 | A strategy yields at most 5 × (number of hosts) samples in total, all non-negative whole milliseconds. |
| `Latency.ComputeLatency` | internal/services/speedtest_service.go:151-172 | The sum and variance loops agree with `Statistics`. Fewer than 3 samples give (0, 0) and "not enough successful pings". Otherwise the ping is Sum/n and the jitter is Σ(x−mean)²/(n−1), or 0 when n = 1. |
| `Latency.MeasurePingAndJitter` | internal/services/speedtest_service.go:132-173 | The TCP strategy's result is the statistics of the TCP sample set, with (0, 0) and the error below three samples. |
| `Latency.MeasureAlternativePing` | internal/services/speedtest_service.go:176-219 | The HEAD strategy is the same over the two HEAD hosts. |
| `Latency.SquaredDeviationsNonNegative` | internal/services/speedtest_service.go:164-167 | The accumulated squared deviations are never negative. |
| `Latency.SumOfConstant` | internal/services/speedtest_service.go:155-158 | n equal samples c sum to n·c. |
| `Latency.DeviationsFromConstant` | internal/services/speedtest_service.go:164-167 | Samples all equal to m have zero squared deviation from m. |
| `Latency.JitterNonNegative` | internal/services/speedtest_service.go:164-172 | The jitter is never negative. |
| `Latency.ConstantSamplesHaveNoJitter` | internal/services/speedtest_service.go:155-172 | Equal samples have that common value as ping and zero jitter. |
| `Latency.SumBounds` | internal/services/speedtest_service.go:155-158 | Samples within [lo, hi] sum to between n·lo and n·hi. |
| `Latency.MeanBetween` | internal/services/speedtest_service.go:155-160 | The ping lies between the smallest and the largest sample. |
| `Latency.EstimateNonNegative` | internal/services/speedtest_service.go:132-173 | Whatever the probes return, a successful estimate has a non-negative ping and jitter. |
| `Latency.StatisticsExample` | internal/services/speedtest_service.go:155-172 | Samples [10, 12, 11, 13, 14] give ping 12 and jitter 2.5. |
| `Median.Insert` | internal/services/speedtest_service.go:387 | Inserting adds exactly `x` to the multiset of elements, and `x` comes first when it is not above the old first element. |
| `Median.FirstNotBelow` | internal/services/speedtest_service.go:387 | The insertion point k is within the sequence bounds, every element before it is below `x`, and the element at k, if any, is not below `x`. |
| `Median.InsertPlacement` | internal/services/speedtest_service.go:387 | Inserting keeps the sequence as it was on both sides of that insertion point and puts `x` there. |
| `Median.InsertSorted` | internal/services/speedtest_service.go:387 | Inserting into an ascending sequence keeps it ascending. |
| `Median.Sort` | internal/services/speedtest_service.go:387 | The sorted rates are ascending and a permutation of the input. |
| `Median.ScaledMedian` | internal/services/speedtest_service.go:382-392 | The result is an error exactly when there are no rates, and it is then the strategy's own error. |
| `Median.HeadIsLeast` | internal/services/speedtest_service.go:387-388 | The first element of an ascending sequence is no larger than any of its elements. |
| `Median.SortedPermutationUnique` | internal/services/speedtest_service.go:387-388 | Two ascending permutations of the same rates are equal, so the median does not depend on the sorting algorithm. |
| `Median.MedianOfAnySortedArrangement` | internal/services/speedtest_service.go:386-392 | The result is 1.5 × t[n/2] for every ascending arrangement t of the rates. |
| `Median.SortedSplit` | internal/services/speedtest_service.go:387-388 | Cutting an ascending sequence at m leaves no larger elements before t[m] and no smaller ones after it, and loses nothing. |
| `Median.MedianSplits` | internal/services/speedtest_service.go:386-392 | The result is 1.5 × one of the rates. That rate has n/2 rates no larger than it and the rest no smaller. |
| `Median.MedianBetweenExtremes` | internal/services/speedtest_service.go:386-392 | The result lies between 1.5 × the smallest and 1.5 × the largest rate. |
| `Median.TwoRatesExample` | internal/services/speedtest_service.go:564-569 | Rates [8, 5] give 12: the upper median of two is the larger. |
| `Median.ThreeRatesExample` | internal/services/speedtest_service.go:386-392 | Rates [0.8, 0.4, 4.0] give 1.2. |
| `Throughput.Mbps` | internal/services/speedtest_service.go:257 | The rate is non-negative, and zero exactly when no byte moved. |
| `Throughput.MbpsRoundTrip` | internal/services/speedtest_service.go:257 | The rate times the elapsed seconds gives back bytes·8/10⁶. |
| `Throughput.MbpsMonotonic` | internal/services/speedtest_service.go:257 | More bytes, or less time, never gives a lower rate. |
| `Throughput.MbpsExamples` | internal/services/speedtest_service.go:257 | 25,000,000 bytes in 2 s is 100 Mbps, and 8,700,000 bytes in 1.5 s is 46.4 Mbps. |
| `Throughput.BytesReadAppend` | internal/services/speedtest_service.go:238-249 | The bytes read over two stretches of a body add up. |
| `Throughput.BytesReadBoundsChunks` | internal/services/speedtest_service.go:238-249 | The total is at least the size of any single read. |
| `Throughput.ReadBody` | internal/services/speedtest_service.go:238-249 | The read loop counts every byte returned, including bytes delivered with the final error. |
| `Throughput.DownloadSpeed` | internal/services/speedtest_service.go:222-259 | The single download succeeds exactly when the body was read to EOF, and its rate times the elapsed time is the megabits read. A failed request or a read error is a transport error. |
| `Throughput.UploadSpeed` | internal/services/speedtest_service.go:396-433 | The single upload succeeds exactly when the POST went through. Its rate is positive, and the rate times the time is 5 MiB in megabits. |
| `Throughput.MeasureDownloadSpeed` | internal/services/speedtest_service.go:222-259 | The method reports `DownloadSpeed` of the GET of the 25 MB file, with 0 and the error on failure. |
| `Throughput.MeasureUploadSpeed` | internal/services/speedtest_service.go:396-433 | The method reports `UploadSpeed` of the 5 MiB POST. |
| `Throughput.Failures` | internal/services/speedtest_service.go:288-316 | The download workers record no more errors than there are workers. |
| `Throughput.FailuresCountAll` | internal/services/speedtest_service.go:288-327 | The error count equals the number of workers exactly when every worker failed. |
| `Throughput.DownloadWorkers` | internal/services/speedtest_service.go:274-288 | Worker c fetches 10,000,000 bytes from server c mod 5. |
| `Throughput.CombineDownloads` | internal/services/speedtest_service.go:322-335 | The run fails exactly when 4 errors were recorded. Otherwise the rate times the window is the megabits read by all workers, failed ones included. |
| `Throughput.MeasureMultiConnectionDownloadSpeed` | internal/services/speedtest_service.go:262-336 | The worker loop accumulates the byte and error counters and reports `CombineDownloads` over them. |
| `Throughput.MultiDownloadFailsIffAllWorkersFail` | internal/services/speedtest_service.go:324-327 | The multi-connection download fails exactly when each of the four workers failed. |
| `Throughput.ThreeOfFourWorkersExample` | internal/services/speedtest_service.go:301-334 | Workers reading 3, 2.5 and 3.2 million bytes plus one failed request give 46.4 Mbps over 1.5 s. |
| `Throughput.BrokenWorkerBytesCount` | internal/services/speedtest_service.go:301-316 | The bytes of a worker whose body broke off still count toward the rate. |
| `Throughput.ZeroByteSuccessExample` | internal/services/speedtest_service.go:301-334 | One worker that reached EOF having read nothing, with the other three failing, gives a rate of 0 and no error. |
| `Throughput.AllBrokenWorkersFail` | internal/services/speedtest_service.go:310-327 | Four workers that each read data and then broke off make the run fail. |
| `Throughput.UploadWorkers` | internal/services/speedtest_service.go:448-478 | Upload worker c POSTs 2 MiB to server c mod 5. |
| `Throughput.UploadFailures` | internal/services/speedtest_service.go:462-483 | The upload workers record no more errors than there are workers. |
| `Throughput.UploadedBytesCountSuccesses` | internal/services/speedtest_service.go:478-490 | The credited bytes are (workers − failures) × 2 MiB. |
| `Throughput.UploadFailuresCountAll` | internal/services/speedtest_service.go:462-502 | The error count equals the number of workers exactly when every POST failed. |
| `Throughput.CombineUploads` | internal/services/speedtest_service.go:497-510 | The run fails exactly when 4 errors were recorded. Otherwise the rate times the window is the megabits credited. |
| `Throughput.MeasureMultiConnectionUploadSpeed` | internal/services/speedtest_service.go:436-511 | The worker loop reports `CombineUploads` over the four POST outcomes. |
| `Throughput.MultiUploadOutcome` | internal/services/speedtest_service.go:487-510 | The upload fails exactly when all four POSTs failed, the rate is otherwise positive, and the credited bytes are whole payloads. |
| `Throughput.AlternativeDownloadRate` | internal/services/speedtest_service.go:349-379 | A source contributes exactly when its GET succeeded and delivered bytes in positive time, even if the body ended in a read error. The rate is then positive. |
| `Throughput.AlternativeUploadRate` | internal/services/speedtest_service.go:523-557 | An endpoint contributes exactly when its 1 MiB POST went through in positive time, with a positive rate. |
| `Throughput.Collected` | internal/services/speedtest_service.go:347-380 | No more rates are collected than sources were tried. |
| `Throughput.CollectedSomes` | internal/services/speedtest_service.go:376-383 | The collected list is empty exactly when no source produced a rate. |
| `Throughput.CollectedPositive` | internal/services/speedtest_service.go:376-379 | Only positive rates are collected. |
| `Throughput.AlternativeDownloadRates` | internal/services/speedtest_service.go:341-379 | The three alternative download URLs are tried in order. |
| `Throughput.AlternativeUploadRates` | internal/services/speedtest_service.go:516-557 | The two alternative upload endpoints are tried in order. |
| `Throughput.ReportScaledMedian` | internal/services/speedtest_service.go:382-392 | The shared tail reports `ScaledMedian`: 0 and the strategy's error when nothing was collected. |
| `Throughput.MeasureAlternativeDownloadSpeed` | internal/services/speedtest_service.go:339-393 | The source loop collects exactly `Collected` of the per-source rates, and the method reports their scaled median. |
| `Throughput.MeasureAlternativeUploadSpeed` | internal/services/speedtest_service.go:514-570 | The same for the two upload endpoints. |
| `Throughput.ScaledMedianPositive` | internal/services/speedtest_service.go:386-392 | The scaled median of positive rates is positive. |
| `Throughput.CollectedMedianOutcome` | internal/services/speedtest_service.go:376-392 | Over positive rates, the median fails exactly when no source produced one, and is otherwise positive. |
| `Throughput.AlternativeDownloadOutcome` | internal/services/speedtest_service.go:349-392 | The alternative download fails exactly when no URL delivered bytes in positive time. Otherwise its rate is positive. |
| `Throughput.AlternativeUploadOutcome` | internal/services/speedtest_service.go:523-569 | The alternative upload fails exactly when no POST went through in positive time. Otherwise its rate is positive. |
| `Throughput.AlternativeDownloadExample` | internal/services/speedtest_service.go:341-392 | A 5000-byte logo in 0.05 s, a favicon broken off after 5000 bytes in 0.1 s and 10⁶ bytes in 2 s give rates 0.8, 0.4 and 4.0, so the result is 1.2 Mbps. |
| `Throughput.CollectedMedianExample` | internal/services/speedtest_service.go:376-392 | Collected rates 0.8, 0.4 and 4.0 give 1.2. |
| `Service.LatencyStage` | internal/services/speedtest_service.go:82-92 | The reported latency is the first tier that succeeded. The stage's error is set exactly when both probing strategies failed. |
| `Service.DownloadStage` | internal/services/speedtest_service.go:94-109 | The same for the download, with the mode choosing the primary strategy. |
| `Service.UploadStage` | internal/services/speedtest_service.go:111-126 | The same for the upload. |
| `Service.PerformSpeedTest` | internal/services/speedtest_service.go:81-129 | The run never returns an error, and its four metrics are `Measurements`. |
| `Service.LatencyTiers` | internal/services/speedtest_service.go:82-92 | At least 3 TCP samples give their mean and variance. Otherwise at least 3 HEAD samples give theirs. Otherwise the drawn 15+k and 2+j are used. |
| `Service.LatencyNonNegative` | internal/services/speedtest_service.go:82-92 | The reported ping and jitter are non-negative. |
| `Service.DownloadNonNegative` | internal/services/speedtest_service.go:94-109 | The reported download speed is non-negative. |
| `Service.UploadNonNegative` | internal/services/speedtest_service.go:111-126 | The reported upload speed is non-negative. |
| `Service.MetricsNonNegative` | internal/services/speedtest_service.go:81-129 | All four reported metrics are non-negative. |
| `Service.SyntheticRanges` | internal/services/speedtest_service.go:86-126 | When every strategy for a metric fails, the ping is an integer in 15..24, the jitter an integer in 2..6, the download in [80, 120) and the upload in [5, 20). |
| `Service.ModeSelectsOnlyPrimary` | internal/services/speedtest_service.go:94-126 | Latency does not depend on the mode. Nor does a throughput metric whose primary strategies failed in both modes. |
| `Service.SpeedTestService.constructor` | internal/services/speedtest_service.go:26-31 | The service keeps the two repositories it is given. |
| `Service.SpeedTestService.RunSpeedTest` | internal/services/speedtest_service.go:50-78 | The record carries the given ID, user and time and the four measured metrics. Its ISP, IP, country and region come from the metadata, with "" for a missing key. The repository gains it under its ID, and the error is the save's (none). |

## Left out

- Pointers: the repositories store record values, so aliasing between a saved record and the caller's copy is not modelled.
- Goroutines, `sync.WaitGroup` and `sync.Mutex`: the workers run one after another. The post-join counters are the same in every interleaving, since workers only add to them.
- Network I/O, timeouts and `time.Sleep`: every probe, GET and POST is an outcome in `Net`, and elapsed times are reals given with those outcomes.
- Throughput.MeasureDownloadSpeed: requires a positive elapsed time (`ClocksAdvance`). Go would divide by a zero duration and report +Inf or NaN.
- Throughput.MeasureUploadSpeed: requires a positive elapsed time, for the same reason.
- Throughput.MeasureMultiConnectionDownloadSpeed: requires a positive window even when all workers fail, although the code reads the clock only after the failure check.
- Throughput.MeasureMultiConnectionUploadSpeed: requires a positive window, for the same reason.
- Service.PerformSpeedTest: inherits `ClocksAdvance` from the strategies it calls.
- Service.SpeedTestService.RunSpeedTest: inherits `ClocksAdvance` as well. Its dead `if err != nil` after the measurements is omitted, since the measurements never return an error.
- Randomness: `rand.Intn`, `rand.Float64` and the payload bytes are not modelled. The draws are a parameter, and only their ranges are stated. The payload mismatch in the single upload, where a random buffer is built and a separate random reader is sent, does not affect the rate.
- Result IDs and timestamps: `time.Now().UnixNano()` and `time.Now()` are parameters. ID uniqueness is not modelled.
- IEEE-754 rounding: rates and statistics are exact reals.
- Error texts of transport failures: every HTTP or socket error is the single `TransportFailure`.
- Latency.ConstantSamplesHaveNoJitter: only equal samples ⇒ zero jitter is proved. The converse, zero jitter ⇒ equal samples, holds for reals but is not stated.
- `GetUserTestHistory` and `DeleteTestResult` (internal/services/speedtest_service.go:573-582): they only forward to `GetResultsByUserID` and `DeleteResult`, which are modelled. `DeleteTestResult` ignores its user argument.
- The HTTP controller, the embedded web page, `main` and the repository interfaces are not part of this model.
