/** What the measurement engine observes of the network, as abstract outcomes,
    and the fixed list of test servers used round-robin by the
    multi-connection strategies. */
module Network {
  import opened Models

  /** Wall-clock time in seconds; never negative. */
  type Seconds = r: real | r >= 0.0

  /** Outcome of one HTTP GET. Either the request itself failed, or the body
      was read by successive `Read` calls returning `chunks[k]` bytes each, the
      last of which came back with an error: io.EOF when `eof` holds, some
      other read error otherwise. `seconds` is the time from issuing the
      request to the end of the body. */
  datatype Fetch =
    | GetFailed
    | Fetched(chunks: seq<nat>, eof: bool, seconds: Seconds)

  /** The outcomes of every network operation one run may perform.
      - `dial(host, k)`: the k-th TCP connect to `host`:80 within the 2 s timeout,
        as the elapsed nanoseconds, or None when the dial failed;
      - `head(host, k)`: the k-th HTTP HEAD to "https://" + host, likewise;
      - `get(url)`: the GET of `url`;
      - `post(url, size)`: the POST of a `size`-byte body to `url`, as the
        seconds it took, or None when building or sending it failed;
      - `multiDownloadSeconds`, `multiUploadSeconds`: the time from launching
        the four workers to the moment all of them had finished.
      Within one run every URL is requested at most once, so keying the
      outcomes by URL loses nothing. */
  datatype Net = Net(
    dial: (string, nat) -> Option<nat>,
    head: (string, nat) -> Option<nat>,
    get: string -> Fetch,
    post: (string, nat) -> Option<Seconds>,
    multiDownloadSeconds: Seconds,
    multiUploadSeconds: Seconds)

  datatype TestServer = TestServer(name: string, url: string, location: string)

  const TestServers: seq<TestServer> := [
    TestServer("Cloudflare", "https://speed.cloudflare.com", "Global CDN"),
    TestServer("Turksat", "http://speedtest.turksat.com.tr", "Ankara, Turkey"),
    TestServer("Turk Telekom", "http://speedtest.turktelekom.com.tr", "Istanbul, Turkey"),
    TestServer("Google", "https://www.google.com", "Global CDN"),
    TestServer("Microsoft", "https://www.microsoft.com", "Global CDN")
  ]

  /** Number of concurrent workers of a multi-connection measurement. */
  const NumConnections: nat := 4

  /** The server a worker talks to: its connection ID modulo the list length. */
  function ServerIndex(connID: nat): (i: nat)
    ensures i < |TestServers|
    ensures connID < |TestServers| ==> i == connID
  {
    connID % |TestServers|
  }

  /** Connections whose IDs differ by less than the number of servers go to
      different servers; in particular the four workers use four distinct
      servers out of the five. */
  lemma RoundRobinSpreads(i: nat, j: nat)
    requires i < j < i + |TestServers|
    ensures ServerIndex(i) != ServerIndex(j)
  {
  }

  lemma WorkersUseDistinctServers()
    ensures forall i, j :: 0 <= i < j < NumConnections ==> ServerIndex(i) != ServerIndex(j)
  {
    forall i, j | 0 <= i < j < NumConnections
      ensures ServerIndex(i) != ServerIndex(j)
    {
      RoundRobinSpreads(i, j);
    }
  }
}
