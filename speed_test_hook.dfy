/**
 * The client-side speed test: a flat result record that a run moves through
 * reset -> ping (20) -> download (60) -> upload (100, not loading), with a
 * single catch path that stops the run where it failed.
 *
 * The network and the clock are inputs: a `Network` value says what each
 * request returned (or that it threw) and how long each timed transfer took.
 */
module SpeedTestHook {
  import opened Wrappers
  import opened Bytes

  /** The state the hook publishes. Speeds are in Mbps, the ping in ms. */
  datatype SpeedTestResult = SpeedTestResult(
    ping: Option<int>,
    download: Option<real>,
    upload: Option<real>,
    loading: bool,
    progress: int)

  /** The state before any run. */
  const Idle := SpeedTestResult(None, None, None, false, 0)

  /** The state a run publishes first. */
  const Starting := SpeedTestResult(None, None, None, true, 0)

  /** Size of the upload payload: 2 MiB. */
  const UploadSize: nat := 2 * 1024 * 1024

  /** Distance between two noise bytes of the upload payload. */
  const UploadStep: nat := 100

  /** A measured duration; a transfer always takes some time. */
  type Seconds = r: real | r > 0.0 witness 1.0

  /** What the download request produced. */
  datatype DownloadReply =
    | FetchThrows
    | NotOk
    | NoReader
      /** The body was read as `chunks`; `complete` is false when a read rejected after them. */
    | Stream(chunks: seq<nat>, complete: bool, seconds: Seconds)

  /** What the upload request produced. */
  datatype UploadReply = UploadThrows | UploadSent(seconds: Seconds)

  /**
   * Everything a run observes. `pingTimes` are the round trips (ms) of the
   * ping requests that resolved, in order: fewer than three means the next
   * one threw. `draws` are the values `Math.random()` returns.
   */
  datatype Network = Network(
    pingTimes: seq<real>,
    download: DownloadReply,
    draws: seq<Random>,
    upload: UploadReply)

  // ---------------------------------------------------------------- ping

  /** `Math.round`: the nearest integer, halves rounded up. */
  function Round(x: real): (n: int)
    ensures n as real - 0.5 <= x < n as real + 0.5
  {
    (x + 0.5).Floor
  }

  /** `m` lies between `x` and `y`, in either order. */
  predicate Between(x: real, m: real, y: real) {
    (x <= m <= y) || (y <= m <= x)
  }

  /** The median of three samples, defined without sorting. */
  function Median3(a: real, b: real, c: real): (m: real)
    ensures (m == a && Between(b, a, c)) || (m == b && Between(a, b, c)) || (m == c && Between(a, c, b))
  {
    if a <= b then
      (if b <= c then b else if a <= c then c else a)
    else
      (if a <= c then a else if b <= c then c else b)
  }

  predicate Sorted(s: seq<real>) {
    forall i, j :: 0 <= i < j < |s| ==> s[i] <= s[j]
  }

  /** The middle element of a sorted arrangement of three samples is their median. */
  lemma MedianOfSorted(s: seq<real>, t: seq<real>)
    requires |s| == 3 && |t| == 3
    requires Sorted(t) && multiset(t) == multiset(s)
    ensures t[1] == Median3(s[0], s[1], s[2])
  {
    assert s == [s[0], s[1], s[2]];
    assert t == [t[0], t[1], t[2]];
    assert multiset{t[0], t[1], t[2]} == multiset{s[0], s[1], s[2]};
    assert t[0] in multiset(s) && t[1] in multiset(s) && t[2] in multiset(s);
    assert s[0] in multiset(t) && s[1] in multiset(t) && s[2] in multiset(t);
  }

  /** One comparator: the two samples in ascending order. */
  function CompareSwap(p: real, q: real): (r: (real, real))
    ensures r.0 <= r.1
    ensures multiset{r.0, r.1} == multiset{p, q}
  {
    if q < p then (q, p) else (p, q)
  }

  /** The comparator network that orders three samples. */
  function Order3(x: real, y: real, z: real): (t: (real, real, real))
    ensures t.0 <= t.1 <= t.2
    ensures multiset{t.0, t.1, t.2} == multiset{x, y, z}
  {
    var (x1, y1) := CompareSwap(x, y);
    var (y2, z2) := CompareSwap(y1, z);
    var (x3, y3) := CompareSwap(x1, y2);
    assert multiset{x1, y1} + multiset{z} == multiset{x, y} + multiset{z};
    assert multiset{x1} + multiset{y2, z2} == multiset{x1} + multiset{y1, z};
    assert multiset{x3, y3} + multiset{z2} == multiset{x1, y2} + multiset{z2};
    (x3, y3, z2)
  }

  /** `pings.sort((a, b) => a - b)` on the three samples, in place. */
  method Sort3(a: array<real>)
    requires a.Length == 3
    modifies a
    ensures Sorted(a[..])
    ensures multiset(a[..]) == multiset(old(a[..]))
  {
    assert old(a[..]) == [a[0], a[1], a[2]];
    var t := Order3(a[0], a[1], a[2]);
    a[0], a[1], a[2] := t.0, t.1, t.2;
    assert a[..] == [t.0, t.1, t.2];
  }

  /**
   * The ping stage: time three requests, sort the samples and round the
   * middle one. `None` when one of the requests threw.
   */
  method MeasurePing(times: seq<real>) returns (ping: Option<int>)
    ensures |times| < 3 <==> ping == None
    ensures |times| >= 3 ==> ping == Some(Round(Median3(times[0], times[1], times[2])))
  {
    var pings := new real[3];
    for i := 0 to 3
      invariant i <= |times|
      invariant pings[..i] == times[..i]
    {
      if i >= |times| {
        return None;
      }
      pings[i] := times[i];
    }
    assert pings[..] == times[..3];
    Sort3(pings);
    MedianOfSorted(times[..3], pings[..]);
    ping := Some(Round(pings[1]));
  }

  // ------------------------------------------------------------ download

  /** Total length of the chunks. */
  function Sum(chunks: seq<nat>): nat {
    if chunks == [] then 0 else Sum(chunks[..|chunks| - 1]) + chunks[|chunks| - 1]
  }

  /**
   * The drain loop: read chunks until the reader reports `done`, adding up
   * their lengths. `None` when a read rejected instead.
   */
  method Drain(chunks: seq<nat>, complete: bool) returns (received: Option<nat>)
    ensures received == if complete then Some(Sum(chunks)) else None
  {
    var receivedLength := 0;
    var i := 0;
    while true
      invariant 0 <= i <= |chunks|
      invariant receivedLength == Sum(chunks[..i])
      decreases |chunks| - i
    {
      if i == |chunks| {
        if !complete {
          return None;
        }
        break;
      }
      assert chunks[..i + 1][..i] == chunks[..i];
      receivedLength := receivedLength + chunks[i];
      i := i + 1;
    }
    assert chunks[..i] == chunks;
    return Some(receivedLength);
  }

  /** The bytes the download stage counts, or `None` when the stage throws. */
  function DownloadedBytes(reply: DownloadReply): (r: Option<nat>)
    ensures r.Some? <==> reply.Stream? && reply.complete
    ensures r.Some? ==> r.value == Sum(reply.chunks)
  {
    match reply
    case Stream(chunks, complete, _) => if complete then Some(Sum(chunks)) else None
    case _ => None
  }

  /** Throughput in Mbps (2^20 bits per second) of `bytes` moved in `seconds`. */
  function Mbps(bytes: nat, seconds: Seconds): (r: real)
    ensures r >= 0.0
    ensures r * seconds * 1048576.0 == (bytes * 8) as real
  {
    (bytes * 8) as real / seconds / (1024.0 * 1024.0)
  }

  /** `parseFloat(x.toFixed(2))` for a non-negative `x`: the nearest hundredth, halves rounded up. */
  function ToFixed2(x: real): (r: real)
    requires x >= 0.0
    ensures r - 0.005 <= x < r + 0.005
    ensures (r * 100.0).Floor as real == r * 100.0
  {
    (x * 100.0 + 0.5).Floor as real / 100.0
  }

  // -------------------------------------------------------------- upload

  /** The byte `Math.floor(Math.random() * 256)` yields for the draw `r`. */
  function UploadByte(r: Random): (b: byte)
    ensures b as real <= r * 256.0 < b as real + 1.0
  {
    (r * 256.0).Floor
  }

  /** The upload payload for the given draws, one per written index. */
  function UploadContents(draws: seq<Random>): (s: seq<byte>)
    requires |draws| >= Writes(UploadSize, UploadStep)
    ensures |s| == UploadSize
    ensures forall i :: 0 <= i < UploadSize && i % UploadStep != 0 ==> s[i] == 0
    ensures forall k :: 0 <= k < Writes(UploadSize, UploadStep) ==> s[k * UploadStep] == UploadByte(draws[k])
  {
    var n := Writes(UploadSize, UploadStep);
    Sparse(UploadSize, UploadStep, seq(n, k requires 0 <= k < n => UploadByte(draws[k])))
  }

  /** Build the upload `Uint8Array`, writing noise at every 100th index. */
  method UploadPayload(draws: seq<Random>) returns (data: seq<byte>)
    requires |draws| >= Writes(UploadSize, UploadStep)
    ensures data == UploadContents(draws)
  {
    var uploadData := new byte[UploadSize](_ => 0);
    var i := 0;
    while i < uploadData.Length
      invariant 0 <= i && i % UploadStep == 0
      invariant i / UploadStep <= Writes(UploadSize, UploadStep)
      invariant forall j :: 0 <= j < UploadSize ==>
        uploadData[j] == if j < i && j % UploadStep == 0 then UploadByte(draws[j / UploadStep]) else 0
    {
      uploadData[i] := UploadByte(draws[i / UploadStep]);
      i := i + UploadStep;
    }
    data := uploadData[..];
  }

  // ---------------------------------------------------------- the run

  /** The catch path: stop loading, reset progress, keep what was published. */
  function Failed(prev: SpeedTestResult): (r: SpeedTestResult)
    ensures !r.loading && r.progress == 0
    ensures r.ping == prev.ping && r.download == prev.download && r.upload == prev.upload
  {
    prev.(loading := false, progress := 0)
  }

  /** Every state a run publishes, in order, for what the network does. */
  function Snapshots(net: Network): (s: seq<SpeedTestResult>)
    requires |net.draws| >= Writes(UploadSize, UploadStep)
    ensures 2 <= |s| <= 4 && s[0] == Starting
  {
    if |net.pingTimes| < 3 then
      [Starting, Failed(Starting)]
    else
      var s1 := Starting.(ping := Some(Round(Median3(net.pingTimes[0], net.pingTimes[1], net.pingTimes[2]))), progress := 20);
      match DownloadedBytes(net.download)
      case None => [Starting, s1, Failed(s1)]
      case Some(bytes) =>
        var s2 := s1.(download := Some(ToFixed2(Mbps(bytes, net.download.seconds))), progress := 60);
        match net.upload
        case UploadThrows => [Starting, s1, s2, Failed(s2)]
        case UploadSent(seconds) =>
          [Starting, s1, s2, s2.(upload := Some(ToFixed2(Mbps(UploadSize, seconds))), progress := 100, loading := false)]
  }

  /** A run in which every request succeeds. */
  predicate Succeeds(net: Network) {
    |net.pingTimes| >= 3 && net.download.Stream? && net.download.complete && net.upload.UploadSent?
  }

  class SpeedTest {
    var result: SpeedTestResult
    /** Every value handed to `setResult`, in order: what the UI is shown. */
    ghost var published: seq<SpeedTestResult>

    constructor ()
      ensures result == Idle && published == []
    {
      result := Idle;
      published := [];
    }

    method SetResult(r: SpeedTestResult)
      modifies this
      ensures result == r && published == old(published) + [r]
    {
      result := r;
      published := published + [r];
    }

    /** `runTest`: the three stages in sequence, each publishing its field and progress. */
    method RunTest(net: Network)
      requires |net.draws| >= Writes(UploadSize, UploadStep)
      modifies this
      ensures published == old(published) + Snapshots(net)
      ensures result == Snapshots(net)[|Snapshots(net)| - 1]
    {
      SetResult(Starting);

      var ping := MeasurePing(net.pingTimes);
      if ping == None {
        SetResult(Failed(result));
        return;
      }
      SetResult(result.(ping := ping, progress := 20));

      var received: Option<nat> := None;
      if net.download.Stream? {
        received := Drain(net.download.chunks, net.download.complete);
      }
      if received == None {
        SetResult(Failed(result));
        return;
      }
      SetResult(result.(download := Some(ToFixed2(Mbps(received.value, net.download.seconds))), progress := 60));

      var uploadData := UploadPayload(net.draws);
      match net.upload
      case UploadThrows =>
        SetResult(Failed(result));
      case UploadSent(seconds) =>
        SetResult(result.(upload := Some(ToFixed2(Mbps(|uploadData|, seconds))), progress := 100, loading := false));
    }
  }

  // ----------------------------------------------------------- properties

  /** A successful run publishes progress 20, 60, 100 after the reset, each step adding only its own field. */
  lemma SuccessfulRun(net: Network)
    requires |net.draws| >= Writes(UploadSize, UploadStep) && Succeeds(net)
    ensures var s := Snapshots(net);
      && |s| == 4
      && s[1].progress == 20 && s[2].progress == 60 && s[3].progress == 100
      && s[1] == s[0].(ping := s[1].ping, progress := 20) && s[1].ping.Some?
      && s[2] == s[1].(download := s[2].download, progress := 60) && s[2].download.Some?
      && s[3] == s[2].(upload := s[3].upload, progress := 100, loading := false) && s[3].upload.Some?
      && s[0].loading && s[1].loading && s[2].loading && !s[3].loading
  {
  }

  /** A failing run ends not loading, with progress 0 and the fields published before the failure. */
  lemma FailedRun(net: Network)
    requires |net.draws| >= Writes(UploadSize, UploadStep) && !Succeeds(net)
    ensures var s := Snapshots(net);
      s[|s| - 1] == Failed(s[|s| - 2]) && s[|s| - 1].upload == None
  {
  }

  /** A non-ok download response or a missing body reader stops the run before `download` is set. */
  lemma DownloadRejected(net: Network)
    requires |net.draws| >= Writes(UploadSize, UploadStep) && |net.pingTimes| >= 3
    requires net.download.NotOk? || net.download.NoReader?
    ensures var s := Snapshots(net);
      |s| == 3 && s[2].ping.Some? && s[2].download == None && !s[2].loading && s[2].progress == 0
  {
  }
}
