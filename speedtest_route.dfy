/**
 * The server-side speed-test endpoint: a GET handler that dispatches on the
 * `type` query parameter (a latency probe, a noise-filled download payload,
 * or a 400 error) and a POST handler that acknowledges any upload.
 *
 * The HTTP framework is reduced to a `Response` value: a status, a body and
 * the headers the handler sets itself.
 */
module SpeedTestRoute {
  import opened Wrappers
  import opened Bytes

  datatype Body =
    | Text(text: string)
    | Octets(bytes: seq<byte>)
    | Json(error: string)

  datatype Response = Response(status: int, body: Body, headers: seq<(string, string)>)

  /** Size of the download payload: 2 MiB. */
  const DownloadSize: nat := 2 * 1024 * 1024

  /** Distance between two noise bytes of the download payload. */
  const NoiseStep: nat := 1000

  /** Headers of the download payload: binary, never cached. */
  const DownloadHeaders: seq<(string, string)> := [
    ("Content-Type", "application/octet-stream"),
    ("Cache-Control", "no-store, no-cache, must-revalidate, proxy-revalidate")
  ]

  /** The byte that `buffer[i] = Math.random() * 255` stores for the draw `r`. */
  function NoiseByte(r: Random): (b: byte)
    ensures b <= 254
    ensures b as real <= r * 255.0 < b as real + 1.0
  {
    ToUint8(r * 255.0)
  }

  /** The download payload for the given `Math.random()` draws, one per written index. */
  function DownloadPayload(draws: seq<Random>): (s: seq<byte>)
    requires |draws| >= Writes(DownloadSize, NoiseStep)
    ensures |s| == DownloadSize
    ensures forall i :: 0 <= i < DownloadSize && i % NoiseStep != 0 ==> s[i] == 0
    ensures forall i :: 0 <= i < DownloadSize ==> s[i] <= 254
    ensures forall k :: 0 <= k < Writes(DownloadSize, NoiseStep) ==> s[k * NoiseStep] == NoiseByte(draws[k])
  {
    var n := Writes(DownloadSize, NoiseStep);
    Sparse(DownloadSize, NoiseStep, seq(n, k requires 0 <= k < n => NoiseByte(draws[k])))
  }

  /**
   * GET /api/speedtest?type=... . `kind` is the `type` query parameter
   * (`None` when absent); `draws` are the values `Math.random()` returns,
   * in call order.
   */
  method Get(kind: Option<string>, draws: seq<Random>) returns (resp: Response)
    requires |draws| >= Writes(DownloadSize, NoiseStep)
    ensures kind == Some("ping") ==> resp == Response(200, Text("pong"), [])
    ensures kind == Some("download") ==>
      && resp.status == 200
      && resp.headers == DownloadHeaders
      && resp.body == Octets(DownloadPayload(draws))
    ensures kind != Some("ping") && kind != Some("download") ==>
      resp == Response(400, Json("Invalid type"), [])
  {
    if kind == Some("ping") {
      return Response(200, Text("pong"), []);
    }
    if kind == Some("download") {
      var size := DownloadSize;
      var buffer := new byte[size](_ => 0);
      var i := 0;
      while i < size
        invariant 0 <= i && i % NoiseStep == 0
        invariant i / NoiseStep <= Writes(size, NoiseStep)
        invariant forall j :: 0 <= j < size ==>
          buffer[j] == if j < i && j % NoiseStep == 0 then NoiseByte(draws[j / NoiseStep]) else 0
      {
        buffer[i] := NoiseByte(draws[i / NoiseStep]);
        i := i + NoiseStep;
      }
      return Response(200, Octets(buffer[..]), DownloadHeaders);
    }
    return Response(400, Json("Invalid type"), []);
  }

  /** POST /api/speedtest: the upload body is accepted and discarded. */
  function Post(body: seq<byte>): (resp: Response)
    ensures resp.status == 200 && resp.body == Text("received")
  {
    Response(200, Text("received"), [])
  }

  /** Byte i of the download payload: the noise byte of draw i/1000 at a multiple of 1000, and 0 anywhere else. */
  lemma DownloadPayloadSparse(draws: seq<Random>, i: nat)
    requires |draws| >= Writes(DownloadSize, NoiseStep) && i < DownloadSize
    ensures DownloadPayload(draws)[i] == if i % 1000 == 0 then NoiseByte(draws[i / 1000]) else 0
  {
  }
}
