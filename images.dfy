/**
 * Image acquisition (`ImageProcessor`): download with retries, data-URI
 * decoding, local reads, and transcoding memoized in the image cache.
 *
 * The HTTP client, the image library, the file system, the base64 decoder
 * and the hash are oracles collected in `Platform`; the clock is the
 * parameter `now`.
 */
module Images {
  import opened Wrappers
  import opened Text
  import opened CacheIndex
  import opened Cache
  import opened CacheProps

  /** The outcome of one HTTP GET: a response, or a thrown error with its message. */
  datatype Attempt = Response(status: int, body: Bytes) | Thrown(message: string)

  /** What `downloadImage` settles to: data, JavaScript `undefined`, or a thrown error. */
  datatype Download = Downloaded(data: Bytes) | Undefined | DownloadFailed(message: string)

  /** One run of the retry loop: its outcome, the back-off delays in ms, and the GETs issued. */
  datatype DownloadRun = DownloadRun(outcome: Download, waits: seq<int>, attempts: nat)

  /** The encoder the transcoder is asked for. */
  datatype Encoder = Jpeg | Png | Webp

  /** What the transcoder is asked to do: resize to a width (keeping the aspect ratio), then encode. */
  datatype Plan = Plan(resizeTo: Option<int>, encoder: Encoder, quality: int)

  datatype Processed = Processed(buffer: Bytes, metadata: ImageMeta)

  datatype Platform = Platform(
    fetch: (string, nat) -> Attempt,          // the i-th GET of a URL
    readFile: string -> Result<Bytes>,
    probe: Bytes -> Result<ImageMeta>,        // the image library's metadata reader
    encode: (Bytes, Plan) -> Result<Bytes>,   // the image library's pipeline
    noInputMessage: string,                   // its error when given no input at all
    base64Decode: string -> Bytes,
    md5Hex: string -> string)

  const DefaultRetries: nat := 3
  const DefaultMaxWidth: int := 1500
  const DefaultQuality: int := 80
  const DefaultCacheMaxAge: int := 7 * 24 * 60 * 60 * 1000
  const DefaultCacheMaxSize: int := 500 * 1024 * 1024

  // ----- downloadImage

  function DownloadFailure(retries: nat, message: string): string
  {
    "Failed to download image after " + NatToString(retries) + " attempts: " + message
  }

  /** Attempt `i` neither returns nor throws out of the loop. */
  predicate MovesOn(a: Attempt, i: nat, retries: nat)
  {
    (a.Response? && a.status != 200) || (a.Thrown? && i != retries - 1)
  }

  /** The retry loop from attempt `i` on. */
  function DownloadFrom(fetch: (string, nat) -> Attempt, url: string, retries: nat, i: nat): DownloadRun
    decreases retries - i
  {
    if i >= retries then DownloadRun(Undefined, [], 0)
    else match fetch(url, i)
      case Response(status, body) =>
        if status == 200 then DownloadRun(Downloaded(body), [], 1)
        else
          var rest := DownloadFrom(fetch, url, retries, i + 1);
          rest.(attempts := rest.attempts + 1)
      case Thrown(message) =>
        if i == retries - 1 then DownloadRun(DownloadFailed(DownloadFailure(retries, message)), [], 1)
        else
          var rest := DownloadFrom(fetch, url, retries, i + 1);
          DownloadRun(rest.outcome, [1000 * (i + 1)] + rest.waits, rest.attempts + 1)
  }

  /** Every attempt from `i` up to, not including, `j` moved on. */
  predicate MovesOnUntil(fetch: (string, nat) -> Attempt, url: string, retries: nat, i: nat, j: nat)
  {
    forall k :: i <= k < j ==> MovesOn(fetch(url, k), k, retries)
  }

  /** Attempt `j` answers 200 with `d`, within the retries, after every attempt from `i` moved on. */
  predicate SucceedsAt(fetch: (string, nat) -> Attempt, url: string, retries: nat, i: nat, j: nat, d: Bytes)
  {
    i <= j < retries && fetch(url, j) == Response(200, d) && MovesOnUntil(fetch, url, retries, i, j)
  }

  /** Data out of the loop comes from an attempt that answered 200 after every earlier one moved on. */
  lemma {:induction false} DownloadedHasWitness(fetch: (string, nat) -> Attempt, url: string, retries: nat, i: nat, d: Bytes)
    requires DownloadFrom(fetch, url, retries, i).outcome == Downloaded(d)
    ensures exists j :: SucceedsAt(fetch, url, retries, i, j, d)
    decreases retries - i
  {
    var a := fetch(url, i);
    if a.Response? && a.status == 200 {
      assert SucceedsAt(fetch, url, retries, i, i, d);
    } else {
      assert MovesOn(a, i, retries);
      DownloadedHasWitness(fetch, url, retries, i + 1, d);
      var j :| SucceedsAt(fetch, url, retries, i + 1, j, d);
      assert SucceedsAt(fetch, url, retries, i, j, d);
    }
  }

  /** An attempt that answers 200 after every earlier one moved on makes the loop return its data. */
  lemma {:induction false} WitnessDownloads(fetch: (string, nat) -> Attempt, url: string, retries: nat, i: nat, j: nat, d: Bytes)
    requires SucceedsAt(fetch, url, retries, i, j, d)
    ensures DownloadFrom(fetch, url, retries, i).outcome == Downloaded(d)
    decreases j - i
  {
    if i < j {
      assert MovesOn(fetch(url, i), i, retries);
      assert SucceedsAt(fetch, url, retries, i + 1, j, d);
      WitnessDownloads(fetch, url, retries, i + 1, j, d);
    }
  }

  /** The loop returns data exactly when some attempt answers 200 and every earlier one moved on. */
  lemma DownloadSucceedsIff(fetch: (string, nat) -> Attempt, url: string, retries: nat, i: nat, d: Bytes)
    ensures DownloadFrom(fetch, url, retries, i).outcome == Downloaded(d)
            <==> exists j :: SucceedsAt(fetch, url, retries, i, j, d)
  {
    if DownloadFrom(fetch, url, retries, i).outcome == Downloaded(d) {
      DownloadedHasWitness(fetch, url, retries, i, d);
    }
    if exists j :: SucceedsAt(fetch, url, retries, i, j, d) {
      var j :| SucceedsAt(fetch, url, retries, i, j, d);
      WitnessDownloads(fetch, url, retries, i, j, d);
    }
  }

  /**
   * The loop throws exactly when the last attempt throws and every earlier
   * one moved on; the message names the number of attempts and the last error.
   */
  lemma {:induction false} DownloadFailsIff(fetch: (string, nat) -> Attempt, url: string, retries: nat, i: nat)
    requires i < retries
    ensures DownloadFrom(fetch, url, retries, i).outcome.DownloadFailed?
            <==> fetch(url, retries - 1).Thrown?
                 && forall k :: i <= k < retries - 1 ==> MovesOn(fetch(url, k), k, retries)
    ensures fetch(url, retries - 1).Thrown? && DownloadFrom(fetch, url, retries, i).outcome.DownloadFailed?
            ==> DownloadFrom(fetch, url, retries, i).outcome.message
                == DownloadFailure(retries, fetch(url, retries - 1).message)
    decreases retries - i
  {
    if i < retries - 1 {
      DownloadFailsIff(fetch, url, retries, i + 1);
      if !MovesOn(fetch(url, i), i, retries) {
        assert !(forall k :: i <= k < retries - 1 ==> MovesOn(fetch(url, k), k, retries));
      }
    }
  }

  /** At most `retries` GETs are issued from attempt `i` on, and one wait at most follows each. */
  lemma {:induction false} DownloadAttempts(fetch: (string, nat) -> Attempt, url: string, retries: nat, i: nat)
    ensures var run := DownloadFrom(fetch, url, retries, i);
            && run.attempts <= (if i < retries then retries - i else 0)
            && |run.waits| <= run.attempts
    decreases retries - i
  {
    if i < retries {
      DownloadAttempts(fetch, url, retries, i + 1);
    }
  }

  /** Attempt `k` throws and is not the last, so the loop sleeps `1000 * (k + 1)` ms after it. */
  predicate WaitsAfter(fetch: (string, nat) -> Attempt, url: string, retries: nat, k: nat)
  {
    k < retries - 1 && fetch(url, k).Thrown?
  }

  /**
   * The waits of a run of `attempts` GETs from attempt `i`: in increasing
   * order, exactly one `1000 * (k + 1)` for each attempt `k` issued that
   * threw and was not the last.
   */
  ghost predicate BackoffWaits(fetch: (string, nat) -> Attempt, url: string, retries: nat, i: nat, attempts: nat,
                               waits: seq<int>)
  {
    && (forall s, t :: 0 <= s < t < |waits| ==> waits[s] < waits[t])
    && (forall w :: w in waits <==>
          exists k: nat :: i <= k < i + attempts && WaitsAfter(fetch, url, retries, k) && w == 1000 * (k + 1))
  }

  /** The loop sleeps after every failed attempt but the last, for `1000 * (k + 1)` ms, and at no other time. */
  lemma {:induction false} DownloadBackoff(fetch: (string, nat) -> Attempt, url: string, retries: nat, i: nat)
    ensures var run := DownloadFrom(fetch, url, retries, i);
            BackoffWaits(fetch, url, retries, i, run.attempts, run.waits)
    decreases retries - i
  {
    var run := DownloadFrom(fetch, url, retries, i);
    if i < retries {
      var rest := DownloadFrom(fetch, url, retries, i + 1);
      DownloadBackoff(fetch, url, retries, i + 1);
      var a := fetch(url, i);
      if a.Response? && a.status != 200 {
        assert run.waits == rest.waits && run.attempts == rest.attempts + 1;
        BackoffSkip(fetch, url, retries, i, rest.attempts, rest.waits);
      } else if a.Thrown? && i != retries - 1 {
        assert run.waits == [1000 * (i + 1)] + rest.waits && run.attempts == rest.attempts + 1;
        BackoffCons(fetch, url, retries, i, rest.attempts, rest.waits);
      } else {
        assert run.waits == [] && run.attempts == 1;
        BackoffNone(fetch, url, retries, i, 1);
      }
    } else {
      BackoffNone(fetch, url, retries, i, 0);
    }
  }

  /** A run whose issued attempts never wait has no waits. */
  lemma BackoffNone(fetch: (string, nat) -> Attempt, url: string, retries: nat, i: nat, attempts: nat)
    requires forall k: nat :: i <= k < i + attempts ==> !WaitsAfter(fetch, url, retries, k)
    ensures BackoffWaits(fetch, url, retries, i, attempts, [])
  {
  }

  /** An attempt `i` that moves on without throwing adds no wait. */
  lemma BackoffSkip(fetch: (string, nat) -> Attempt, url: string, retries: nat, i: nat, attempts: nat, waits: seq<int>)
    requires !WaitsAfter(fetch, url, retries, i)
    requires BackoffWaits(fetch, url, retries, i + 1, attempts, waits)
    ensures BackoffWaits(fetch, url, retries, i, attempts + 1, waits)
  {
    forall w
      ensures w in waits <==>
              exists k: nat :: i <= k < i + attempts + 1 && WaitsAfter(fetch, url, retries, k) && w == 1000 * (k + 1)
    {
      if exists k: nat :: i <= k < i + attempts + 1 && WaitsAfter(fetch, url, retries, k) && w == 1000 * (k + 1) {
        var k: nat :| i <= k < i + attempts + 1 && WaitsAfter(fetch, url, retries, k) && w == 1000 * (k + 1);
        assert k != i;
      }
    }
  }

  /** The wait after a thrown attempt `i` goes in front of the later waits, which are all longer. */
  lemma BackoffCons(fetch: (string, nat) -> Attempt, url: string, retries: nat, i: nat, attempts: nat, rest: seq<int>)
    requires WaitsAfter(fetch, url, retries, i)
    requires BackoffWaits(fetch, url, retries, i + 1, attempts, rest)
    ensures BackoffWaits(fetch, url, retries, i, attempts + 1, [1000 * (i + 1)] + rest)
  {
    var w0 := 1000 * (i + 1);
    var waits := [w0] + rest;
    forall t | 0 <= t < |rest|
      ensures w0 < rest[t]
    {
      assert rest[t] in rest;
      var k: nat :| i + 1 <= k < i + 1 + attempts && WaitsAfter(fetch, url, retries, k) && rest[t] == 1000 * (k + 1);
    }
    forall s, t | 0 <= s < t < |waits|
      ensures waits[s] < waits[t]
    {
      assert waits[t] == rest[t - 1];
      if s > 0 {
        assert waits[s] == rest[s - 1];
      }
    }
    forall w
      ensures w in waits <==>
              exists k: nat :: i <= k < i + attempts + 1 && WaitsAfter(fetch, url, retries, k) && w == 1000 * (k + 1)
    {
      if w in rest {
        var k: nat :| i + 1 <= k < i + 1 + attempts && WaitsAfter(fetch, url, retries, k) && w == 1000 * (k + 1);
        assert i <= k < i + attempts + 1;
      }
      if exists k: nat :: i <= k < i + attempts + 1 && WaitsAfter(fetch, url, retries, k) && w == 1000 * (k + 1) {
        var k: nat :| i <= k < i + attempts + 1 && WaitsAfter(fetch, url, retries, k) && w == 1000 * (k + 1);
        if k != i {
          assert w in rest;
        }
      }
    }
  }

  // ----- processBase64Image

  const DataImagePrefix: string := "data:image/"
  const Base64Marker: string := ";base64,"

  predicate IsFormatChar(c: char)
  {
    'a' <= c <= 'z' || 'A' <= c <= 'Z' || c == '+'
  }

  /** The longest prefix of format characters. */
  function FormatRun(s: string): (r: string)
    ensures StartsWith(s, r)
    ensures forall k :: 0 <= k < |r| ==> IsFormatChar(r[k])
    ensures |r| < |s| ==> !IsFormatChar(s[|r|])
  {
    if s != [] && IsFormatChar(s[0]) then [s[0]] + FormatRun(s[1..]) else []
  }

  datatype DataUri = DataUri(format: string, payload: string)

  predicate WellFormed(d: DataUri)
  {
    d.format != [] && (forall k :: 0 <= k < |d.format| ==> IsFormatChar(d.format[k]))
    && d.payload != [] && (forall k :: 0 <= k < |d.payload| ==> !IsLineTerminator(d.payload[k]))
  }

  function DataUriText(d: DataUri): string
  {
    DataImagePrefix + d.format + Base64Marker + d.payload
  }

  /**
   * Matching `^data:image/([a-zA-Z+]+);base64,(.+)$`. The format class
   * cannot match `;`, so the greedy format group ends where the marker
   * starts and the match, when there is one, is unique.
   */
  function ParseDataUri(s: string): (r: Option<DataUri>)
    ensures r.Some? ==> WellFormed(r.value) && s == DataUriText(r.value)
  {
    if !StartsWith(s, DataImagePrefix) then None
    else
      var rest := s[|DataImagePrefix|..];
      var format := FormatRun(rest);
      var after := rest[|format|..];
      if format == [] || !StartsWith(after, Base64Marker) then None
      else
        var payload := after[|Base64Marker|..];
        if payload == [] || exists k :: 0 <= k < |payload| && IsLineTerminator(payload[k]) then None
        else
          assert rest == format + after;
          assert after == Base64Marker + payload;
          Some(DataUri(format, payload))
  }

  lemma {:induction false} FormatRunOfFormat(f: string, tail: string)
    requires forall k :: 0 <= k < |f| ==> IsFormatChar(f[k])
    requires tail != [] && !IsFormatChar(tail[0])
    ensures FormatRun(f + tail) == f
  {
    if f != [] {
      assert (f + tail)[1..] == f[1..] + tail;
      FormatRunOfFormat(f[1..], tail);
    } else {
      assert f + tail == tail;
    }
  }

  /** Every well-formed data URI is recognised, with its own format and payload. */
  lemma ParseDataUriComplete(d: DataUri)
    requires WellFormed(d)
    ensures ParseDataUri(DataUriText(d)) == Some(d)
  {
    var s := DataUriText(d);
    var tail := Base64Marker + d.payload;
    var rest := d.format + tail;
    assert s == DataImagePrefix + rest;
    assert StartsWith(s, DataImagePrefix);
    assert s[|DataImagePrefix|..] == rest;
    FormatRunOfFormat(d.format, tail);
    assert rest[|d.format|..] == tail;
    assert StartsWith(tail, Base64Marker);
    assert tail[|Base64Marker|..] == d.payload;
  }

  // ----- processBuffer

  /** The encoder for a probed format; anything unknown becomes JPEG. */
  function EncoderFor(format: string): (e: Encoder)
    ensures format == "png" ==> e == Png
    ensures format == "webp" ==> e == Webp
    ensures format != "png" && format != "webp" ==> e == Jpeg
  {
    match format
    case "jpeg" => Jpeg
    case "jpg" => Jpeg
    case "png" => Png
    case "webp" => Webp
    case _ => Jpeg
  }

  /** Resize only images wider than `maxWidth`, down to exactly that width. */
  function TranscodePlan(meta: ImageMeta, maxWidth: int, quality: int): (plan: Plan)
    ensures plan.resizeTo.Some? <==> meta.width > maxWidth
    ensures plan.resizeTo.Some? ==> plan.resizeTo.value == maxWidth
    ensures plan.encoder == EncoderFor(meta.format) && plan.quality == quality
  {
    Plan(if meta.width > maxWidth then Some(maxWidth) else None, EncoderFor(meta.format), quality)
  }

  function ProcessFailure(message: string): string
  {
    "Failed to process image: " + message
  }

  /** `processBuffer`: probe, plan, encode, probe the output; any failure is wrapped. */
  function ProcessBufferSpec(p: Platform, maxWidth: int, quality: int, data: Option<Bytes>): Result<Processed>
  {
    match data
    case None => Err(ProcessFailure(p.noInputMessage))
    case Some(input) =>
      match p.probe(input)
      case Err(m) => Err(ProcessFailure(m))
      case Ok(meta) =>
        match p.encode(input, TranscodePlan(meta, maxWidth, quality))
        case Err(m) => Err(ProcessFailure(m))
        case Ok(output) =>
          match p.probe(output)
          case Err(m) => Err(ProcessFailure(m))
          case Ok(outMeta) => Ok(Processed(output, outMeta))
  }

  /**
   * A processed image is exactly what the encoder produced for the probed
   * plan, labelled with its own metadata; every failure carries the prefix.
   */
  lemma ProcessBufferOutcome(p: Platform, maxWidth: int, quality: int, data: Option<Bytes>)
    ensures var r := ProcessBufferSpec(p, maxWidth, quality, data);
            && (r.Err? ==> StartsWith(r.message, "Failed to process image: "))
            && (r.Ok? ==> data.Some? && p.probe(data.value).Ok?
                          && p.encode(data.value, TranscodePlan(p.probe(data.value).value, maxWidth, quality))
                             == Ok(r.value.buffer)
                          && p.probe(r.value.buffer) == Ok(r.value.metadata))
  {
  }

  // ----- getOrProcessImage

  /** `generateKey(source)` on the string source: its md5 digest in hex. */
  function CacheKeyOf(p: Platform, source: string): string
  {
    p.md5Hex(source)
  }

  /** A cached blob served with freshly probed metadata; a probe failure is thrown as is. */
  function Served(p: Platform, cached: Bytes): Result<Processed>
  {
    match p.probe(cached)
    case Ok(m) => Ok(Processed(cached, m))
    case Err(m) => Err(m)
  }

  /** `getOrProcessImage`: its result and the cache store afterwards. */
  function GetOrProcessSpec(p: Platform, maxWidth: int, quality: int, c: Config, st: Store,
                            source: string, data: Option<Bytes>, now: int): (Result<Processed>, Store)
  {
    var key := CacheKeyOf(p, source);
    var looked := GetSpec(c, st, key, now);
    if looked.0.Some? then (Served(p, looked.0.value), looked.1)
    else
      var processed := ProcessBufferSpec(p, maxWidth, quality, data);
      if processed.Err? then (processed, looked.1)
      else (processed, SetSpec(c, looked.1, key, processed.value.buffer, Some(processed.value.metadata), now))
  }

  /** On a cache hit the bytes handed in play no part. */
  lemma HitIgnoresData(p: Platform, maxWidth: int, quality: int, c: Config, st: Store,
                       source: string, d1: Option<Bytes>, d2: Option<Bytes>, now: int)
    requires GetSpec(c, st, CacheKeyOf(p, source), now).0.Some?
    ensures GetOrProcessSpec(p, maxWidth, quality, c, st, source, d1, now)
            == GetOrProcessSpec(p, maxWidth, quality, c, st, source, d2, now)
    ensures GetOrProcessSpec(p, maxWidth, quality, c, st, source, d1, now).0
            == Served(p, GetSpec(c, st, CacheKeyOf(p, source), now).0.value)
  {
  }

  /** Items of the store a lookup leaves behind were already in the store before it. */
  lemma LookupKeepsOlderItems(c: Config, st: Store, key: string, now: int)
    requires Healthy(c, st)
    ensures Healthy(c, GetSpec(c, st, key, now).1)
    ensures forall x :: x in GetSpec(c, st, key, now).1.items ==> x in st.items
  {
    var st1 := GetSpec(c, st, key, now).1;
    RemoveKeepsHealthy(c, st, key);
    assert st1 == st || st1 == RemoveSpec(c, st, key);
    forall x | x in st1.items
      ensures x in st.items
    {
      if st1 != st {
        WithoutMember(st.items, {key}, x);
      }
    }
  }

  /**
   * Memoization: after a call that missed a healthy cache whose index can
   * be written and processed the image, a second call for the same source within `maxAge` returns
   * the same result whatever bytes it is given, provided the processed image
   * fits in the cache and the clock has moved past every stored entry.
   */
  lemma SecondCallReturnsFirstResult(p: Platform, maxWidth: int, quality: int, c: Config, st: Store,
                                     source: string, data: Option<Bytes>, other: Option<Bytes>,
                                     now: int, later: int)
    requires Healthy(c, st) && !c.indexBroken && c.maxSize >= 0
    requires Reliable(c, CacheKeyOf(p, source))
    requires forall x :: x in st.items ==> x.entry.timestamp < now
    requires later - now <= c.maxAge
    requires GetSpec(c, st, CacheKeyOf(p, source), now).0.None?
    requires GetOrProcessSpec(p, maxWidth, quality, c, st, source, data, now).0.Ok?
    requires |GetOrProcessSpec(p, maxWidth, quality, c, st, source, data, now).0.value.buffer| <= c.maxSize
    ensures var first := GetOrProcessSpec(p, maxWidth, quality, c, st, source, data, now);
            GetOrProcessSpec(p, maxWidth, quality, c, first.1, source, other, later).0 == first.0
  {
    var key := CacheKeyOf(p, source);
    var looked := GetSpec(c, st, key, now);
    var first := GetOrProcessSpec(p, maxWidth, quality, c, st, source, data, now);
    var processed := ProcessBufferSpec(p, maxWidth, quality, data);
    assert processed == first.0;
    var st1 := looked.1;
    LookupKeepsOlderItems(c, st, key, now);
    var st2 := SetSpec(c, st1, key, processed.value.buffer, Some(processed.value.metadata), now);
    assert first.1 == st2;
    SetThenGet(c, st1, key, processed.value.buffer, Some(processed.value.metadata), now, later);
    var again := GetSpec(c, st2, key, later);
    assert again.0 == Some(processed.value.buffer);
    assert p.probe(processed.value.buffer) == Ok(processed.value.metadata);
    assert GetOrProcessSpec(p, maxWidth, quality, c, st2, source, other, later).0 == Served(p, processed.value.buffer);
  }

  // ----- the public entry points

  function UrlFailure(message: string): string
  {
    "Failed to process URL image: " + message
  }

  const InvalidBase64: string := "Failed to process Base64 image: Invalid Base64 image format"

  /**
   * `processUrlImage`: download first, then consult the cache. Only the
   * download's error is wrapped: the inner promise is returned without
   * `await`, so its rejection escapes the `catch`.
   */
  function ProcessUrlSpec(p: Platform, maxWidth: int, quality: int, c: Config, st: Store,
                          url: string, now: int): (Result<Processed>, Store)
  {
    var run := DownloadFrom(p.fetch, url, DefaultRetries, 0);
    match run.outcome
    case DownloadFailed(m) => (Err(UrlFailure(m)), st)
    case Downloaded(d) => GetOrProcessSpec(p, maxWidth, quality, c, st, url, Some(d), now)
    case Undefined => GetOrProcessSpec(p, maxWidth, quality, c, st, url, None, now)
  }

  /** The download comes first: when it fails, even a cached image is not served and the cache is untouched. */
  lemma UrlDownloadFailureBypassesCache(p: Platform, maxWidth: int, quality: int, c: Config, st: Store,
                                        url: string, now: int)
    requires p.fetch(url, DefaultRetries - 1).Thrown?
    requires forall k :: 0 <= k < DefaultRetries - 1 ==> MovesOn(p.fetch(url, k), k, DefaultRetries)
    ensures ProcessUrlSpec(p, maxWidth, quality, c, st, url, now)
            == (Err(UrlFailure(DownloadFailure(DefaultRetries, p.fetch(url, DefaultRetries - 1).message))), st)
  {
    DownloadFailsIff(p.fetch, url, DefaultRetries, 0);
  }

  /** `processBase64Image`: whitespace is stripped first, and the stripped text is the cache key. */
  function ProcessBase64Spec(p: Platform, maxWidth: int, quality: int, c: Config, st: Store,
                             text: string, now: int): (Result<Processed>, Store)
  {
    var normalized := RemoveSpaces(text);
    match ParseDataUri(normalized)
    case None => (Err(InvalidBase64), st)
    case Some(d) => GetOrProcessSpec(p, maxWidth, quality, c, st, normalized, Some(p.base64Decode(d.payload)), now)
  }

  /** Inputs that differ only in whitespace are the same image with the same cache entry. */
  lemma Base64IgnoresWhitespace(p: Platform, maxWidth: int, quality: int, c: Config, st: Store,
                                a: string, b: string, now: int)
    requires RemoveSpaces(a) == RemoveSpaces(b)
    ensures ProcessBase64Spec(p, maxWidth, quality, c, st, a, now) == ProcessBase64Spec(p, maxWidth, quality, c, st, b, now)
  {
  }

  /** A well-formed data URI, with any whitespace in it, is decoded and keyed by its stripped text; nothing else is accepted. */
  lemma Base64Accepts(p: Platform, maxWidth: int, quality: int, c: Config, st: Store, text: string, now: int)
    ensures var normalized := RemoveSpaces(text);
            ProcessBase64Spec(p, maxWidth, quality, c, st, text, now)
            == if exists d :: WellFormed(d) && normalized == DataUriText(d)
               then var d :| WellFormed(d) && normalized == DataUriText(d);
                    GetOrProcessSpec(p, maxWidth, quality, c, st, normalized, Some(p.base64Decode(d.payload)), now)
               else (Err(InvalidBase64), st)
  {
    var normalized := RemoveSpaces(text);
    if exists d :: WellFormed(d) && normalized == DataUriText(d) {
      var d :| WellFormed(d) && normalized == DataUriText(d);
      ParseDataUriComplete(d);
      forall d' | WellFormed(d') && normalized == DataUriText(d')
        ensures d' == d
      {
        ParseDataUriComplete(d');
      }
    }
  }

  function LocalFailure(message: string): string
  {
    "Failed to read local image: " + message
  }

  /** `processLocalImage`: only the read error is wrapped. */
  function ProcessLocalSpec(p: Platform, maxWidth: int, quality: int, c: Config, st: Store,
                            path: string, now: int): (Result<Processed>, Store)
  {
    match p.readFile(path)
    case Err(m) => (Err(LocalFailure(m)), st)
    case Ok(bytes) => GetOrProcessSpec(p, maxWidth, quality, c, st, path, Some(bytes), now)
  }

  /** The constructor's options; `None` is an absent key. */
  datatype ProcessorOptions = ProcessorOptions(
    maxWidth: Option<int>, quality: Option<int>, cacheMaxAge: Option<int>, cacheMaxSize: Option<int>)

  /** JavaScript `value || fallback` on a number that may be absent (0 counts as absent). */
  function OrElse(value: Option<int>, fallback: int): (r: int)
    ensures value.Some? && value.value != 0 ==> r == value.value
    ensures value.None? || value.value == 0 ==> r == fallback
  {
    if value.Some? && value.value != 0 then value.value else fallback
  }

  class ImageProcessor {
    const maxWidth: int
    const quality: int
    const platform: Platform
    const cache: CacheManager

    ghost predicate Valid()
      reads this, cache
    {
      cache.Valid()
    }

    /**
     * A present `maxWidth`/`quality` wins even when it is 0 (object spread);
     * the cache limits fall back to 7 days and 500 MB when absent or 0 (`||`).
     */
    constructor(options: ProcessorOptions, platform: Platform, dir: map<string, Bytes>,
                index: seq<Item>, failing: BlobFaults, indexFails: bool)
      requires DistinctKeys(index)
      ensures Valid() && fresh(cache)
      ensures maxWidth == (if options.maxWidth.Some? then options.maxWidth.value else DefaultMaxWidth)
      ensures quality == (if options.quality.Some? then options.quality.value else DefaultQuality)
      ensures this.platform == platform
      ensures cache.maxAge == OrElse(options.cacheMaxAge, DefaultCacheMaxAge)
      ensures cache.maxSize == OrElse(options.cacheMaxSize, DefaultCacheMaxSize)
      ensures cache.items == [] && cache.blobs == dir && cache.persisted == index
    {
      maxWidth := if options.maxWidth.Some? then options.maxWidth.value else DefaultMaxWidth;
      quality := if options.quality.Some? then options.quality.value else DefaultQuality;
      this.platform := platform;
      cache := new CacheManager(
        CacheOptions(Some(OrElse(options.cacheMaxAge, DefaultCacheMaxAge)),
                     Some(OrElse(options.cacheMaxSize, DefaultCacheMaxSize))),
        dir, index, failing, indexFails);
    }

    /** `downloadImage(url, retries)`. */
    method DownloadImage(url: string, retries: nat) returns (run: DownloadRun)
      ensures run == DownloadFrom(platform.fetch, url, retries, 0)
    {
      var i: nat := 0;
      var waits: seq<int> := [];
      while i < retries
        invariant i <= retries
        invariant DownloadFrom(platform.fetch, url, retries, 0)
                  == var rest := DownloadFrom(platform.fetch, url, retries, i);
                     DownloadRun(rest.outcome, waits + rest.waits, rest.attempts + i)
        decreases retries - i
      {
        var response := platform.fetch(url, i);
        if response.Response? {
          if response.status == 200 {
            return DownloadRun(Downloaded(response.body), waits, i + 1);
          }
        } else {
          if i == retries - 1 {
            return DownloadRun(DownloadFailed(DownloadFailure(retries, response.message)), waits, i + 1);
          }
          waits := waits + [1000 * (i + 1)];
        }
        i := i + 1;
      }
      return DownloadRun(Undefined, waits, i);
    }

    /** `processBuffer`. */
    method ProcessBuffer(data: Option<Bytes>) returns (r: Result<Processed>)
      ensures r == ProcessBufferSpec(platform, maxWidth, quality, data)
    {
      if data.None? {
        return Err(ProcessFailure(platform.noInputMessage));
      }
      var metadata := platform.probe(data.value);
      if metadata.Err? {
        return Err(ProcessFailure(metadata.message));
      }
      var output := platform.encode(data.value, TranscodePlan(metadata.value, maxWidth, quality));
      if output.Err? {
        return Err(ProcessFailure(output.message));
      }
      var outMeta := platform.probe(output.value);
      if outMeta.Err? {
        return Err(ProcessFailure(outMeta.message));
      }
      return Ok(Processed(output.value, outMeta.value));
    }

    /** `getOrProcessImage(source, data)`. */
    method GetOrProcessImage(source: string, data: Option<Bytes>, now: int) returns (r: Result<Processed>)
      requires Valid()
      modifies cache
      ensures Valid()
      ensures (r, cache.State()) == GetOrProcessSpec(platform, maxWidth, quality, cache.Cfg(), old(cache.State()),
                                                     source, data, now)
    {
      var key := platform.md5Hex(source);
      var cached := cache.Get(key, now);
      if cached.Some? {
        var metadata := platform.probe(cached.value);
        if metadata.Err? {
          return Err(metadata.message);
        }
        return Ok(Processed(cached.value, metadata.value));
      }
      r := ProcessBuffer(data);
      if r.Err? {
        return;
      }
      cache.Set(key, r.value.buffer, Some(r.value.metadata), now);
    }

    /** `processUrlImage(url)`. */
    method ProcessUrlImage(url: string, now: int) returns (r: Result<Processed>)
      requires Valid()
      modifies cache
      ensures Valid()
      ensures (r, cache.State()) == ProcessUrlSpec(platform, maxWidth, quality, cache.Cfg(), old(cache.State()), url, now)
    {
      var run := DownloadImage(url, DefaultRetries);
      if run.outcome.DownloadFailed? {
        return Err(UrlFailure(run.outcome.message));
      }
      var data := if run.outcome.Downloaded? then Some(run.outcome.data) else None;
      r := GetOrProcessImage(url, data, now);
    }

    /** `processBase64Image(text)`. */
    method ProcessBase64Image(text: string, now: int) returns (r: Result<Processed>)
      requires Valid()
      modifies cache
      ensures Valid()
      ensures (r, cache.State()) == ProcessBase64Spec(platform, maxWidth, quality, cache.Cfg(), old(cache.State()), text, now)
    {
      var normalized := RemoveSpaces(text);
      var matches := ParseDataUri(normalized);
      if matches.None? {
        return Err(InvalidBase64);
      }
      r := GetOrProcessImage(normalized, Some(platform.base64Decode(matches.value.payload)), now);
    }

    /** `processLocalImage(path)`. */
    method ProcessLocalImage(path: string, now: int) returns (r: Result<Processed>)
      requires Valid()
      modifies cache
      ensures Valid()
      ensures (r, cache.State()) == ProcessLocalSpec(platform, maxWidth, quality, cache.Cfg(), old(cache.State()), path, now)
    {
      var bytes := platform.readFile(path);
      if bytes.Err? {
        return Err(LocalFailure(bytes.message));
      }
      r := GetOrProcessImage(path, Some(bytes.value), now);
    }
  }
}
