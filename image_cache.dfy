// The image cache behind the shared asynchronous image view: the file-safe
// cache key made from an image URL, the loader's state machine, and the
// cache manager's memory / in-flight / download decisions.
module ImageCaches {
  import opened Wrappers
  import opened Text

  // ---------------------------------------------------------------------
  // Cache keys
  // ---------------------------------------------------------------------

  /** Foundation's alphanumeric set: on ASCII exactly the letters and
    * digits; beyond ASCII the Unicode letter, mark and number categories,
    * given here as `unicodeAlnum`. */
  predicate IsAlphanumeric(unicodeAlnum: char -> bool, c: char)
  {
    if c as int < 128 then IsAsciiLetter(c) || IsAsciiDigit(c) else unicodeAlnum(c)
  }

  /** The UTF-8 encoding of one character. */
  function Utf8(c: char): (bytes: seq<nat>)
    ensures 1 <= |bytes| <= 4
    ensures forall i :: 0 <= i < |bytes| ==> bytes[i] < 256
    ensures LeadLength(bytes[0]) == |bytes|
  {
    var cp: nat := c as int;
    if cp < 0x80 then [cp]
    else if cp < 0x800 then [0xC0 + cp / 64, 0x80 + cp % 64]
    else if cp < 0x10000 then [0xE0 + cp / 4096, 0x80 + cp / 64 % 64, 0x80 + cp % 64]
    else [0xF0 + cp / 262144, 0x80 + cp / 4096 % 64, 0x80 + cp / 64 % 64, 0x80 + cp % 64]
  }

  /** How many bytes a UTF-8 sequence has, read off its first byte. */
  function LeadLength(b: nat): nat
  {
    if b < 0x80 then 1 else if b < 0xE0 then 2 else if b < 0xF0 then 3 else 4
  }

  /** Reads a code point back from its UTF-8 bytes. */
  function Utf8Value(x: seq<nat>): int
    requires 1 <= |x| <= 4
  {
    if |x| == 1 then x[0]
    else if |x| == 2 then (x[0] as int - 0xC0) * 64 + (x[1] as int - 0x80)
    else if |x| == 3 then (x[0] as int - 0xE0) * 4096 + (x[1] as int - 0x80) * 64 + (x[2] as int - 0x80)
    else (x[0] as int - 0xF0) * 262144 + (x[1] as int - 0x80) * 4096 + (x[2] as int - 0x80) * 64 + (x[3] as int - 0x80)
  }

  /** Decoding undoes encoding. */
  lemma Utf8RoundTrip(c: char)
    ensures Utf8Value(Utf8(c)) == c as int
  {
    var cp: nat := c as int;
    if 0x800 <= cp < 0x10000 {
      SplitThree(cp);
    } else if 0x10000 <= cp {
      SplitFour(cp);
    }
  }

  /** A number below 2^16 is its three 6-bit-or-less groups put back. */
  lemma SplitThree(cp: nat)
    ensures cp == cp / 4096 * 4096 + cp / 64 % 64 * 64 + cp % 64
  {
    var q := cp / 64;
    assert cp == q * 64 + cp % 64;
    assert q == q / 64 * 64 + q % 64;
    assert q / 64 == cp / 4096;
  }

  /** The same with four groups. */
  lemma SplitFour(cp: nat)
    ensures cp == cp / 262144 * 262144 + cp / 4096 % 64 * 4096 + cp / 64 % 64 * 64 + cp % 64
  {
    SplitThree(cp);
    var r := cp / 4096;
    assert r == r / 64 * 64 + r % 64;
    assert r / 64 == cp / 262144;
  }

  /** Distinct characters have distinct encodings. */
  lemma Utf8Injective(a: char, b: char)
    requires Utf8(a) == Utf8(b)
    ensures a == b
  {
    Utf8RoundTrip(a);
    Utf8RoundTrip(b);
  }

  /** An upper-case hexadecimal digit. */
  function HexDigit(d: nat): (c: char)
    requires d < 16
    ensures d < 10 ==> c as int == '0' as int + d
    ensures d >= 10 ==> c as int == 'A' as int + d - 10
  {
    if d < 10 then ('0' as int + d) as char else ('A' as int + d - 10) as char
  }

  /** The two hexadecimal digits of a byte. */
  function Hex(b: nat): (h: string)
    requires b < 256
    ensures |h| == 2
    ensures IsAsciiLetter(h[0]) || IsAsciiDigit(h[0])
    ensures IsAsciiLetter(h[1]) || IsAsciiDigit(h[1])
  {
    [HexDigit(b / 16), HexDigit(b % 16)]
  }

  lemma HexInjective(a: nat, b: nat)
    requires a < 256 && b < 256 && Hex(a) == Hex(b)
    ensures a == b
  {
    assert HexDigit(a / 16) == HexDigit(b / 16) && HexDigit(a % 16) == HexDigit(b % 16);
  }

  predicate AllBytes(bytes: seq<nat>)
  {
    forall i :: 0 <= i < |bytes| ==> bytes[i] < 256
  }

  /** Percent-escapes of a byte sequence: `%` and two hex digits per
    * byte. */
  function Escape(bytes: seq<nat>): (e: string)
    requires AllBytes(bytes)
    ensures |e| == 3 * |bytes|
    ensures forall i :: 0 <= i < |e| ==> e[i] == '%' || IsAsciiLetter(e[i]) || IsAsciiDigit(e[i])
    ensures |bytes| > 0 ==> e[0] == '%' && e[1..3] == Hex(bytes[0])
  {
    if bytes == [] then [] else ['%'] + Hex(bytes[0]) + Escape(bytes[1..])
  }

  lemma {:induction false} EscapeInjective(x: seq<nat>, y: seq<nat>)
    requires AllBytes(x) && AllBytes(y) && Escape(x) == Escape(y)
    ensures x == y
  {
    if x != [] {
      var ex, ey := Escape(x), Escape(y);
      assert ex[1..3] == ey[1..3];
      HexInjective(x[0], y[0]);
      assert ex[3..] == Escape(x[1..]) && ey[3..] == Escape(y[1..]);
      EscapeInjective(x[1..], y[1..]);
      assert x == [x[0]] + x[1..] && y == [y[0]] + y[1..];
    }
  }

  /** What one character becomes under percent-encoding: itself when
    * alphanumeric, else the escapes of its UTF-8 bytes. */
  function Token(unicodeAlnum: char -> bool, c: char): (t: string)
    ensures |t| > 0
    ensures IsAlphanumeric(unicodeAlnum, c) ==> t == [c]
    ensures !IsAlphanumeric(unicodeAlnum, c) ==> t == Escape(Utf8(c))
  {
    if IsAlphanumeric(unicodeAlnum, c) then [c] else Escape(Utf8(c))
  }

  /** `addingPercentEncoding(withAllowedCharacters: .alphanumerics)`: every
    * character of the result is an escape marker or alphanumeric. */
  function PercentEncoded(unicodeAlnum: char -> bool, s: string): (r: string)
    ensures |r| >= |s|
    ensures forall i :: 0 <= i < |r| ==> r[i] == '%' || IsAlphanumeric(unicodeAlnum, r[i])
  {
    if s == [] then [] else Token(unicodeAlnum, s[0]) + PercentEncoded(unicodeAlnum, s[1..])
  }

  /** `replacingOccurrences(of: "%", with: "_")`. */
  function ReplacePercent(s: string): (r: string)
    ensures |r| == |s|
    ensures forall i :: 0 <= i < |s| ==> r[i] == (if s[i] == '%' then '_' else s[i])
  {
    seq(|s|, i requires 0 <= i < |s| => if s[i] == '%' then '_' else s[i])
  }

  /** The cache key of a URL string. The fallback to the string's hash is
    * taken only when percent-encoding fails, which it cannot on a string of
    * Unicode scalar values. */
  function SafeFilename(unicodeAlnum: char -> bool, s: string): (r: string)
    ensures '%' !in r
    ensures forall i :: 0 <= i < |r| ==> r[i] == '_' || IsAlphanumeric(unicodeAlnum, r[i])
  {
    ReplacePercent(PercentEncoded(unicodeAlnum, s))
  }

  /** A string of alphanumerics is its own key. */
  lemma {:induction false} SafeFilenameKeepsAlphanumerics(unicodeAlnum: char -> bool, s: string)
    requires forall i :: 0 <= i < |s| ==> IsAlphanumeric(unicodeAlnum, s[i])
    ensures SafeFilename(unicodeAlnum, s) == s
  {
    PercentEncodedKeepsAlphanumerics(unicodeAlnum, s);
    assert forall i :: 0 <= i < |s| ==> s[i] != '%';
  }

  lemma {:induction false} PercentEncodedKeepsAlphanumerics(unicodeAlnum: char -> bool, s: string)
    requires forall i :: 0 <= i < |s| ==> IsAlphanumeric(unicodeAlnum, s[i])
    ensures PercentEncoded(unicodeAlnum, s) == s
  {
    if s != [] {
      PercentEncodedKeepsAlphanumerics(unicodeAlnum, s[1..]);
      assert s == [s[0]] + s[1..];
    }
  }

  /** No token is a proper prefix of another, so the first character of a
    * percent-encoded string is determined. */
  lemma TokenPrefixFree(unicodeAlnum: char -> bool, a: char, b: char, x: string, y: string)
    requires Token(unicodeAlnum, a) + x == Token(unicodeAlnum, b) + y
    ensures a == b && x == y
  {
    var ta, tb := Token(unicodeAlnum, a), Token(unicodeAlnum, b);
    assert (ta + x)[0] == ta[0] && (tb + y)[0] == tb[0];
    if IsAlphanumeric(unicodeAlnum, a) && IsAlphanumeric(unicodeAlnum, b) {
      assert a == b;
    } else if IsAlphanumeric(unicodeAlnum, a) || IsAlphanumeric(unicodeAlnum, b) {
      assert false;
    } else {
      var ua, ub := Utf8(a), Utf8(b);
      assert ta[1..3] == (ta + x)[1..3] == (tb + y)[1..3] == tb[1..3];
      HexInjective(ua[0], ub[0]);
      assert |ta| == |tb|;
      assert ta == (ta + x)[..|ta|] == (tb + y)[..|tb|] == tb;
      EscapeInjective(ua, ub);
      Utf8Injective(a, b);
    }
    assert x == (ta + x)[|ta|..] == (tb + y)[|tb|..] == y;
  }

  lemma {:induction false} PercentEncodedInjective(unicodeAlnum: char -> bool, s: string, t: string)
    requires PercentEncoded(unicodeAlnum, s) == PercentEncoded(unicodeAlnum, t)
    ensures s == t
  {
    if s != [] && t != [] {
      TokenPrefixFree(unicodeAlnum, s[0], t[0], PercentEncoded(unicodeAlnum, s[1..]), PercentEncoded(unicodeAlnum, t[1..]));
      PercentEncodedInjective(unicodeAlnum, s[1..], t[1..]);
      assert s == [s[0]] + s[1..] && t == [t[0]] + t[1..];
    }
  }

  /** Two different URLs never share a cache key: `_` is itself escaped, so
    * replacing the escape marker by it loses nothing. */
  lemma SafeFilenameInjective(unicodeAlnum: char -> bool, s: string, t: string)
    ensures SafeFilename(unicodeAlnum, s) == SafeFilename(unicodeAlnum, t) <==> s == t
  {
    if SafeFilename(unicodeAlnum, s) == SafeFilename(unicodeAlnum, t) {
      var ps, pt := PercentEncoded(unicodeAlnum, s), PercentEncoded(unicodeAlnum, t);
      assert |ps| == |pt|;
      forall i | 0 <= i < |ps|
        ensures ps[i] == pt[i]
      {
        assert ps[i] != '_' && pt[i] != '_';
        assert ReplacePercent(ps)[i] == ReplacePercent(pt)[i];
      }
      assert ps == pt;
      PercentEncodedInjective(unicodeAlnum, s, t);
    }
  }

  // ---------------------------------------------------------------------
  // The image loader
  // ---------------------------------------------------------------------

  /** A decoded image; its bitmap is given, never inspected. */
  datatype Image = Image(data: seq<nat>)

  datatype ImageError =
    | BadUrl
    | BadServerResponse
    | CannotDecodeContentData
    /** A transport failure, or the cancellation a loading task sees. */
    | TransportFailed(description: string)

  datatype LoadingState = Idle | Loading | Success(image: Image) | Failure(error: ImageError)

  /** The loader's own task: the URL it loads, whether it has been
    * cancelled, and whether it has already delivered its answer. */
  datatype LoadTask = LoadTask(url: string, cancelled: bool, finished: bool)

  /** The loader's two fields. */
  datatype Loader = Loader(state: LoadingState, currentTask: Option<LoadTask>)

  function Cancelled(task: Option<LoadTask>): Option<LoadTask>
  {
    if task.Some? then Some(task.value.(cancelled := true)) else None
  }

  /** `loadImage(from:)`: cancel the held task; an empty URL fails at once;
    * a shown image with no task held is kept; otherwise a new task starts
    * and the state is loading. */
  function AfterLoadImage(l: Loader, url: string): Loader
  {
    var held := Cancelled(l.currentTask);
    if url == "" then Loader(Failure(BadUrl), held)
    else if l.state.Success? && held.None? then Loader(l.state, held)
    else Loader(Loading, Some(LoadTask(url, false, false)))
  }

  /** `cancel()`: cancel and drop the held task; a load in progress goes back to
    * idle. */
  function AfterCancel(l: Loader): Loader
  {
    Loader(if l.state.Loading? then Idle else l.state, None)
  }

  /** The held task's answer: written only when the held task is neither
    * cancelled nor already done. The finished task stays held. */
  function AfterCompletion(l: Loader, answer: Result<Image, ImageError>): Loader
  {
    if l.currentTask.Some? && !l.currentTask.value.cancelled && !l.currentTask.value.finished then
      Loader(if answer.Ok? then Success(answer.value) else Failure(answer.error),
             Some(l.currentTask.value.(finished := true)))
    else l
  }

  /** While the loader shows progress it holds a task that will still
    * answer, so the progress indicator is never stuck. */
  predicate WillSettle(l: Loader)
  {
    l.state.Loading? ==> l.currentTask.Some? && !l.currentTask.value.cancelled && !l.currentTask.value.finished
  }

  lemma LoaderStepsKeepWillSettle(l: Loader, url: string, answer: Result<Image, ImageError>)
    requires WillSettle(l)
    ensures WillSettle(AfterLoadImage(l, url))
    ensures WillSettle(AfterCancel(l))
    ensures WillSettle(AfterCompletion(l, answer))
  {
  }

  /** An empty URL is a failure, and the held task is cancelled. */
  lemma EmptyUrlFails(l: Loader)
    ensures AfterLoadImage(l, "").state == Failure(BadUrl)
    ensures AfterLoadImage(l, "").currentTask == Cancelled(l.currentTask)
  {
  }

  /** A non-empty URL starts a load unless an image is shown and no task is
    * held; in that case nothing changes. */
  lemma LoadStartsUnlessShownWithoutTask(l: Loader, url: string)
    requires url != ""
    ensures AfterLoadImage(l, url).state == Loading <==> !(l.state.Success? && l.currentTask.None?)
    ensures l.state.Success? && l.currentTask.None? ==> AfterLoadImage(l, url) == l
    ensures AfterLoadImage(l, url).state == Loading ==> AfterLoadImage(l, url).currentTask == Some(LoadTask(url, false, false))
  {
  }

  /** Cancelling twice is cancelling once, and a cancelled load never
    * writes its answer. */
  lemma CancelIsFinal(l: Loader, answer: Result<Image, ImageError>)
    ensures AfterCancel(AfterCancel(l)) == AfterCancel(l)
    ensures AfterCompletion(AfterCancel(l), answer) == AfterCancel(l)
    ensures AfterCancel(l).state != Loading
  {
  }

  /** A load followed by its answer shows the answer. */
  lemma LoadThenAnswer(l: Loader, url: string, answer: Result<Image, ImageError>)
    requires url != "" && !(l.state.Success? && l.currentTask.None?)
    ensures AfterCompletion(AfterLoadImage(l, url), answer).state
      == (if answer.Ok? then Success(answer.value) else Failure(answer.error))
  {
  }

  /** The shown image is kept across a repeated load only after the view
    * went away: right after a successful load the finished task is still
    * held, so loading the same URL again starts over. */
  lemma {:induction false} ShownImageKeptOnlyAfterCancel(l: Loader, url: string, img: Image)
    requires url != "" && !(l.state.Success? && l.currentTask.None?)
    ensures var shown := AfterCompletion(AfterLoadImage(l, url), Ok(img));
      shown.state == Success(img)
      && AfterLoadImage(shown, url).state == Loading
      && AfterLoadImage(AfterCancel(shown), url) == AfterCancel(shown)
  {
    var started := AfterLoadImage(l, url);
    assert started.currentTask == Some(LoadTask(url, false, false));
    var shown := AfterCompletion(started, Ok(img));
    assert shown.currentTask.Some?;
  }

  /** The `image`, `isLoading` and `error` accessors. */
  function ImageOf(s: LoadingState): (r: Option<Image>)
    ensures r.Some? <==> s.Success?
    ensures r.Some? ==> r.value == s.image
  {
    if s.Success? then Some(s.image) else None
  }

  function ErrorOf(s: LoadingState): (r: Option<ImageError>)
    ensures r.Some? <==> s.Failure?
    ensures r.Some? ==> r.value == s.error
  {
    if s.Failure? then Some(s.error) else None
  }

  /** At most one accessor reports something, and in idle none does. */
  lemma AccessorsAreExclusive(s: LoadingState)
    ensures !(ImageOf(s).Some? && ErrorOf(s).Some?)
    ensures s.Loading? ==> ImageOf(s).None? && ErrorOf(s).None?
    ensures s.Idle? ==> ImageOf(s).None? && ErrorOf(s).None? && !s.Loading?
  {
  }

  class ImageLoader {
    var state: LoadingState
    var currentTask: Option<LoadTask>

    function Snapshot(): Loader
      reads this
    {
      Loader(state, currentTask)
    }

    constructor()
      ensures Snapshot() == Loader(Idle, None)
    {
      state := Idle;
      currentTask := None;
    }

    method LoadImage(url: string)
      modifies this
      ensures Snapshot() == AfterLoadImage(old(Snapshot()), url)
    {
      currentTask := Cancelled(currentTask);
      if url == "" {
        state := Failure(BadUrl);
        return;
      }
      if state.Success? && currentTask.None? {
        return;
      }
      state := Loading;
      currentTask := Some(LoadTask(url, false, false));
    }

    method Cancel()
      modifies this
      ensures Snapshot() == AfterCancel(old(Snapshot()))
    {
      currentTask := Cancelled(currentTask);
      currentTask := None;
      if state.Loading? {
        state := Idle;
      }
    }

    /** The held task's answer arrives back on the main actor. */
    method TaskCompleted(answer: Result<Image, ImageError>)
      modifies this
      ensures Snapshot() == AfterCompletion(old(Snapshot()), answer)
    {
      if currentTask.Some? && !currentTask.value.cancelled && !currentTask.value.finished {
        match answer {
          case Ok(image) => state := Success(image);
          case Err(e) => state := Failure(e);
        }
        currentTask := Some(currentTask.value.(finished := true));
      }
    }

    function LoadedImage(): (r: Option<Image>)
      reads this
      ensures r == ImageOf(state)
    {
      if state.Success? then Some(state.image) else None
    }

    function IsLoading(): (b: bool)
      reads this
      ensures b <==> state.Loading?
    {
      state.Loading?
    }

    function LoadError(): (r: Option<ImageError>)
      reads this
      ensures r == ErrorOf(state)
    {
      if state.Failure? then Some(state.error) else None
    }
  }

  // ---------------------------------------------------------------------
  // The cache manager
  // ---------------------------------------------------------------------

  /** A memory entry is served for one day after it was cached (seconds). */
  const MaxMemoryAge: int := 24 * 60 * 60

  /** What the disk keeps: the image and its HTTP validators. */
  datatype StoredImage = StoredImage(image: Image, etag: Option<string>, lastModified: Option<string>)

  /** A memory entry, stamped with the time it was made. */
  datatype CacheEntry = CacheEntry(stored: StoredImage, cachedDate: int)

  /** An HTTP answer: the status, the body decoded as an image when it is
    * one, and the two validator headers. */
  datatype HttpAnswer = HttpAnswer(statusCode: int, decoded: Option<Image>, etag: Option<string>, lastModified: Option<string>)

  /** The conditional request against the stored validators. A failed
    * request (bad URL, transport, no HTTP answer) is an `Err`. */
  function Validate(answer: Result<HttpAnswer, ImageError>, current: Image): Result<Image, ImageError>
  {
    if answer.Err? then Err(answer.error)
    else if answer.value.statusCode == 304 then Ok(current)
    else if answer.value.statusCode == 200 then
      (if answer.value.decoded.Some? then Ok(answer.value.decoded.value) else Err(CannotDecodeContentData))
    else Err(BadServerResponse)
  }

  /** The plain download: only 200 is accepted, then the body must decode;
    * the validators come from the answer's headers. */
  function Download(answer: Result<HttpAnswer, ImageError>): Result<StoredImage, ImageError>
  {
    if answer.Err? then Err(answer.error)
    else if answer.value.statusCode != 200 then Err(BadServerResponse)
    else if answer.value.decoded.None? then Err(CannotDecodeContentData)
    else Ok(StoredImage(answer.value.decoded.value, answer.value.etag, answer.value.lastModified))
  }

  lemma ValidationOutcomes(a: HttpAnswer, current: Image)
    ensures Validate(Ok(a), current).Ok? <==> a.statusCode == 304 || (a.statusCode == 200 && a.decoded.Some?)
    ensures a.statusCode == 304 ==> Validate(Ok(a), current) == Ok(current)
    ensures a.statusCode == 200 && a.decoded.Some? ==> Validate(Ok(a), current) == Ok(a.decoded.value)
    ensures a.statusCode !in {200, 304} ==> Validate(Ok(a), current) == Err(BadServerResponse)
  {
  }

  /** A fresh download accepts only 200, so it accepts no more than the
    * conditional request does, and yields the same image. */
  lemma DownloadIsStricterThanValidation(a: Result<HttpAnswer, ImageError>, current: Image)
    ensures Download(a).Ok? <==> a.Ok? && a.value.statusCode == 200 && a.value.decoded.Some?
    ensures Download(a).Ok? ==> Validate(a, current) == Ok(Download(a).value.image)
    ensures a.Ok? && a.value.statusCode == 304 ==> Download(a) == Err(BadServerResponse)
  {
  }

  /** A finished download: the entry to cache and whether it also goes to
    * disk. */
  datatype Fetched = Fetched(stored: StoredImage, toDisk: bool)

  /** The body of the download task: the disk entry, if there is one, is
    * checked with the server and kept in memory only; with none the image
    * is downloaded and kept in memory and on disk. */
  function RunDownload(disk: Result<Option<StoredImage>, ImageError>,
                       validation: Result<HttpAnswer, ImageError>,
                       network: Result<HttpAnswer, ImageError>): Result<Fetched, ImageError>
  {
    if disk.Err? then Err(disk.error)
    else if disk.value.Some? then
      var entry := disk.value.value;
      match Validate(validation, entry.image)
      case Ok(image) => Ok(Fetched(StoredImage(image, entry.etag, entry.lastModified), false))
      case Err(e) => Err(e)
    else
      match Download(network)
      case Ok(stored) => Ok(Fetched(stored, true))
      case Err(e) => Err(e)
  }

  /** With a disk entry the plain download is never made: a failed check
    * fails the load rather than falling back. The cached entry keeps the
    * disk's validators, even when the check answered 200 with new ones. */
  lemma DiskEntryIsOnlyValidated(entry: StoredImage, validation: Result<HttpAnswer, ImageError>,
                                 n1: Result<HttpAnswer, ImageError>, n2: Result<HttpAnswer, ImageError>)
    ensures RunDownload(Ok(Some(entry)), validation, n1) == RunDownload(Ok(Some(entry)), validation, n2)
    ensures RunDownload(Ok(Some(entry)), validation, n1).Ok? <==> Validate(validation, entry.image).Ok?
    ensures RunDownload(Ok(Some(entry)), validation, n1).Ok? ==>
      var f := RunDownload(Ok(Some(entry)), validation, n1).value;
      f.stored.etag == entry.etag && f.stored.lastModified == entry.lastModified && !f.toDisk
  {
  }

  /** Without a disk entry the check is never made and the download decides. */
  lemma NoDiskEntryDownloads(v1: Result<HttpAnswer, ImageError>, v2: Result<HttpAnswer, ImageError>,
                             network: Result<HttpAnswer, ImageError>)
    ensures RunDownload(Ok(None), v1, network) == RunDownload(Ok(None), v2, network)
    ensures RunDownload(Ok(None), v1, network).Ok? <==> Download(network).Ok?
    ensures RunDownload(Ok(None), v1, network).Ok? ==>
      RunDownload(Ok(None), v1, network).value == Fetched(Download(network).value, true)
  {
  }

  /** How a load begins. */
  datatype LoadStep =
    | FromMemory(image: Image)
    /** Waits for the download already running for the same key. */
    | JoinInFlight
    | StartDownload

  /** The shared cache: memory entries and running downloads, both keyed by
    * the URL's safe file name. The disk and the cache's own eviction are
    * not modelled. */
  class ImageCacheManager {
    const unicodeAlnum: char -> bool
    var memoryCache: map<string, CacheEntry>
    /** Each running download, with the URL it was started for. */
    var downloadTasks: map<string, string>

    predicate Consistent()
      reads this
    {
      forall k | k in downloadTasks :: k == SafeFilename(unicodeAlnum, downloadTasks[k])
    }

    constructor(unicodeAlnum: char -> bool)
      ensures Consistent()
      ensures this.unicodeAlnum == unicodeAlnum && memoryCache == map[] && downloadTasks == map[]
    {
      this.unicodeAlnum := unicodeAlnum;
      memoryCache := map[];
      downloadTasks := map[];
    }

    /** `loadImage(from:)` up to its wait: a memory entry younger than a
      * day is returned; an older one is dropped; then a running download
      * for the key is joined, or a new one is registered. */
    method LoadImage(url: string, now: int) returns (step: LoadStep)
      requires Consistent()
      modifies this
      ensures Consistent()
      ensures var key := SafeFilename(unicodeAlnum, url);
        && (key in old(memoryCache) && now - old(memoryCache)[key].cachedDate < MaxMemoryAge ==>
              step == FromMemory(old(memoryCache)[key].stored.image)
              && memoryCache == old(memoryCache) && downloadTasks == old(downloadTasks))
        && (!(key in old(memoryCache) && now - old(memoryCache)[key].cachedDate < MaxMemoryAge) ==>
              memoryCache == old(memoryCache) - {key}
              && (key in old(downloadTasks) ==>
                    step == JoinInFlight && downloadTasks == old(downloadTasks)
                    && old(downloadTasks)[key] == url)
              && (key !in old(downloadTasks) ==>
                    step == StartDownload && downloadTasks == old(downloadTasks)[key := url]))
    {
      var key := SafeFilename(unicodeAlnum, url);
      if key in memoryCache {
        var entry := memoryCache[key];
        if now - entry.cachedDate < MaxMemoryAge {
          return FromMemory(entry.stored.image);
        }
      }
      memoryCache := memoryCache - {key};
      if key in downloadTasks {
        SafeFilenameInjective(unicodeAlnum, downloadTasks[key], url);
        return JoinInFlight;
      }
      downloadTasks := downloadTasks[key := url];
      step := StartDownload;
    }

    /** The registered download for `url` ended: a success is cached in
      * memory, stamped `now`, and either way the running download is
      * forgotten. */
    method DownloadFinished(url: string, disk: Result<Option<StoredImage>, ImageError>,
                            validation: Result<HttpAnswer, ImageError>,
                            network: Result<HttpAnswer, ImageError>, now: int)
      returns (r: Result<Image, ImageError>)
      requires Consistent()
      modifies this
      ensures Consistent()
      ensures var key := SafeFilename(unicodeAlnum, url);
        var outcome := RunDownload(disk, validation, network);
        && downloadTasks == old(downloadTasks) - {key}
        && (outcome.Ok? ==>
              r == Ok(outcome.value.stored.image)
              && memoryCache == old(memoryCache)[key := CacheEntry(outcome.value.stored, now)])
        && (outcome.Err? ==> r == Err(outcome.error) && memoryCache == old(memoryCache))
    {
      var key := SafeFilename(unicodeAlnum, url);
      var outcome := RunDownload(disk, validation, network);
      match outcome {
        case Ok(fetched) =>
          memoryCache := memoryCache[key := CacheEntry(fetched.stored, now)];
          r := Ok(fetched.stored.image);
        case Err(e) =>
          r := Err(e);
      }
      downloadTasks := downloadTasks - {key};
    }

    method CancelDownload(url: string)
      requires Consistent()
      modifies this
      ensures Consistent()
      ensures downloadTasks == old(downloadTasks) - {SafeFilename(unicodeAlnum, url)}
      ensures memoryCache == old(memoryCache)
    {
      downloadTasks := downloadTasks - {SafeFilename(unicodeAlnum, url)};
    }

    method ClearMemoryCache()
      modifies this
      ensures memoryCache == map[] && downloadTasks == old(downloadTasks)
    {
      memoryCache := map[];
    }

    method ClearAllCache()
      modifies this
      ensures memoryCache == map[] && downloadTasks == map[]
    {
      memoryCache := map[];
      downloadTasks := map[];
    }

    function ActiveDownloadsCount(): (n: nat)
      reads this
      ensures n == |downloadTasks|
    {
      |downloadTasks|
    }
  }
}
