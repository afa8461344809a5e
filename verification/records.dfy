/**
 * The event record model of the capture layer (`LogEntry`) and the pure
 * rules by which each intercepted event becomes one record: the rendered
 * console arguments joined by one space, the `Error` details of a
 * console.error call, the network success and failure messages and details,
 * and the image failure message.
 *
 * The host's values are abstracted: a logged argument carries the text it
 * renders to, a thrown value carries `String(error)` and, when it is an
 * `Error`, its `message`.
 */
module Records {
  import opened Wrappers
  import opened Text

  // ---------------------------------------------------------------------
  // The record model
  // ---------------------------------------------------------------------

  /** The `type` tag of a record. */
  datatype LogType = Log | Network | Error | Performance | Image

  /** The `details` payload, one shape per kind of event; `NoDetails` when absent. */
  datatype Details =
    | NoDetails
    | ErrorDetails(name: string, message: string, stack: Option<string>)
    | NetworkDetails(url: Option<string>, requestMethod: string, status: int, statusText: string,
                     headers: map<string, string>, responseData: string)
    | FetchErrorDetails(error: string)
    | ImageDetails(src: string, error: string, stack: Option<string>)

  /** One captured event: kind, one-line message, capture time in milliseconds, payload. */
  datatype LogEntry = LogEntry(kind: LogType, message: string, timestamp: int, details: Details)

  // ---------------------------------------------------------------------
  // Console arguments
  // ---------------------------------------------------------------------

  /** The name, message and stack of an `Error` instance (the stack may be undefined). */
  datatype ErrorInfo = ErrorInfo(name: string, message: string, stack: Option<string>)

  /**
   * One argument of a console call.
   * - `Undefined`: `undefined`, which `join` renders as the empty string;
   * - `Primitive(text)`: any value whose `typeof` is not `'object'` (string,
   *   number, boolean, function), carrying its `String(...)` text;
   * - `Object(json, error)`: a value whose `typeof` is `'object'`, including
   *   `null`, carrying the text `JSON.stringify` gives for it (`"null"` for
   *   `null`, `"{}"` for an `Error`, whose fields are not enumerable) and,
   *   when it is an `Error` instance, its name, message and stack.
   */
  datatype Value =
    | Undefined
    | Primitive(text: string)
    | Object(json: string, error: Option<ErrorInfo>)

  /** The text one argument contributes to a console message. */
  function Render(v: Value): string
  {
    match v
    case Undefined => ""
    case Primitive(text) => text
    case Object(json, _) => json
  }

  function Rendered(args: seq<Value>): (parts: seq<string>)
    ensures |parts| == |args|
    ensures forall i :: 0 <= i < |args| ==> parts[i] == Render(args[i])
  {
    seq(|args|, i requires 0 <= i < |args| => Render(args[i]))
  }

  /** The message of a log or error record: the renderings joined by one space. */
  function ConsoleMessage(args: seq<Value>): (m: string)
    ensures |args| == 0 ==> m == ""
    ensures |args| == 1 ==> m == Render(args[0])
  {
    Join(Rendered(args))
  }

  /** Splitting a call's arguments splits its message at one space. */
  lemma ConsoleMessageConcat(a: seq<Value>, b: seq<Value>)
    requires |a| >= 1 && |b| >= 1
    ensures ConsoleMessage(a + b) == ConsoleMessage(a) + " " + ConsoleMessage(b)
  {
    assert Rendered(a + b) == Rendered(a) + Rendered(b);
    JoinConcat(Rendered(a), Rendered(b));
  }

  /** When no rendering holds a space, the message splits back into exactly the renderings. */
  lemma ConsoleMessageParts(args: seq<Value>)
    requires |args| >= 1
    requires forall i :: 0 <= i < |args| ==> ' ' !in Render(args[i])
    ensures Split(ConsoleMessage(args)) == Rendered(args)
  {
    SplitJoin(Rendered(args));
  }

  /** `args[0] instanceof Error`. */
  predicate FirstIsError(args: seq<Value>) {
    |args| > 0 && args[0].Object? && args[0].error.Some?
  }

  /** The `details` of a console.error record. */
  function ConsoleErrorDetails(args: seq<Value>): (d: Details)
    ensures d.ErrorDetails? <==> FirstIsError(args)
    ensures !FirstIsError(args) ==> d == NoDetails
    ensures FirstIsError(args) ==>
      d.name == args[0].error.value.name && d.message == args[0].error.value.message &&
      d.stack == args[0].error.value.stack
  {
    if FirstIsError(args) then
      var e := args[0].error.value;
      ErrorDetails(e.name, e.message, e.stack)
    else NoDetails
  }

  /** The record a wrapped console.log call appends. */
  function LogRecord(args: seq<Value>, now: int): (r: LogEntry)
    ensures r.kind == Log && r.timestamp == now && r.details == NoDetails
    ensures r.message == ConsoleMessage(args)
  {
    LogEntry(Log, ConsoleMessage(args), now, NoDetails)
  }

  /** The record a wrapped console.error call appends. */
  function ErrorRecord(args: seq<Value>, now: int): (r: LogEntry)
    ensures r.kind == Error && r.timestamp == now && r.message == ConsoleMessage(args)
    ensures r.details.ErrorDetails? <==> FirstIsError(args)
    ensures r.details == ConsoleErrorDetails(args)
  {
    LogEntry(Error, ConsoleMessage(args), now, ConsoleErrorDetails(args))
  }

  // ---------------------------------------------------------------------
  // Network calls
  // ---------------------------------------------------------------------

  /** The first argument of `fetch`: a URL string, a `Request`, or a `URL` object. */
  datatype Target = UrlString(s: string) | RequestObject(url: string) | UrlObject(href: string)

  /** The `method` of the optional `init` argument (itself possibly undefined). */
  datatype Init = Init(requestMethod: Option<string>)

  /** What the original fetch resolved to, minus the body. */
  datatype Response = Response(status: int, statusText: string, headers: map<string, string>)

  /** A thrown value: its `String(...)` text and, when it is an `Error`, its `message`. */
  datatype Thrown = Thrown(text: string, errorMessage: Option<string>)

  /**
   * `typeof input === 'string' ? input : input.url`. A `URL` object has no
   * `url` property, so it yields `undefined`.
   */
  function UrlOf(input: Target): (u: Option<string>)
    ensures u.None? <==> input.UrlObject?
    ensures input.UrlString? ==> u == Some(input.s)
    ensures input.RequestObject? ==> u == Some(input.url)
  {
    match input
    case UrlString(s) => Some(s)
    case RequestObject(url) => Some(url)
    case UrlObject(_) => None
  }

  /** How a possibly undefined URL appears inside a template string. */
  function UrlText(u: Option<string>): string
  {
    u.GetOr("undefined")
  }

  /** `init?.method || 'GET'`: an absent or empty method counts as GET. */
  function MethodOf(init: Option<Init>): (m: string)
    ensures m != ""
    ensures init.Some? && init.value.requestMethod.Some? && init.value.requestMethod.value != "" ==>
      m == init.value.requestMethod.value
    ensures !(init.Some? && init.value.requestMethod.Some? && init.value.requestMethod.value != "") ==> m == "GET"
  {
    if init.Some? && init.value.requestMethod.Some? && init.value.requestMethod.value != "" then
      init.value.requestMethod.value
    else "GET"
  }

  /** `error instanceof Error ? error.message : String(error)`. */
  function ErrorText(e: Thrown): string
  {
    e.errorMessage.GetOr(e.text)
  }

  const DurationLabel := " - Duration: "
  const StatusLabel := " - Status: "
  const ErrorLabel := " - Error: "

  function DurationSuffix(duration: int): string
  {
    DurationLabel + IntToString(duration) + "ms"
  }

  function StatusMessage(urlText: string, status: int, duration: int): string
  {
    urlText + StatusLabel + IntToString(status) + DurationSuffix(duration)
  }

  function FailureMessage(urlText: string, errorText: string, duration: int): string
  {
    urlText + ErrorLabel + errorText + DurationSuffix(duration)
  }

  /** Reads the duration back out of `" - Duration: {ms}ms"`. */
  function ParseDurationSuffix(s: string): Option<int>
  {
    match StripPrefix(s, DurationLabel)
    case None => None
    case Some(r) =>
      match ReadInt(r)
      case None => None
      case Some((d, rest)) => if rest == "ms" then Some(d) else None
  }

  /** Reads status and duration back out of a success message whose URL text is known. */
  function ParseStatusMessage(message: string, urlText: string): Option<(int, int)>
  {
    match StripPrefix(message, urlText + StatusLabel)
    case None => None
    case Some(r) =>
      match ReadInt(r)
      case None => None
      case Some((status, rest)) =>
        match ParseDurationSuffix(rest)
        case None => None
        case Some(d) => Some((status, d))
  }

  /** Reads the duration back out of a failure message whose URL and error text are known. */
  function ParseFailureMessage(message: string, urlText: string, errorText: string): Option<int>
  {
    match StripPrefix(message, urlText + ErrorLabel + errorText)
    case None => None
    case Some(r) => ParseDurationSuffix(r)
  }

  lemma DurationSuffixRoundTrip(duration: int)
    ensures ParseDurationSuffix(DurationSuffix(duration)) == Some(duration)
  {
    var tail := IntToString(duration) + "ms";
    assert DurationSuffix(duration) == DurationLabel + tail;
    StripPrefixOfConcat(DurationLabel, tail);
    ReadIntOfIntToString(duration, "ms");
  }

  /** The success message determines the status and the duration it was built from. */
  lemma StatusMessageRoundTrip(urlText: string, status: int, duration: int)
    ensures ParseStatusMessage(StatusMessage(urlText, status, duration), urlText) == Some((status, duration))
  {
    var tail := IntToString(status) + DurationSuffix(duration);
    assert StatusMessage(urlText, status, duration) == (urlText + StatusLabel) + tail;
    StripPrefixOfConcat(urlText + StatusLabel, tail);
    ReadIntOfIntToString(status, DurationSuffix(duration));
    DurationSuffixRoundTrip(duration);
  }

  /** The failure message determines the duration it was built from. */
  lemma FailureMessageRoundTrip(urlText: string, errorText: string, duration: int)
    ensures ParseFailureMessage(FailureMessage(urlText, errorText, duration), urlText, errorText) == Some(duration)
  {
    assert FailureMessage(urlText, errorText, duration) ==
      (urlText + ErrorLabel + errorText) + DurationSuffix(duration);
    StripPrefixOfConcat(urlText + ErrorLabel + errorText, DurationSuffix(duration));
    DurationSuffixRoundTrip(duration);
  }

  /** The record a wrapped fetch appends when the call and the body read succeed. */
  function NetworkRecord(input: Target, init: Option<Init>, response: Response, responseData: string,
                         startTime: int, endTime: int): (r: LogEntry)
    ensures r.kind == Network && r.timestamp == endTime
    ensures r.message == StatusMessage(UrlText(UrlOf(input)), response.status, endTime - startTime)
    ensures ParseStatusMessage(r.message, UrlText(UrlOf(input))) == Some((response.status, endTime - startTime))
    ensures r.details == NetworkDetails(UrlOf(input), MethodOf(init), response.status, response.statusText,
                                        response.headers, responseData)
  {
    var url := UrlOf(input);
    StatusMessageRoundTrip(UrlText(url), response.status, endTime - startTime);
    LogEntry(Network, StatusMessage(UrlText(url), response.status, endTime - startTime), endTime,
             NetworkDetails(url, MethodOf(init), response.status, response.statusText, response.headers, responseData))
  }

  /** The record a wrapped fetch appends when the call or the body read throws. */
  function FetchErrorRecord(input: Target, error: Thrown, startTime: int, endTime: int): (r: LogEntry)
    ensures r.kind == Error && r.timestamp == endTime
    ensures r.message == FailureMessage(UrlText(UrlOf(input)), error.text, endTime - startTime)
    ensures ParseFailureMessage(r.message, UrlText(UrlOf(input)), error.text) == Some(endTime - startTime)
    ensures r.details == FetchErrorDetails(ErrorText(error))
  {
    var url := UrlOf(input);
    FailureMessageRoundTrip(UrlText(url), error.text, endTime - startTime);
    LogEntry(Error, FailureMessage(UrlText(url), error.text, endTime - startTime), endTime,
             FetchErrorDetails(ErrorText(error)))
  }

  // ---------------------------------------------------------------------
  // Image load failures
  // ---------------------------------------------------------------------

  const ImagePrefix := "Error loading image: "

  /** Reads the image source back out of an image record's message. */
  function ImageSource(message: string): Option<string>
  {
    StripPrefix(message, ImagePrefix)
  }

  /** The record for a failed image load; `error` is the event's `error` property. */
  function ImageRecord(src: string, error: Option<ErrorInfo>, now: int): (r: LogEntry)
    ensures r.kind == Image && r.timestamp == now
    ensures ImageSource(r.message) == Some(src)
    ensures r.details.ImageDetails? && r.details.src == src && r.details.error != ""
    ensures error.Some? && error.value.message != "" ==> r.details.error == error.value.message
    ensures !(error.Some? && error.value.message != "") ==> r.details.error == "Unknown error"
    ensures r.details.stack == if error.Some? then error.value.stack else None
  {
    StripPrefixOfConcat(ImagePrefix, src);
    var message := if error.Some? && error.value.message != "" then error.value.message else "Unknown error";
    LogEntry(Image, ImagePrefix + src, now,
             ImageDetails(src, message, if error.Some? then error.value.stack else None))
  }
}
