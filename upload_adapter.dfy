/**
 * The custom simple upload adapter of the classic editor build: the plugin's
 * registration gate, the adapter that posts one file with an XMLHttpRequest,
 * the listeners that settle the upload promise, and the progress handler.
 *
 * Promises are represented by the `Settlement` a listener produces; the
 * browser's request object by the `Xhr` class, which records the calls the
 * adapter makes on it.
 */
module UploadAdapter {
  import opened Wrappers
  import opened Json

  // ---------------------------------------------------------------------------
  // Registration
  // ---------------------------------------------------------------------------

  /**
   * The `simpleUpload` configuration. A configuration without an `uploadUrl`
   * key is written with `uploadUrl == ""`: both are falsy and treated alike.
   */
  datatype SimpleUploadConfig = SimpleUploadConfig(
    uploadUrl: string,
    headers: Option<map<string, string>>,
    withCredentials: Option<bool>)

  const MissingUploadUrlWarning: string := "simple-upload-adapter-missing-uploadurl"

  /**
   * What the plugin's `init` leaves behind: the warnings it logged, and the
   * options captured by the adapter factory it installed on the file
   * repository (`None` when it installed none).
   */
  datatype Registration = Registration(warnings: seq<string>, factory: Option<SimpleUploadConfig>)

  /** `SimpleUploadAdapter.init`, given what `config.get('simpleUpload')` returned. */
  function Init(options: Option<SimpleUploadConfig>): (r: Registration)
    ensures options.None? ==> r.warnings == [] && r.factory.None?
    ensures r.factory.Some? <==> options.Some? && options.value.uploadUrl != ""
    ensures r.factory.Some? ==> r.factory.value == options.value
    ensures r.warnings == (if options.Some? && options.value.uploadUrl == "" then [MissingUploadUrlWarning] else [])
  {
    if options.None? then
      Registration([], None)
    else if options.value.uploadUrl == "" then
      Registration([MissingUploadUrlWarning], None)
    else
      Registration([], Some(options.value))
  }

  /** An installed factory always has an endpoint, and `init` never both warns and installs one. */
  lemma {:induction false} RegisteredFactoryHasEndpoint(options: Option<SimpleUploadConfig>)
    ensures Init(options).factory.Some? ==> Init(options).factory.value.uploadUrl != ""
    ensures Init(options).factory.Some? ==> Init(options).warnings == []
    ensures |Init(options).warnings| <= 1
  {
  }

  // ---------------------------------------------------------------------------
  // Settling the upload promise
  // ---------------------------------------------------------------------------

  /**
   * The value the upload promise resolves with, `{...response, urls}`:
   * `fields` are the copied response fields (a copied `urls` field is replaced
   * by the normalised one), `urlsDefault` is `urls.default` (`None` is
   * `undefined`).
   */
  datatype UploadResponse = UploadResponse(fields: map<string, Json>, urlsDefault: Option<Json>)

  datatype Settlement =
    | Resolved(response: UploadResponse)
    /** `reject(message)`; `reason == None` is `reject()` with no argument. */
    | Rejected(reason: Option<Json>)
    /** The listener threw before calling either: the promise stays pending. */
    | Unsettled

  /** The events of the request the adapter listens to. */
  datatype XhrEvent =
    | TransportError
    | TransportAbort
    | Load(response: Json)

  function GenericErrorText(fileName: string): string {
    "Couldn't upload file: " + fileName + "."
  }

  /** The server's own error message: a truthy `response.error.message`, if any. */
  function ServerMessage(response: Json): Option<Json> {
    if !Truthy(response) then None
    else match Prop(response, "error")
      case None => None
      case Some(error) =>
        if Truthy(error) && TruthyRead(Prop(error, "message")) then Prop(error, "message") else None
  }

  /** Whether a property read gave something whose own properties can be read (not undefined, not null). */
  predicate Readable(p: Option<Json>) {
    p.Some? && !p.value.Null?
  }

  /** The `load` listener: how a received response settles the upload. */
  function OnLoad(response: Json, fileName: string): (r: Settlement)
    // An absent body or a truthy `error` rejects, with the server's message or the generic text.
    ensures r.Rejected? <==> !Truthy(response) || TruthyRead(Prop(response, "error"))
    ensures r.Rejected? ==> r.reason == (if ServerMessage(response).Some? then ServerMessage(response)
                                         else Some(Str(GenericErrorText(fileName))))
    // `response.data.url` with `data` undefined or null throws inside the listener.
    ensures r.Unsettled? <==>
      Truthy(response) && !TruthyRead(Prop(response, "error")) &&
      TruthyRead(Prop(response, "success")) && !Readable(Prop(response, "data"))
    // Otherwise every response field is kept, and `urls.default` is the data URL
    // on success and the `images` field otherwise.
    ensures r.Resolved? ==> r.response.fields.Keys == OwnFields(response).Keys - {"urls"}
    ensures r.Resolved? ==> forall k :: k in r.response.fields ==> r.response.fields[k] == OwnFields(response)[k]
    ensures r.Resolved? && TruthyRead(Prop(response, "success")) ==>
      Readable(Prop(response, "data")) && r.response.urlsDefault == Prop(Prop(response, "data").value, "url")
    ensures r.Resolved? && !TruthyRead(Prop(response, "success")) ==>
      r.response.urlsDefault == Prop(response, "images")
  {
    if !Truthy(response) || TruthyRead(Prop(response, "error")) then
      var error := if Truthy(response) then Prop(response, "error") else None;
      Rejected(
        if TruthyRead(error) && TruthyRead(Prop(error.value, "message"))
        then Prop(error.value, "message")
        else Some(Str(GenericErrorText(fileName))))
    else
      var urlsDefault :=
        if TruthyRead(Prop(response, "success")) then
          var data := Prop(response, "data");
          if Readable(data) then Some(Prop(data.value, "url")) else None
        else
          Some(Prop(response, "images"));
      if urlsDefault.None? then Unsettled
      else Resolved(UploadResponse(OwnFields(response) - {"urls"}, urlsDefault.value))
  }

  /** The listeners `_initListeners` attaches, for the file named `fileName`. */
  function Settle(event: XhrEvent, fileName: string): (r: Settlement)
    ensures event.TransportError? ==> r == Rejected(Some(Str(GenericErrorText(fileName))))
    ensures event.TransportAbort? ==> r == Rejected(None)
    ensures event.Load? ==> r == OnLoad(event.response, fileName)
  {
    match event
    case TransportError => Rejected(Some(Str(GenericErrorText(fileName))))
    case TransportAbort => Rejected(None)
    case Load(response) => OnLoad(response, fileName)
  }

  /** A rejection without a message comes from an abort and from nothing else. */
  lemma {:induction false} OnlyAbortRejectsWithoutMessage(event: XhrEvent, fileName: string)
    ensures Settle(event, fileName) == Rejected(None) <==> event.TransportAbort?
  {
    if event.Load? {
      var r := OnLoad(event.response, fileName);
      if r.Rejected? {
        assert r.reason.Some?;
      }
    }
  }

  /**
   * The resolved object as a map of fields: the copied response with `urls`
   * set to the normalised object (`{default: undefined}` is shown as `{}`).
   */
  function ResolvedObject(u: UploadResponse): map<string, Json> {
    u.fields["urls" := Obj(if u.urlsDefault.Some? then map["default" := u.urlsDefault.value] else map[])]
  }

  /** The resolved object holds every response field but `urls`, and `urls` is the normalised one. */
  lemma {:induction false} ResolvedObjectKeepsResponse(response: Json, fileName: string)
    requires OnLoad(response, fileName).Resolved?
    ensures var obj := ResolvedObject(OnLoad(response, fileName).response);
      && obj.Keys == OwnFields(response).Keys + {"urls"}
      && (forall k :: k in OwnFields(response) && k != "urls" ==> obj[k] == OwnFields(response)[k])
      && obj["urls"] == Obj(match OnLoad(response, fileName).response.urlsDefault
                            case Some(u) => map["default" := u]
                            case None => map[])
  {
    var u := OnLoad(response, fileName).response;
    assert u.fields.Keys == OwnFields(response).Keys - {"urls"};
  }

  /** `{success: true, data: {url: "http://x/1.png"}}` resolves with that URL as `urls.default`. */
  lemma SuccessResolvesWithDataUrl(fileName: string)
    ensures var response := Obj(map["success" := Bool(true), "data" := Obj(map["url" := Str("http://x/1.png")])]);
      OnLoad(response, fileName).Resolved? &&
      OnLoad(response, fileName).response.urlsDefault == Some(Str("http://x/1.png"))
  {
  }

  /** `{success: false, error: {message: "too big"}}` rejects with the server's message. */
  lemma ErrorRejectsWithServerMessage(fileName: string)
    ensures var response := Obj(map["success" := Bool(false), "error" := Obj(map["message" := Str("too big")])]);
      OnLoad(response, fileName) == Rejected(Some(Str("too big")))
  {
  }

  /** A falsy `success` without an `error` still resolves, with `urls.default` taken from `images`. */
  lemma FalsySuccessWithoutErrorResolves(fileName: string)
    ensures var response := Obj(map["success" := Bool(false), "images" := Str("http://x/2.png")]);
      OnLoad(response, fileName).Resolved? &&
      OnLoad(response, fileName).response.urlsDefault == Some(Str("http://x/2.png"))
  {
  }

  /** An unparsable body (delivered as `null`) rejects with the generic text. */
  lemma NullBodyRejectsWithGenericText(fileName: string)
    ensures OnLoad(Null, fileName) == Rejected(Some(Str(GenericErrorText(fileName))))
  {
  }

  // ---------------------------------------------------------------------------
  // The request and its progress
  // ---------------------------------------------------------------------------

  /** The file the loader hands over: its name and size in bytes. */
  datatype File = File(name: string, size: nat)

  /** One `FormData.append` call. */
  datatype FormEntry =
    | FileEntry(name: string, file: File)
    | TextEntry(name: string, value: string)

  /** The multipart body `_sendRequest` builds: the file under `smfile` and `format = json`. */
  function UploadBody(file: File): (body: seq<FormEntry>)
    ensures |body| == 2
    ensures forall i :: 0 <= i < |body| ==> body[i].name in {"smfile", "format"}
    ensures body[0].FileEntry? && body[0].name == "smfile" && body[0].file == file
    ensures body[1] == TextEntry("format", "json")
  {
    [FileEntry("smfile", file), TextEntry("format", "json")]
  }

  /** A `progress` event of the request's upload target. */
  datatype ProgressEvent = ProgressEvent(lengthComputable: bool, loaded: nat, total: nat)

  /** The host's file loader, as far as the adapter reads and writes it. */
  class FileLoader {
    var uploadTotal: Option<nat>
    var uploaded: nat

    constructor ()
      ensures uploadTotal.None? && uploaded == 0
    {
      uploadTotal := None;
      uploaded := 0;
    }
  }

  /** The progress listener: copies the counters only when the length is computable. */
  method OnProgress(loader: FileLoader, evt: ProgressEvent)
    modifies loader
    ensures evt.lengthComputable ==> loader.uploadTotal == Some(evt.total) && loader.uploaded == evt.loaded
    ensures !evt.lengthComputable ==> unchanged(loader)
  {
    if evt.lengthComputable {
      loader.uploadTotal := Some(evt.total);
      loader.uploaded := evt.loaded;
    }
  }

  /** Part way through the header loop: the headers no longer `pending` are each set once. */
  ghost predicate HeadersSetSoFar(calls: seq<(string, string)>, headers: map<string, string>, pending: set<string>) {
    && pending <= headers.Keys
    && (forall i :: 0 <= i < |calls| ==> calls[i].0 in headers && calls[i].0 !in pending && calls[i].1 == headers[calls[i].0])
    && (forall i, j :: 0 <= i < j < |calls| ==> calls[i].0 != calls[j].0)
    && (forall name :: name in headers && name !in pending ==> exists i :: 0 <= i < |calls| && calls[i].0 == name)
  }

  /** Each configured header is set exactly once, with its configured value: the header loop with nothing pending. */
  ghost predicate SetsEachHeaderOnce(calls: seq<(string, string)>, headers: map<string, string>) {
    HeadersSetSoFar(calls, headers, {})
  }

  lemma SetOneMoreHeader(calls: seq<(string, string)>, headers: map<string, string>, pending: set<string>, name: string)
    requires HeadersSetSoFar(calls, headers, pending) && name in pending
    ensures HeadersSetSoFar(calls + [(name, headers[name])], headers, pending - {name})
  {
    var next := calls + [(name, headers[name])];
    forall done | done in headers && done !in pending - {name}
      ensures exists i :: 0 <= i < |next| && next[i].0 == done
    {
      if done == name {
        assert next[|calls|].0 == done;
      } else {
        var i :| 0 <= i < |calls| && calls[i].0 == done;
        assert next[i].0 == done;
      }
    }
  }

  /** The browser's XMLHttpRequest, recording what the adapter does with it. */
  class Xhr {
    var verb: string
    var url: string
    var async: bool
    var responseType: string
    var requestHeaders: seq<(string, string)>
    var withCredentials: bool
    var sentBody: Option<seq<FormEntry>>
    var abortCalls: nat
    /** The file name the attached listeners report on, once `_initListeners` has run. */
    var listeningFor: Option<string>
    var listensToProgress: bool
    /** Whether `xhr.upload` exists, on which the progress listener is attached. */
    const hasUploadTarget: bool

    constructor (hasUploadTarget: bool)
      ensures this.hasUploadTarget == hasUploadTarget
      ensures verb == "" && url == "" && !async && responseType == ""
      ensures requestHeaders == [] && !withCredentials && sentBody.None? && abortCalls == 0
      ensures listeningFor.None? && !listensToProgress
    {
      this.hasUploadTarget := hasUploadTarget;
      verb, url, async, responseType := "", "", false, "";
      requestHeaders, withCredentials, sentBody, abortCalls := [], false, None, 0;
      listeningFor, listensToProgress := None, false;
    }

    method Open(verb: string, url: string, async: bool)
      modifies this
      ensures this.verb == verb && this.url == url && this.async == async
      ensures responseType == old(responseType) && requestHeaders == old(requestHeaders)
      ensures withCredentials == old(withCredentials) && sentBody == old(sentBody)
      ensures abortCalls == old(abortCalls) && listeningFor == old(listeningFor)
      ensures listensToProgress == old(listensToProgress)
    {
      this.verb, this.url, this.async := verb, url, async;
    }

    method SetRequestHeader(name: string, value: string)
      modifies this`requestHeaders
      ensures requestHeaders == old(requestHeaders) + [(name, value)]
    {
      requestHeaders := requestHeaders + [(name, value)];
    }

    method Send(body: seq<FormEntry>)
      modifies this`sentBody
      ensures sentBody == Some(body)
    {
      sentBody := Some(body);
    }

    method Abort()
      modifies this`abortCalls
      ensures abortCalls == old(abortCalls) + 1
    {
      abortCalls := abortCalls + 1;
    }
  }

  /** The upload adapter the installed factory builds for one file loader. */
  class Adapter {
    var loader: FileLoader
    var options: SimpleUploadConfig
    /** The request, once `upload` has created one. */
    var xhr: Xhr?

    /** The factory `init` installs: `loader => new Adapter(loader, options)`. */
    constructor (loader: FileLoader, options: SimpleUploadConfig)
      ensures this.loader == loader && this.options == options && xhr == null
    {
      this.loader := loader;
      this.options := options;
      xhr := null;
    }

    /** Aborts the current request; does nothing before one has been created. */
    method Abort()
      modifies xhr
      ensures xhr == old(xhr)
      ensures xhr != null ==> xhr.abortCalls == old(xhr.abortCalls) + 1
      ensures xhr != null ==> xhr.sentBody == old(xhr.sentBody) && xhr.requestHeaders == old(xhr.requestHeaders)
      ensures xhr != null ==> xhr.verb == old(xhr.verb) && xhr.url == old(xhr.url) && xhr.async == old(xhr.async)
      ensures xhr != null ==> xhr.responseType == old(xhr.responseType) && xhr.withCredentials == old(xhr.withCredentials)
      ensures xhr != null ==> xhr.listeningFor == old(xhr.listeningFor) && xhr.listensToProgress == old(xhr.listensToProgress)
    {
      if xhr != null {
        xhr.Abort();
      }
    }

    /** `_initRequest`: a fresh request, opened as an asynchronous POST to the endpoint, expecting JSON. */
    method InitRequest(hasUploadTarget: bool)
      modifies this`xhr
      ensures fresh(xhr) && xhr.hasUploadTarget == hasUploadTarget
      ensures xhr.verb == "POST" && xhr.url == options.uploadUrl && xhr.async && xhr.responseType == "json"
      ensures xhr.requestHeaders == [] && !xhr.withCredentials && xhr.sentBody.None? && xhr.abortCalls == 0
      ensures xhr.listeningFor.None? && !xhr.listensToProgress
    {
      var request := new Xhr(hasUploadTarget);
      xhr := request;
      request.Open("POST", options.uploadUrl, true);
      request.responseType := "json";
    }

    /** `_initListeners`: the request's events now settle the upload as `Settle(_, file.name)` says. */
    method InitListeners(file: File)
      requires xhr != null
      modifies xhr
      ensures xhr == old(xhr)
      ensures xhr.listeningFor == Some(file.name)
      ensures xhr.listensToProgress == (old(xhr.listensToProgress) || xhr.hasUploadTarget)
      ensures xhr.verb == old(xhr.verb) && xhr.url == old(xhr.url) && xhr.async == old(xhr.async)
      ensures xhr.responseType == old(xhr.responseType) && xhr.requestHeaders == old(xhr.requestHeaders)
      ensures xhr.withCredentials == old(xhr.withCredentials) && xhr.sentBody == old(xhr.sentBody)
      ensures xhr.abortCalls == old(xhr.abortCalls)
    {
      xhr.listeningFor := Some(file.name);
      if xhr.hasUploadTarget {
        xhr.listensToProgress := true;
      }
    }

    /** `_sendRequest`: sets every configured header, the credentials flag and sends the form body. */
    method SendRequest(file: File)
      requires xhr != null
      modifies xhr
      ensures xhr == old(xhr)
      ensures |xhr.requestHeaders| >= |old(xhr.requestHeaders)|
      ensures xhr.requestHeaders[..|old(xhr.requestHeaders)|] == old(xhr.requestHeaders)
      ensures SetsEachHeaderOnce(xhr.requestHeaders[|old(xhr.requestHeaders)|..],
                                 if options.headers.Some? then options.headers.value else map[])
      ensures xhr.withCredentials == (options.withCredentials == Some(true))
      ensures xhr.sentBody == Some(UploadBody(file))
      ensures xhr.verb == old(xhr.verb) && xhr.url == old(xhr.url) && xhr.async == old(xhr.async)
      ensures xhr.responseType == old(xhr.responseType) && xhr.abortCalls == old(xhr.abortCalls)
      ensures xhr.listeningFor == old(xhr.listeningFor) && xhr.listensToProgress == old(xhr.listensToProgress)
    {
      var headers := if options.headers.Some? then options.headers.value else map[];
      var withCredentials := if options.withCredentials.Some? then options.withCredentials.value else false;
      var request: Xhr := xhr;
      ghost var before := request.requestHeaders;
      var pending := headers.Keys;
      ghost var calls: seq<(string, string)> := [];
      while pending != {}
        modifies request`requestHeaders
        invariant request.requestHeaders == before + calls
        invariant HeadersSetSoFar(calls, headers, pending)
        decreases pending
      {
        var name :| name in pending;
        SetOneMoreHeader(calls, headers, pending, name);
        request.SetRequestHeader(name, headers[name]);
        calls := calls + [(name, headers[name])];
        pending := pending - {name};
      }
      assert request.requestHeaders[|before|..] == calls;
      request.withCredentials := withCredentials;
      request.Send(UploadBody(file));
    }

    /**
     * `upload`, once the loader's file promise has settled with `file`. A null
     * file makes `_initListeners` throw on `file.name`: the request is then
     * opened but never sent, and the upload promise rejects with that error.
     */
    method Upload(file: Option<File>, hasUploadTarget: bool) returns (sent: bool)
      modifies this`xhr
      ensures sent == file.Some?
      ensures fresh(xhr) && xhr.verb == "POST" && xhr.url == options.uploadUrl && xhr.async
      ensures xhr.responseType == "json" && xhr.abortCalls == 0
      ensures !sent ==> xhr.sentBody.None? && xhr.listeningFor.None? && xhr.requestHeaders == []
      ensures !sent ==> !xhr.listensToProgress && !xhr.withCredentials
      ensures sent ==> xhr.listeningFor == Some(file.value.name) && xhr.listensToProgress == hasUploadTarget
      ensures sent ==> SetsEachHeaderOnce(xhr.requestHeaders, if options.headers.Some? then options.headers.value else map[])
      ensures sent ==> xhr.withCredentials == (options.withCredentials == Some(true))
      ensures sent ==> xhr.sentBody == Some(UploadBody(file.value))
    {
      InitRequest(hasUploadTarget);
      if file.None? {
        return false;
      }
      InitListeners(file.value);
      SendRequest(file.value);
      assert xhr.requestHeaders[0..] == xhr.requestHeaders;
      sent := true;
    }
  }
}
