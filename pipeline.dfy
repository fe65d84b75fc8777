/** The request configuration that `callAxios` and the interceptors of
    `create` change in place (platform/dist/axios.js), the stages as functions
    on a snapshot of it, and the two orchestrations.

    The HTTP client, the signing service and the parsing libraries are the
    oracle functions of `Library`: the model states what the pipeline does
    with whatever they return. */
module Pipeline {
  import opened JsValues
  import opened Http
  import opened Sanitize
  import opened QueryExtract
  import opened OAuth1
  import opened ResponseGuard

  /** `config.paramsSerializer`: the client's own, or the OAuth one installed by signing. */
  datatype Serializer = DefaultSerializer | OAuth1Serializer

  /** A snapshot of the request configuration. */
  datatype ConfigView = ConfigView(
    httpMethod: Value,
    url: Option<string>,
    baseURL: Option<string>,
    headers: Option<Props>,
    params: Option<Props>,
    data: Value,
    body: Value,
    debug: Value,
    returnFullResponse: Value,
    paramsSerializer: Serializer)

  /** What `axios.getUri` is given: base, url, and the parameters as the OAuth
      serializer writes them (none when `params` is absent). */
  datatype UriRequest = UriRequest(baseURL: Option<string>, url: Option<string>, serializedParams: Option<string>)

  datatype SignConfig = SignConfig(oauthSignerUri: string, token: Value)

  /** The body POSTed to the signing service. */
  datatype SignPayload = SignPayload(requestData: RequestData, token: Value)

  /** `(await axios.post(oauthSignerUri, payload)).data`, or the client's error. */
  datatype SignOutcome = Signed(signature: Value) | SignFailed(err: AxiosError)

  /** `await axios(config)`: a response, or the client's error. */
  datatype TransportOutcome = Responded(response: Response) | Rejected(err: AxiosError)

  /** The code the pipeline calls and does not contain. */
  datatype Library = Library(
    normalizeUrl: string -> Option<string>,       // new URL(s).toString(); None: it throws
    decodeComponent: string -> Option<string>,    // decodeURIComponent; None: URIError
    stringifyQuery: Props -> string,              // querystring.stringify
    parseQuery: string -> Props,                  // querystring.parse
    getUri: UriRequest -> string,                 // axios.getUri
    jsonStringify: Value -> StringifyOutcome,     // JSON.stringify
    transport: ConfigView -> TransportOutcome,    // axios(config)
    signer: (string, SignPayload) -> SignOutcome) // axios.post to the signing service

  /** The configuration after a stage, and what the stage threw, if anything. */
  datatype Stage = Stage(config: ConfigView, thrown: Option<Exception>)

  const BodyMessage: string := "unexpected body, use only data instead"

  function OrEmpty(o: Option<Props>): Props
  {
    if o.Some? then o.value else []
  }

  // ---- the stages, on snapshots ----

  /** The three `cleanObject` calls: headers, params and an object `data`. */
  function SanitizeView(v: ConfigView): (r: ConfigView)
    ensures r.(headers := v.headers, params := v.params, data := v.data) == v
    ensures r.headers == CleanOptional(v.headers) && r.params == CleanOptional(v.params)
    ensures r.data == CleanData(v.data)
  {
    v.(headers := CleanOptional(v.headers), params := CleanOptional(v.params), data := CleanData(v.data))
  }

  /** Cleaning a configuration changes no read of its headers, parameters or
      data; afterwards no header or parameter holds undefined, and cleaning
      again changes nothing. */
  lemma SanitizeKeepsReads(v: ConfigView, k: string)
    requires v.headers.Some? ==> DistinctKeys(v.headers.value)
    requires v.params.Some? ==> DistinctKeys(v.params.value)
    requires v.data.Obj? ==> DistinctKeys(v.data.props)
    ensures var c := SanitizeView(v);
            && c.headers.Some? == v.headers.Some? && c.params.Some? == v.params.Some?
            && (v.headers.Some? ==> Prop(c.headers.value, k) == Prop(v.headers.value, k))
            && (v.params.Some? ==> Prop(c.params.value, k) == Prop(v.params.value, k))
            && (v.headers.Some? ==> HasKey(c.headers.value, k) ==> Prop(c.headers.value, k) != Undefined)
            && (v.params.Some? ==> HasKey(c.params.value, k) ==> Prop(c.params.value, k) != Undefined)
            && GetProp(c.data, k) == GetProp(v.data, k)
            && SanitizeView(c) == c
  {
    CleanOptionalKeepsReads(v.headers, k);
    CleanOptionalKeepsReads(v.params, k);
    CleanDataKeepsReads(v.data, k);
    if v.headers.Some? {
      CleanedIdempotent(v.headers.value);
    }
    if v.params.Some? {
      CleanedIdempotent(v.params.value);
    }
  }

  /** `baseURL ?? ""` followed by `url`: what `new URL` is given. */
  function FullUrl(v: ConfigView): string
    requires v.url.Some?
  {
    (if v.baseURL.Some? then v.baseURL.value else "") + v.url.value
  }

  /** `removeSearchFromUrl`: an error leaves the configuration as it was. */
  function ExtractView(v: ConfigView, lib: Library): (r: Result<ConfigView, Exception>)
    ensures r.Err? ==> r.error == TypeError("Invalid URL") || r.error == SyntaxError || r.error == URIError
    ensures r.Ok? ==> r.value.(url := v.url, params := v.params) == v
  {
    if v.url.None? || v.url.value == "" then Ok(v)
    else
      match lib.normalizeUrl(FullUrl(v))
      case None => Err(TypeError("Invalid URL"))
      case Some(href) =>
        var qs := QueryString(href);
        if qs == "" then Ok(v)
        else
          match ParseQueryString(qs, lib.decodeComponent)
          case Err(e) => Err(e)
          case Ok(query) =>
            Ok(v.(params := Some(MergeQuery(OrEmpty(v.params), query)), url := Some(StripSearch(href))))
  }

  /** The parameters as `axios.getUri` serialises them with the OAuth serializer. */
  function SerializedParams(params: Option<Props>, lib: Library): (r: Option<string>)
    ensures params.Some? <==> r.Some?
    ensures r.Some? ==> forall i :: 0 <= i < |r.value| ==> !IsReserved(r.value[i])
  {
    if params.Some? then Some(Oauth1ParamsSerializer(params.value, lib.stringifyQuery)) else None
  }

  /** What `transformConfigForOauth` returns: the method (`get` by default),
      the full URL with the parameters OAuth-serialised, and the body that
      takes part in the signature, decided by the first content-type header. */
  function CanonicalRequest(v: ConfigView, lib: Library): (r: RequestData)
    ensures Truthy(v.httpMethod) ==> r.httpMethod == v.httpMethod
    ensures !Truthy(v.httpMethod) ==> r.httpMethod == Str("get")
    ensures r.url == lib.getUri(UriRequest(v.baseURL, v.url, SerializedParams(v.params, lib)))
    ensures var h := OrEmpty(v.headers);
            var ct := FirstContentType(h);
            r.data == SignedBody(v.data, ct.Some?, ct.Some? && h[ct.value].1 == Str(FormEncoded), lib.parseQuery)
  {
    var h := OrEmpty(v.headers);
    var ct := FirstContentType(h);
    var formEncoded := ct.Some? && h[ct.value].1 == Str(FormEncoded);
    RequestData(MethodOrGet(v.httpMethod),
                lib.getUri(UriRequest(v.baseURL, v.url, SerializedParams(v.params, lib))),
                SignedBody(v.data, ct.Some?, formEncoded, lib.parseQuery))
  }

  /** Which body is signed, as the request's headers decide it: nothing under
      a first content-type header other than the form-encoded one, whatever
      the data; never a number, boolean, null or undefined; under the
      form-encoded type an object as it is and a string parsed as a query;
      with no content-type header only a string. */
  lemma CanonicalBody(v: ConfigView, lib: Library)
    ensures var h := OrEmpty(v.headers);
            var ct := FirstContentType(h);
            var d := CanonicalRequest(v, lib).data;
            && (ct.Some? && h[ct.value].1 != Str(FormEncoded) ==> d.None?)
            && (!v.data.Str? && !v.data.Obj? && !v.data.Arr? ==> d.None?)
            && (ct.Some? && h[ct.value].1 == Str(FormEncoded) && (v.data.Obj? || v.data.Arr?) ==> d == Some(v.data))
            && (ct.Some? && h[ct.value].1 == Str(FormEncoded) && v.data.Str? ==> d == Some(Obj(lib.parseQuery(v.data.s))))
            && (ct.None? ==> (d.Some? <==> v.data.Str?))
  {
  }

  /** `getOauthSignature` followed by installing the `Authorization` header.
      The OAuth serializer is installed even when the signing service fails;
      on success only `Authorization` changes among the headers. */
  function SignView(v: ConfigView, sc: SignConfig, lib: Library): (r: Stage)
    ensures var outcome := lib.signer(sc.oauthSignerUri, SignPayload(CanonicalRequest(v, lib), sc.token));
            && r.config.paramsSerializer == OAuth1Serializer
            && (outcome.SignFailed? ==>
                  r == Stage(v.(paramsSerializer := OAuth1Serializer), Some(Rejection(outcome.err))))
            && (outcome.Signed? ==>
                  && r.thrown.None?
                  && r.config.(headers := v.headers, paramsSerializer := v.paramsSerializer) == v
                  && r.config.headers.Some?
                  && Lookup(r.config.headers.value, "Authorization") == Some(outcome.signature)
                  && forall k :: k != "Authorization" ==>
                       Lookup(r.config.headers.value, k) == Lookup(OrEmpty(v.headers), k))
  {
    var outcome := lib.signer(sc.oauthSignerUri, SignPayload(CanonicalRequest(v, lib), sc.token));
    var w := v.(paramsSerializer := OAuth1Serializer);
    match outcome
    case SignFailed(err) => Stage(w, Some(Rejection(err)))
    case Signed(signature) =>
      Stage(w.(headers := Some(Put(OrEmpty(v.headers), "Authorization", signature))), None)
  }

  /** `callAxios` up to the dispatch: clean, reject `body`, extract the query, sign. */
  function PrepareForCall(v: ConfigView, sc: Option<SignConfig>, lib: Library): Stage
  {
    var c := SanitizeView(v);
    if IsPresent(c.body) then Stage(c, Some(ConfigurationError(BodyMessage)))
    else
      match ExtractView(c, lib)
      case Err(e) => Stage(c, Some(e))
      case Ok(x) => if sc.None? then Stage(x, None) else SignView(x, sc.value, lib)
  }

  /** The request interceptor of `create`: sign first, then clean and extract;
      `body` is never looked at. */
  function PrepareForInstance(v: ConfigView, sc: Option<SignConfig>, lib: Library): Stage
  {
    var s := if sc.None? then Stage(v, None) else SignView(v, sc.value, lib);
    if s.thrown.Some? then s
    else
      var c := SanitizeView(s.config);
      match ExtractView(c, lib)
      case Err(e) => Stage(c, Some(e))
      case Ok(x) => Stage(x, None)
  }

  /** The client error that reaches the `catch` of `callAxios`: only one from
      the transport; a failure of the signing service is thrown before the `try`. */
  function CallCaught(v: ConfigView, sc: Option<SignConfig>, lib: Library): Option<AxiosError>
  {
    var p := PrepareForCall(v, sc, lib);
    if p.thrown.None? && lib.transport(p.config).Rejected? then Some(lib.transport(p.config).err) else None
  }

  /** The client error that reaches the error interceptor of an instance: a
      rejection of the request interceptor (the signing service's error) or
      of the transport. */
  function InstanceCaught(v: ConfigView, sc: Option<SignConfig>, lib: Library): Option<AxiosError>
  {
    var p := PrepareForInstance(v, sc, lib);
    if p.thrown.Some? then (if p.thrown.value.Rejection? then Some(p.thrown.value.err) else None)
    else if lib.transport(p.config).Rejected? then Some(lib.transport(p.config).err)
    else None
  }

  function ErrorsOf(e: Option<AxiosError>): set<AxiosError>
  {
    if e.Some? then {e.value} else {}
  }

  /** `if (config.debug) stepExport(step, payload, key)`. */
  function DebugExport(step: Step, debug: Value, payload: Payload<ConfigView>, key: string): (r: seq<Effect<ConfigView>>)
    ensures Truthy(debug) ==> r == StepExport(step, payload, key)
    ensures !Truthy(debug) ==> r == []
  {
    if Truthy(debug) then StepExport(step, payload, key) else []
  }

  // ---- what the stages promise ----

  /** A `body` is rejected before anything else can happen, whatever the URL,
      the signing service or the transport would do; no other error is a
      ConfigurationError. */
  lemma BodyRejectedFirst(v: ConfigView, sc: Option<SignConfig>, lib: Library)
    ensures IsPresent(v.body) ==>
              PrepareForCall(v, sc, lib) == Stage(SanitizeView(v), Some(ConfigurationError(BodyMessage)))
    ensures PrepareForCall(v, sc, lib).thrown == Some(ConfigurationError(BodyMessage)) ==> IsPresent(v.body)
  {
  }

  /** With no `url`, or a URL whose resolved form has no query, extraction
      changes nothing. */
  lemma ExtractWithoutQuery(v: ConfigView, lib: Library)
    requires v.url.None? || v.url.value == ""
             || (lib.normalizeUrl(FullUrl(v)).Some? && QueryString(lib.normalizeUrl(FullUrl(v)).value) == "")
    ensures ExtractView(v, lib) == Ok(v)
  {
  }

  /** When extraction changes the configuration, the URL is the resolved
      `baseURL + url` without its query, `params` exists, explicit parameters
      keep their values and every other key the query names is added with the
      value of its last segment, unescaped and percent-decoded (not decoded
      under the key `""`). */
  lemma {:induction false} ExtractMovesQuery(v: ConfigView, lib: Library, k: string)
    requires ExtractView(v, lib).Ok? && ExtractView(v, lib).value != v
    ensures v.url.Some? && lib.normalizeUrl(FullUrl(v)).Some?
    ensures var w := ExtractView(v, lib).value;
            var href := lib.normalizeUrl(FullUrl(v)).value;
            var query := ParseQueryString(QueryString(href), lib.decodeComponent).value;
            && w.url == Some(StripSearch(href))
            && QueryString(w.url.value) == ""
            && w.params.Some?
            && (InParams(OrEmpty(v.params), k) ==> Lookup(w.params.value, k) == Lookup(OrEmpty(v.params), k))
            && (!InParams(OrEmpty(v.params), k) && HasKey(query, k) ==> Lookup(w.params.value, k) == Lookup(query, k))
  ensures ParseSegments(Split(QueryString(lib.normalizeUrl(FullUrl(v)).value), '&')).Some?
  ensures var w := ExtractView(v, lib).value;
          var ms := ParseSegments(Split(QueryString(lib.normalizeUrl(FullUrl(v)).value), '&')).value;
          !InParams(OrEmpty(v.params), k) ==>
            && (LastWith(ms, k).None? ==> Lookup(w.params.value, k) == Lookup(OrEmpty(v.params), k))
            && (LastWith(ms, k).Some? && k == "" ==> Lookup(w.params.value, k) == Some(Str(ms[LastWith(ms, k).value].1)))
            && (LastWith(ms, k).Some? && k != "" ==>
                  var raw := ms[LastWith(ms, k).value].1;
                  lib.decodeComponent(raw).Some?
                  && Lookup(w.params.value, k) == Some(Str(lib.decodeComponent(raw).value)))
  {
    var href := lib.normalizeUrl(FullUrl(v)).value;
    var query := ParseQueryString(QueryString(href), lib.decodeComponent).value;
    MergeQueryLookup(OrEmpty(v.params), query, k);
    QueryMembers(QueryString(href), lib.decodeComponent, k);
  }

  /** A successful `callAxios` preparation with signing dispatches the signing
      service's answer as `Authorization`, with the OAuth serializer, and that
      answer was asked for the cleaned, query-free configuration. */
  lemma {:induction false} CallSignsCleanedConfig(v: ConfigView, sc: SignConfig, lib: Library)
    requires PrepareForCall(v, Some(sc), lib).thrown.None?
    ensures !IsPresent(v.body) && ExtractView(SanitizeView(v), lib).Ok?
    ensures var x := ExtractView(SanitizeView(v), lib).value;
            var w := PrepareForCall(v, Some(sc), lib).config;
            var outcome := lib.signer(sc.oauthSignerUri, SignPayload(CanonicalRequest(x, lib), sc.token));
            && outcome.Signed?
            && w.headers.Some?
            && Lookup(w.headers.value, "Authorization") == Some(outcome.signature)
            && w.paramsSerializer == OAuth1Serializer
            && w.url == x.url && w.params == x.params
  {
    var x := ExtractView(SanitizeView(v), lib).value;
    assert PrepareForCall(v, Some(sc), lib) == SignView(x, sc, lib);
  }

  /** An instance never throws ConfigurationError. */
  lemma InstanceNeverConfigurationError(v: ConfigView, sc: Option<SignConfig>, lib: Library)
    ensures PrepareForInstance(v, sc, lib).thrown.Some? ==>
              !PrepareForInstance(v, sc, lib).thrown.value.ConfigurationError?
  {
  }

  /** Query extraction fails, and how, independently of `body`. */
  lemma ExtractIgnoresBody(c: ConfigView, b: Value, lib: Library)
    ensures ExtractView(c.(body := b), lib).Err? == ExtractView(c, lib).Err?
    ensures ExtractView(c, lib).Err? ==> ExtractView(c.(body := b), lib).error == ExtractView(c, lib).error
  {
    if c.url.Some? && c.url.value != "" {
      assert FullUrl(c.(body := b)) == FullUrl(c);
    }
  }

  /** What an instance throws does not depend on `body`. */
  lemma InstanceIgnoresBody(v: ConfigView, b: Value, sc: Option<SignConfig>, lib: Library)
    ensures PrepareForInstance(v.(body := b), sc, lib).thrown == PrepareForInstance(v, sc, lib).thrown
  {
    var w := v.(body := b);
    if sc.Some? {
      assert CanonicalRequest(w, lib) == CanonicalRequest(v, lib);
      var s1, s2 := SignView(v, sc.value, lib), SignView(w, sc.value, lib);
      assert s2.thrown == s1.thrown;
      if s1.thrown.None? {
        assert s2.config == s1.config.(body := b);
        assert SanitizeView(s2.config) == SanitizeView(s1.config).(body := b);
        ExtractIgnoresBody(SanitizeView(s1.config), b, lib);
      }
    } else {
      assert SanitizeView(w) == SanitizeView(v).(body := b);
      ExtractIgnoresBody(SanitizeView(v), b, lib);
    }
  }

  /** The order of the two orchestrations matters for the signature: with an
      undefined `Content-Type` header and a string body, `callAxios` (clean,
      then sign) signs the parsed body, while an instance (sign, then clean)
      signs no body at all. */
  lemma SigningOrderMatters(lib: Library)
    ensures var v := ConfigView(Str("post"), None, None, Some([("Content-Type", Undefined)]), None,
                                Str("a=1"), Undefined, Undefined, Undefined, DefaultSerializer);
            && CanonicalRequest(v, lib).data.None?
            && CanonicalRequest(SanitizeView(v), lib).data == Some(Obj(lib.parseQuery("a=1")))
            && ExtractView(SanitizeView(v), lib) == Ok(SanitizeView(v))
  {
    var v := ConfigView(Str("post"), None, None, Some([("Content-Type", Undefined)]), None,
                        Str("a=1"), Undefined, Undefined, Undefined, DefaultSerializer);
    UncleanedContentTypeHidesBody(lib.parseQuery);
    assert Cleaned([("Content-Type", Undefined)]) == [];
  }

  /** A failure of the signing service that carries a response is converted by
      an instance but thrown untouched by `callAxios`. */
  lemma SignerFailureConvertedOnlyByInstance(v: ConfigView, sc: SignConfig, lib: Library, err: AxiosError)
    requires PrepareForCall(v, Some(sc), lib).thrown == Some(Rejection(err))
    ensures CallCaught(v, Some(sc), lib).None?
  {
  }

  lemma InstanceConvertsSignerFailure(v: ConfigView, sc: SignConfig, lib: Library)
    requires lib.signer(sc.oauthSignerUri, SignPayload(CanonicalRequest(v, lib), sc.token)).SignFailed?
    ensures InstanceCaught(v, Some(sc), lib) ==
              Some(lib.signer(sc.oauthSignerUri, SignPayload(CanonicalRequest(v, lib), sc.token)).err)
  {
  }

  // ---- the configuration object ----

  /** The request configuration that the pipeline changes in place. */
  class RequestConfig {
    var httpMethod: Value
    var url: Option<string>
    var baseURL: Option<string>
    var headers: Option<Props>
    var params: Option<Props>
    var data: Value
    var body: Value
    var debug: Value
    var returnFullResponse: Value
    var paramsSerializer: Serializer

    function View(): ConfigView
      reads this
    {
      ConfigView(httpMethod, url, baseURL, headers, params, data, body, debug, returnFullResponse, paramsSerializer)
    }

    constructor (v: ConfigView)
      ensures View() == v
    {
      httpMethod, url, baseURL, headers, params := v.httpMethod, v.url, v.baseURL, v.headers, v.params;
      data, body, debug, returnFullResponse := v.data, v.body, v.debug, v.returnFullResponse;
      paramsSerializer := v.paramsSerializer;
    }

    /** `cleanObject(config.headers)`, `cleanObject(config.params)` and, when
        `typeof config.data === "object"`, `cleanObject(config.data)` (a null
        `data` has nothing to delete, and an array is kept; see CleanData). */
    method Sanitize()
      modifies this
      ensures View() == SanitizeView(old(View()))
    {
      if headers.Some? {
        var h := CleanObject(headers.value);
        headers := Some(h);
      }
      if params.Some? {
        var p := CleanObject(params.value);
        params := Some(p);
      }
      if data.Obj? {
        var d := CleanObject(data.props);
        data := Obj(d);
      }
    }

    /** `removeSearchFromUrl(config)`, with what it throws as the result. */
    method RemoveSearchFromUrl(lib: Library) returns (thrown: Option<Exception>)
      modifies this
      ensures var r := ExtractView(old(View()), lib);
              && (r.Err? <==> thrown.Some?)
              && (r.Err? ==> thrown.value == r.error && View() == old(View()))
              && (r.Ok? ==> View() == r.value)
    {
      ghost var v0 := View();
      thrown := None;
      if url.None? || url.value == "" {
        return;
      }
      var normalized := lib.normalizeUrl(FullUrl(View()));
      if normalized.None? {
        thrown := Some(TypeError("Invalid URL"));
        return;
      }
      var href := normalized.value;
      var qs := QueryString(href);
      if qs == "" {
        return;
      }
      var parsed := ParseQueryString(qs, lib.decodeComponent);
      if parsed.Err? {
        thrown := Some(parsed.error);
        return;
      }
      var query := parsed.value;
      MergeUrlParams(query);
      assert ExtractView(v0, lib) == Ok(v0.(params := params, url := Some(StripSearch(href))));
      url := Some(StripSearch(href));
    }

    /** The `for (const k in urlParams)` loop: a query member is added unless
        its key is already `in` the parameters. */
    method MergeUrlParams(query: Props)
      requires |query| > 0
      modifies this
      ensures View() == old(View()).(params := Some(MergeQuery(OrEmpty(old(params)), query)))
    {
      // `config.params = {}` when unset: the query has a member, so the
      // first round always does this.
      var merged := OrEmpty(params);
      var i := 0;
      while i < |query|
        modifies {}
        invariant 0 <= i <= |query|
        invariant merged == MergeQuery(OrEmpty(params), query[..i])
      {
        MergeQueryNext(OrEmpty(params), query, i);
        var k := query[i].0;
        if !InParams(merged, k) {
          merged := Put(merged, k, query[i].1);
        }
        i := i + 1;
      }
      assert query[..|query|] == query;
      params := Some(merged);
    }

    /** `transformConfigForOauth(config)`. */
    method TransformConfigForOauth(lib: Library) returns (requestData: RequestData)
      modifies this
      ensures requestData == CanonicalRequest(old(View()), lib)
      ensures View() == old(View()).(paramsSerializer := OAuth1Serializer)
    {
      var newUrl := lib.getUri(UriRequest(baseURL, url, SerializedParams(params, lib)));
      var hasContentType, formEncoded := ScanContentType(headers);
      requestData := RequestData(MethodOrGet(httpMethod), newUrl,
                                 SignedBody(data, hasContentType, formEncoded, lib.parseQuery));
      paramsSerializer := OAuth1Serializer;
    }

    /** `getOauthSignature(config, signConfig)` and the `Authorization` header. */
    method Sign(sc: SignConfig, lib: Library) returns (thrown: Option<Exception>)
      modifies this
      ensures Stage(View(), thrown) == SignView(old(View()), sc, lib)
    {
      var requestData := TransformConfigForOauth(lib);
      var outcome := lib.signer(sc.oauthSignerUri, SignPayload(requestData, sc.token));
      if outcome.SignFailed? {
        return Some(Rejection(outcome.err));
      }
      if headers.None? {
        headers := Some([]);
      }
      headers := Some(Put(headers.value, "Authorization", outcome.signature));
      thrown := None;
    }
  }

  // ---- the orchestrations ----

  /** The preparation half of `callAxios`, up to the `try`. */
  method PrepareCall(config: RequestConfig, signConfig: Option<SignConfig>, lib: Library)
    returns (thrown: Option<Exception>)
    modifies config
    ensures Stage(config.View(), thrown) == PrepareForCall(old(config.View()), signConfig, lib)
  {
    config.Sanitize();
    if IsPresent(config.body) {
      return Some(ConfigurationError(BodyMessage));
    }
    thrown := config.RemoveSearchFromUrl(lib);
    if thrown.None? && signConfig.Some? {
      thrown := config.Sign(signConfig.value, lib);
    }
  }

  /** The request interceptor of `create`. */
  method InterceptRequest(config: RequestConfig, signConfig: Option<SignConfig>, lib: Library)
    returns (thrown: Option<Exception>)
    modifies config
    ensures Stage(config.View(), thrown) == PrepareForInstance(old(config.View()), signConfig, lib)
  {
    thrown := None;
    if signConfig.Some? {
      thrown := config.Sign(signConfig.value, lib);
    }
    if thrown.None? {
      config.Sanitize();
      thrown := config.RemoveSearchFromUrl(lib);
    }
  }

  /** The `catch` of `callAxios` and the error interceptor of `create`: a
      client error with a response is converted and exported as `debug`,
      whatever `debug` says; the error is rethrown either way. */
  method CatchError(step: Step, err: AxiosError, stringify: Value -> StringifyOutcome)
    returns (effects: seq<Effect<ConfigView>>)
    modifies err
    ensures old(err.response).Some? ==>
              && Converted(err, old(err.name), old(err.message), old(err.response.value), stringify)
              && effects == StepExport(step, ResponsePayload(err.response.value), "debug")
    ensures old(err.response).None? ==> unchanged(err) && effects == []
  {
    effects := [];
    if err.response.Some? {
      err.Convert(stringify);
      effects := StepExport(step, ResponsePayload(err.response.value), "debug");
    }
  }

  /** `callAxios(step, config, signConfig)`: prepare the configuration, export
      it when `debug`, dispatch, export the body when `debug` and shape the
      result; a client error goes through CatchError and is rethrown. */
  method CallAxios(step: Step, config: RequestConfig, signConfig: Option<SignConfig>, lib: Library)
    returns (result: Result<Output, Exception>, effects: seq<Effect<ConfigView>>)
    modifies config, ErrorsOf(CallCaught(config.View(), signConfig, lib))
    ensures var p := PrepareForCall(old(config.View()), signConfig, lib);
            && config.View() == p.config
            && (p.thrown.Some? ==> result == Err(p.thrown.value) && effects == [])
    ensures var p := PrepareForCall(old(config.View()), signConfig, lib);
            var x := p.config;
            p.thrown.None? && lib.transport(x).Responded? ==>
              var resp := lib.transport(x).response;
              && result == ReturnDataObject(resp, x.returnFullResponse)
              && effects == DebugExport(step, x.debug, ConfigPayload(x), "debug_config")
                            + DebugExport(step, x.debug, BodyPayload(resp.data), "debug_response")
    ensures var p := PrepareForCall(old(config.View()), signConfig, lib);
            var x := p.config;
            p.thrown.None? && lib.transport(x).Rejected? ==>
              var err := lib.transport(x).err;
              && result == Err(Rejection(err))
              && (old(err.response).Some? ==>
                    && Converted(err, old(err.name), old(err.message), old(err.response.value), lib.jsonStringify)
                    && effects == DebugExport(step, x.debug, ConfigPayload(x), "debug_config")
                                  + StepExport(step, ResponsePayload(err.response.value), "debug"))
              && (old(err.response).None? ==>
                    unchanged(err) && effects == DebugExport(step, x.debug, ConfigPayload(x), "debug_config"))
  {
    ghost var p := PrepareForCall(config.View(), signConfig, lib);
    var thrown := PrepareCall(config, signConfig, lib);
    if thrown.Some? {
      return Err(thrown.value), [];
    }
    var x := config.View();
    assert x == p.config;
    effects := DebugExport(step, x.debug, ConfigPayload(x), "debug_config");
    match lib.transport(x) {
      case Responded(resp) =>
        effects := effects + DebugExport(step, x.debug, BodyPayload(resp.data), "debug_response");
        result := ReturnDataObject(resp, x.returnFullResponse);
      case Rejected(err) =>
        assert CallCaught(old(config.View()), signConfig, lib) == Some(err);
        assert old(allocated(err));
        var caught := CatchError(step, err, lib.jsonStringify);
        effects := effects + caught;
        result := Err(Rejection(err));
    }
  }

  /** What `create` keeps for its interceptors: the step (`this`) and the
      signing configuration. */
  datatype Instance = Instance(step: Step, signConfig: Option<SignConfig>)

  /** `create(config, signConfig)`: the creation configuration is exported, as
      given, when its `debug` is truthy. */
  function Create(step: Step, config: Option<ConfigView>, signConfig: Option<SignConfig>)
    : (r: (Instance, seq<Effect<ConfigView>>))
    ensures r.0 == Instance(step, signConfig)
    ensures config.Some? && Truthy(config.value.debug) ==>
              |r.1| > 0 && forall e :: e in r.1 ==> e.key == "debug_config" && e.payload == ConfigPayload(config.value)
    ensures config.None? || !Truthy(config.value.debug) ==> r.1 == []
  {
    (Instance(step, signConfig),
     if config.Some? then DebugExport(step, config.value.debug, ConfigPayload(config.value), "debug_config") else [])
  }

  /** A request through an instance: the request interceptor, the transport,
      then the response interceptor. A rejection of the request interceptor
      reaches the error interceptor like a transport error, so a failure of
      the signing service that has a response is converted too. */
  method InstanceRequest(instance: Instance, config: RequestConfig, lib: Library)
    returns (result: Result<Output, Exception>, effects: seq<Effect<ConfigView>>)
    modifies config, ErrorsOf(InstanceCaught(config.View(), instance.signConfig, lib))
    ensures var p := PrepareForInstance(old(config.View()), instance.signConfig, lib);
            && config.View() == p.config
            && (p.thrown.Some? && !p.thrown.value.Rejection? ==> result == Err(p.thrown.value) && effects == [])
    ensures var p := PrepareForInstance(old(config.View()), instance.signConfig, lib);
            var x := p.config;
            p.thrown.None? && lib.transport(x).Responded? ==>
              var resp := lib.transport(x).response;
              && result == ReturnDataObject(resp, x.returnFullResponse)
              && effects == DebugExport(instance.step, x.debug, BodyPayload(resp.data), "debug_response")
    ensures InstanceCaught(old(config.View()), instance.signConfig, lib).Some? ==>
              var err := InstanceCaught(old(config.View()), instance.signConfig, lib).value;
              && result == Err(Rejection(err))
              && (old(err.response).Some? ==>
                    && Converted(err, old(err.name), old(err.message), old(err.response.value), lib.jsonStringify)
                    && effects == StepExport(instance.step, ResponsePayload(err.response.value), "debug"))
              && (old(err.response).None? ==> unchanged(err) && effects == [])
  {
    ghost var p := PrepareForInstance(config.View(), instance.signConfig, lib);
    var thrown := InterceptRequest(config, instance.signConfig, lib);
    assert config.View() == p.config && thrown == p.thrown;
    var err: AxiosError;
    if thrown.Some? {
      if !thrown.value.Rejection? {
        return Err(thrown.value), [];
      }
      err := thrown.value.err;
    } else {
      var x := config.View();
      match lib.transport(x) {
        case Responded(resp) =>
          effects := DebugExport(instance.step, x.debug, BodyPayload(resp.data), "debug_response");
          return ReturnDataObject(resp, x.returnFullResponse), effects;
        case Rejected(e) =>
          err := e;
      }
    }
    assert InstanceCaught(old(config.View()), instance.signConfig, lib) == Some(err);
    assert old(allocated(err));
    effects := CatchError(instance.step, err, lib.jsonStringify);
    result := Err(Rejection(err));
  }
}
