/** The request-building rules of jsmodules/http/http.go: the HTTP method check, the
    Content-Type a request body implies, and how the options object turns into the
    method, URL and header map of a request. */
module Http {
  import opened Values

  datatype Result<+T, +E> = Ok(value: T) | Err(error: E)

  // ---------------------------------------------------------------------------
  // The method token
  // ---------------------------------------------------------------------------

  /** `tchar` of section 3.2.6 of RFC 7230: the ASCII characters `httpguts.IsTokenRune`
      accepts. */
  predicate IsTokenChar(c: char) {
    ('0' <= c <= '9') || ('a' <= c <= 'z') || ('A' <= c <= 'Z') || c in "!#$%&'*+-.^_`|~"
  }

  /** `strings.IndexFunc(m, notToken)`: the index of the first character that is not a
      token character, or -1 when there is none. */
  function IndexNonToken(m: string): (i: int)
    ensures -1 <= i < |m|
    ensures i == -1 <==> forall j :: 0 <= j < |m| ==> IsTokenChar(m[j])
    ensures 0 <= i ==> !IsTokenChar(m[i]) && forall j :: 0 <= j < i ==> IsTokenChar(m[j])
  {
    if |m| == 0 then -1
    else if !IsTokenChar(m[0]) then 0
    else
      var k := IndexNonToken(m[1..]);
      if k == -1 then -1 else k + 1
  }

  /** `validMethod`: a method is a non-empty token (section 5.1.1 of RFC 2616). */
  predicate ValidMethod(m: string) {
    |m| > 0 && IndexNonToken(m) == -1
  }

  /** A method is valid exactly when it is non-empty and made of token characters only. */
  lemma ValidMethodIsToken(m: string)
    ensures ValidMethod(m) <==> m != [] && forall i :: 0 <= i < |m| ==> IsTokenChar(m[i])
    ensures !ValidMethod([])
  {
  }

  /** Any non-empty run of upper-case letters is a valid method; this covers the eight
      methods of section 5.1.1 of RFC 2616 and extension methods such as PATCH. */
  lemma UpperLettersValid(m: string)
    requires m != [] && forall i :: 0 <= i < |m| ==> 'A' <= m[i] <= 'Z'
    ensures ValidMethod(m)
  {
    ValidMethodIsToken(m);
  }

  /** A space, a tab or a line break anywhere in a method makes it invalid, so a method
      cannot carry a second request line or a header with it. */
  lemma SeparatorsInvalid(m: string, i: int)
    requires 0 <= i < |m| && m[i] in " \t\r\n"
    ensures !ValidMethod(m)
  {
    ValidMethodIsToken(m);
  }

  /** `unicode.ToUpper` on one character, as far as the method check can tell: ASCII
      letters, and the two non-ASCII letters whose upper-case form is ASCII (dotless i,
      U+0131, becomes I; long s, U+017F, becomes S). Any other character is kept. */
  function UpperChar(c: char): char {
    if 'a' <= c <= 'z' then (c as int - 32) as char
    else if c == '\U{0131}' then 'I'
    else if c == '\U{017F}' then 'S'
    else c
  }

  /** `strings.ToUpper`, character by character. */
  function ToUpper(s: string): (u: string)
    ensures |u| == |s|
    ensures forall i :: 0 <= i < |s| ==> u[i] == UpperChar(s[i])
  {
    seq(|s|, i requires 0 <= i < |s| => UpperChar(s[i]))
  }

  /** The characters `validMethod` accepts once upper-cased: the token characters, and
      the two letters that upper-case into ASCII. */
  predicate UpperCasesToToken(c: char) {
    IsTokenChar(c) || c == '\U{0131}' || c == '\U{017F}'
  }

  /** One character: upper-casing is idempotent, and its result is a token character
      exactly for the characters above. */
  lemma UpperCharToken(c: char)
    ensures UpperChar(UpperChar(c)) == UpperChar(c)
    ensures IsTokenChar(UpperChar(c)) <==> UpperCasesToToken(c)
  {
  }

  /** Upper-casing is idempotent; the check after it accepts exactly the non-empty
      methods made of token characters and the two letters above, so every valid method
      in any letter case is accepted, and so is, for instance, "po\U{017F}t". */
  lemma UpperCaseValidity(m: string)
    ensures ToUpper(ToUpper(m)) == ToUpper(m)
    ensures ValidMethod(ToUpper(m)) <==> m != [] && forall i :: 0 <= i < |m| ==> UpperCasesToToken(m[i])
    ensures ValidMethod(m) ==> ValidMethod(ToUpper(m))
  {
    var u := ToUpper(m);
    forall i | 0 <= i < |m|
      ensures ToUpper(u)[i] == u[i]
      ensures IsTokenChar(u[i]) <==> UpperCasesToToken(m[i])
    {
      UpperCharToken(m[i]);
    }
    ValidMethodIsToken(m);
    ValidMethodIsToken(u);
  }

  /** The method option "po\U{017F}t" is not itself a valid method, yet it is accepted
      and sent as POST. */
  lemma LongSBecomesPost()
    ensures !ValidMethod("po\U{017F}t")
    ensures ToUpper("po\U{017F}t") == "POST" && ValidMethod(ToUpper("po\U{017F}t"))
  {
    ValidMethodIsToken("po\U{017F}t");
    assert !IsTokenChar("po\U{017F}t"[2]);
    assert ToUpper("po\U{017F}t") == "POST";
    UpperLettersValid("POST");
  }

  // ---------------------------------------------------------------------------
  // The request body and its Content-Type
  // ---------------------------------------------------------------------------

  /** The dynamic type of the `body` option. Outcomes of the encoders (multipart writer,
      `json.Marshal`) and the random multipart boundary are parameters. */
  datatype Body =
    | FormData(boundary: string, writeFails: bool, closeFails: bool)
    | SearchParams
    | Text(text: string)
    | ArrayBuffer
    | Bytes
    | JsonObject(marshalFails: bool)
    | NilBody
    | OtherBody(typeName: string)

  datatype BodyError = WriteFailed | CloseFailed | MarshalFailed | Unsupported(typeName: string)

  /** The Content-Type `handleBody` writes into the header map, if any. */
  function ContentTypeFor(body: Body): Option<string>
  {
    match body
    case FormData(boundary, writeFails, _) =>
      if writeFails then None else Some("multipart/form-data; boundary=" + boundary)
    case SearchParams => Some("application/x-www-form-url")
    case JsonObject(_) => Some("application/json")
    case _ => None
  }

  /** The error `handleBody` returns, if any. */
  function BodyErrorFor(body: Body): Option<BodyError>
  {
    match body
    case FormData(_, writeFails, closeFails) =>
      if writeFails then Some(WriteFailed) else if closeFails then Some(CloseFailed) else None
    case JsonObject(marshalFails) => if marshalFails then Some(MarshalFailed) else None
    case OtherBody(t) => Some(Unsupported(t))
    case _ => None
  }

  /** The header map after `handleBody`. */
  function WithBodyHeader(headers: map<string, string>, body: Body): map<string, string>
  {
    match ContentTypeFor(body)
    case Some(ct) => headers["Content-Type" := ct]
    case None => headers
  }

  /** What each kind of body does to the caller's header map and whether it fails. */
  lemma BodyHeaderRules(headers: map<string, string>, body: Body)
    ensures body == SearchParams ==>
      WithBodyHeader(headers, body) == headers["Content-Type" := "application/x-www-form-url"] &&
      BodyErrorFor(body) == None
    ensures body.JsonObject? ==>
      WithBodyHeader(headers, body) == headers["Content-Type" := "application/json"]
    ensures body.Text? || body == Bytes || body == ArrayBuffer || body == NilBody ==>
      WithBodyHeader(headers, body) == headers && BodyErrorFor(body) == None
    ensures body.OtherBody? ==>
      WithBodyHeader(headers, body) == headers && BodyErrorFor(body) == Some(Unsupported(body.typeName))
    ensures body.FormData? && !body.writeFails ==>
      WithBodyHeader(headers, body)["Content-Type"] == "multipart/form-data; boundary=" + body.boundary
  {
  }

  /** The header map `doRequest` owns and hands to `handleBody`. */
  class Headers {
    var entries: map<string, string>

    constructor (m: map<string, string>)
      ensures entries == m
    {
      entries := m;
    }

    method Set(key: string, value: string)
      modifies this
      ensures entries == old(entries)[key := value]
    {
      entries := entries[key := value];
    }
  }

  /** `handleBody`: writes the Content-Type into the caller's map in place. */
  method HandleBody(body: Body, headers: Headers) returns (err: Option<BodyError>)
    modifies headers
    ensures headers.entries == WithBodyHeader(old(headers.entries), body)
    ensures err == BodyErrorFor(body)
  {
    match body {
      case FormData(boundary, writeFails, closeFails) =>
        if writeFails {
          return Some(WriteFailed);
        }
        headers.Set("Content-Type", "multipart/form-data; boundary=" + boundary);
        if closeFails {
          return Some(CloseFailed);
        }
        return None;
      case SearchParams =>
        headers.Set("Content-Type", "application/x-www-form-url");
        return None;
      case Text(_) => return None;
      case ArrayBuffer => return None;
      case Bytes => return None;
      case JsonObject(marshalFails) =>
        headers.Set("Content-Type", "application/json");
        if marshalFails {
          return Some(MarshalFailed);
        }
        return None;
      case NilBody => return None;
      case OtherBody(t) => return Some(Unsupported(t));
    }
  }

  // ---------------------------------------------------------------------------
  // The options object
  // ---------------------------------------------------------------------------

  /** The keys of the options object this model follows. A present key holds the outcome
      of its `cast` conversion (`ToStringE`, or `ToStringMapStringE` for headers, None
      when that fails). */
  datatype RequestOptions = RequestOptions(
    verb: Option<Attempt<string>>,
    url: Option<Attempt<string>>,
    headers: Option<Option<map<string, string>>>,
    body: Option<Body>,
    cache: Option<Attempt<string>>)

  /** The second argument of a request call. */
  datatype OptionsArg = Undefined | NotAnObject | Given(options: RequestOptions)

  datatype RequestError =
    | OptionsNotObject
    | MethodNotString
    | InvalidMethod(verb: string)
    | UrlNotString
    | HeadersNotObject
    | BodyFailed(cause: BodyError)
    | CacheNotString

  datatype Request = Request(verb: string, url: string, headers: map<string, string>)

  /** The method after the `method` option. */
  function MethodOption(verb: string, o: Option<Attempt<string>>): Result<string, RequestError>
  {
    match o
    case None => Ok(verb)
    case Some(a) =>
      if a.failed then Err(MethodNotString)
      else if ValidMethod(ToUpper(a.value)) then Ok(ToUpper(a.value))
      else Err(InvalidMethod(ToUpper(a.value)))
  }

  /** The header map after the `headers`, `body` and `cache` options. */
  function HeaderOptions(opts: RequestOptions): Result<map<string, string>, RequestError>
  {
    var given := match opts.headers
      case None => Ok(map[])
      case Some(None) => Err(HeadersNotObject)
      case Some(Some(m)) => Ok(m);
    if given.Err? then given
    else
      var withBody :=
        match opts.body
        case None => Ok(given.value)
        case Some(b) =>
          if BodyErrorFor(b).Some? then Err(BodyFailed(BodyErrorFor(b).value))
          else Ok(WithBodyHeader(given.value, b));
      if withBody.Err? then withBody
      else
        match opts.cache
        case None => withBody
        case Some(a) =>
          if a.failed then Err(CacheNotString)
          else Ok(withBody.value["Cache-Control" := a.value]["Pragma" := a.value])
  }

  /** What `doRequest` makes of its arguments before building the request: options are
      read in the order method, url, headers, body, cache, and the first bad one throws. */
  function Prepare(verb: string, url: string, opt: OptionsArg): Result<Request, RequestError>
  {
    match opt
    case Undefined => Ok(Request(verb, url, map[]))
    case NotAnObject => Err(OptionsNotObject)
    case Given(opts) =>
      var m := MethodOption(verb, opts.verb);
      if m.Err? then Err(m.error)
      else
        var u :=
          if url == "" && opts.url.Some? then
            (if opts.url.value.failed then Err(UrlNotString) else Ok(opts.url.value.value))
          else Ok(url);
        if u.Err? then Err(u.error)
        else
          var hs := HeaderOptions(opts);
          if hs.Err? then Err(hs.error)
          else Ok(Request(m.value, u.value, hs.value))
  }

  /** `doRequest` up to the point where the request is built: `method`, `url` and the
      header map are updated step by step, `handleBody` writes into the map in place,
      and a failed option ends the call with its error. */
  method PrepareRequest(defaultMethod: string, url0: string, opt: OptionsArg) returns (r: Result<Request, RequestError>)
    ensures r == Prepare(defaultMethod, url0, opt)
  {
    var verb, url := defaultMethod, url0;
    var headers := new Headers(map[]);
    if opt == NotAnObject {
      return Err(OptionsNotObject);
    }
    if opt.Given? {
      var opts := opt.options;
      if opts.verb.Some? {
        var a := opts.verb.value;
        if a.failed {
          return Err(MethodNotString);
        }
        verb := ToUpper(a.value);
        if !ValidMethod(verb) {
          return Err(InvalidMethod(verb));
        }
      }
      if url == "" && opts.url.Some? {
        var a := opts.url.value;
        if a.failed {
          return Err(UrlNotString);
        }
        url := a.value;
      }
      if opts.headers.Some? {
        if opts.headers.value.None? {
          return Err(HeadersNotObject);
        }
        headers := new Headers(opts.headers.value.value);
      }
      if opts.body.Some? {
        var err := HandleBody(opts.body.value, headers);
        if err.Some? {
          return Err(BodyFailed(err.value));
        }
      }
      if opts.cache.Some? {
        var a := opts.cache.value;
        if a.failed {
          return Err(CacheNotString);
        }
        headers.Set("Cache-Control", a.value);
        headers.Set("Pragma", a.value);
      }
    }
    r := Ok(Request(verb, url, headers.entries));
  }

  /** A `method` option is upper-cased and must then be a valid method; without one the
      caller's method is kept. */
  lemma MethodOptionRule(verb: string, url: string, opts: RequestOptions)
    ensures var r := Prepare(verb, url, Given(opts));
      && (opts.verb.None? && r.Ok? ==> r.value.verb == verb)
      && (opts.verb.Some? && r.Ok? ==>
            r.value.verb == ToUpper(opts.verb.value.value) && ValidMethod(r.value.verb))
      && (opts.verb.Some? && !opts.verb.value.failed && !ValidMethod(ToUpper(opts.verb.value.value)) ==>
            r == Err(InvalidMethod(ToUpper(opts.verb.value.value))))
  {
  }

  /** The `cache` option sets Cache-Control and Pragma to the same value, last. */
  lemma CacheOptionRule(verb: string, url: string, opts: RequestOptions)
    requires opts.cache.Some? && !opts.cache.value.failed
    ensures var r := Prepare(verb, url, Given(opts));
      r.Ok? ==>
        && "Cache-Control" in r.value.headers && "Pragma" in r.value.headers
        && r.value.headers["Cache-Control"] == r.value.headers["Pragma"] == opts.cache.value.value
  {
  }

  /** A body's Content-Type lands in the map given by the `headers` option (the body
      is handled after it), unless the `cache` option is set too (it cannot touch
      Content-Type either). */
  lemma BodyHeaderSurvives(verb: string, url: string, opts: RequestOptions, ct: string)
    requires opts.body.Some? && ContentTypeFor(opts.body.value) == Some(ct)
    ensures var r := Prepare(verb, url, Given(opts));
      r.Ok? ==> "Content-Type" in r.value.headers && r.value.headers["Content-Type"] == ct
  {
  }

  /** The `url` option is read only when the call gave an empty URL. */
  lemma UrlOptionRule(verb: string, url: string, opts: RequestOptions)
    ensures var r := Prepare(verb, url, Given(opts));
      r.Ok? ==> r.value.url == (if url == "" && opts.url.Some? then opts.url.value.value else url)
  {
  }
}
