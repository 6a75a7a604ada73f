/**
 * The browser's request helper (client/src/api/client.ts): how `fetchAPI`
 * builds the URL and headers and how it turns a response or a thrown error
 * into a result or an `ApiError`, and the body rule of the `apiClient`
 * verbs. `fetch` itself is left out: its outcome is an input. `String(v)`,
 * the form-url-encoding of URLSearchParams and `JSON.stringify` are the
 * parameters `show`, `escape` and `stringify`.
 */
module ApiClient {
  import opened Wrappers
  import opened Js

  type Headers = map<string, string>

  /** The default header of every request (client/src/api/config.ts). */
  const DefaultHeaders: Headers := map["Content-Type" := "application/json"]

  const NetworkErrorMessage := "Network error. Please check your connection."
  const UnknownErrorMessage := "Unknown error occurred"

  // ---------------------------------------------------------------- URL

  /** The entries of `params` that are neither null nor undefined, in order, each value as `String(value)`. */
  function Kept(entries: seq<(string, Value)>, show: Value -> string): (r: seq<(string, string)>)
    ensures |r| <= |entries|
    ensures forall i | 0 <= i < |entries| && !Nullish(entries[i].1) :: (entries[i].0, ToText(entries[i].1, show)) in r
    ensures forall i | 0 <= i < |entries| && entries[i].1.Str? :: (entries[i].0, entries[i].1.s) in r
    ensures forall p | p in r :: exists i | 0 <= i < |entries| :: !Nullish(entries[i].1) && p == (entries[i].0, ToText(entries[i].1, show))
    ensures r == [] <==> forall i | 0 <= i < |entries| :: Nullish(entries[i].1)
    decreases |entries|
  {
    if |entries| == 0 then []
    else
      var rest := Kept(entries[1..], show);
      assert forall i | 1 <= i < |entries| :: entries[i] == entries[1..][i - 1];
      var (k, v) := entries[0];
      if Nullish(v) then rest else [(k, ToText(v, show))] + rest
  }

  /** Keeping distributes over concatenation: the kept pairs stay in entry order, each once per entry. */
  lemma {:induction false} KeptConcat(a: seq<(string, Value)>, b: seq<(string, Value)>, show: Value -> string)
    ensures Kept(a + b, show) == Kept(a, show) + Kept(b, show)
    decreases |a|
  {
    if |a| == 0 {
      assert a + b == b;
    } else {
      assert (a + b)[0] == a[0];
      assert (a + b)[1..] == a[1..] + b;
      KeptConcat(a[1..], b, show);
    }
  }

  /** A single entry is dropped when null or undefined and otherwise kept as text; a string is kept as itself. */
  lemma KeptSingle(k: string, v: Value, show: Value -> string)
    ensures Kept([(k, v)], show) == (if Nullish(v) then [] else [(k, ToText(v, show))])
    ensures v.Str? ==> Kept([(k, v)], show) == [(k, v.s)]
  {
    assert [(k, v)][1..] == [];
  }

  /** One `key=value` pair of a query string. */
  function PairText(p: (string, string), escape: string -> string): (t: string)
    ensures '=' in t
  {
    escape(p.0) + "=" + escape(p.1)
  }

  /** `URLSearchParams.toString()`: the pairs joined by '&'. */
  function QueryString(pairs: seq<(string, string)>, escape: string -> string): (q: string)
    ensures q == "" <==> pairs == []
    decreases |pairs|
  {
    if |pairs| == 0 then ""
    else if |pairs| == 1 then PairText(pairs[0], escape)
    else PairText(pairs[0], escape) + "&" + QueryString(pairs[1..], escape)
  }

  /**
   * When the encoder never emits '&', the query string holds exactly one
   * '&' between consecutive pairs, so it splits back into its pairs.
   */
  lemma {:induction false} QuerySeparators(pairs: seq<(string, string)>, escape: string -> string)
    requires pairs != []
    requires forall x :: '&' !in escape(x)
    ensures multiset(QueryString(pairs, escape))['&'] == |pairs| - 1
    decreases |pairs|
  {
    var head := PairText(pairs[0], escape);
    assert multiset(escape(pairs[0].0))['&'] == 0 && multiset(escape(pairs[0].1))['&'] == 0;
    assert multiset(head)['&'] == 0;
    if |pairs| > 1 {
      QuerySeparators(pairs[1..], escape);
    }
  }

  /** The URL `fetchAPI` requests: base and endpoint, then '?' and the query when it is non-empty. */
  function BuildUrl(
    baseUrl: string, endpoint: string, params: Option<seq<(string, Value)>>,
    show: Value -> string, escape: string -> string): (url: string)
    ensures params.None? ==> url == baseUrl + endpoint
    ensures params.Some? && Kept(params.value, show) == [] ==> url == baseUrl + endpoint
    ensures params.Some? && Kept(params.value, show) != [] ==>
      url == baseUrl + endpoint + "?" + QueryString(Kept(params.value, show), escape)
  {
    var url := baseUrl + endpoint;
    if params.None? then url
    else
      var q := QueryString(Kept(params.value, show), escape);
      if q != "" then url + "?" + q else url
  }

  /** A '?' appears after the endpoint exactly when some parameter is neither null nor undefined. */
  lemma QueryMarkIffKeptParam(
    baseUrl: string, endpoint: string, params: seq<(string, Value)>, show: Value -> string, escape: string -> string)
    ensures var url := BuildUrl(baseUrl, endpoint, Some(params), show, escape);
      (|url| > |baseUrl + endpoint| && url[|baseUrl + endpoint|] == '?')
      <==> exists i | 0 <= i < |params| :: !Nullish(params[i].1)
  {
  }

  // ------------------------------------------------------------ headers

  /** `{...API_CONFIG.headers, ...(options.headers || {})}`: the caller's headers win. */
  function MergeHeaders(caller: Option<Headers>): (h: Headers)
    ensures h.Keys == DefaultHeaders.Keys + (if caller.Some? then caller.value.Keys else {})
    ensures caller.Some? ==> forall k | k in caller.value :: h[k] == caller.value[k]
    ensures forall k | k in DefaultHeaders && (caller.None? || k !in caller.value) :: h[k] == DefaultHeaders[k]
  {
    if caller.Some? then DefaultHeaders + caller.value else DefaultHeaders
  }

  // ------------------------------------------------------------- errors

  /** A decimal digit. */
  function Digit(d: nat): (c: char)
    requires d < 10
    ensures '0' <= c <= '9'
  {
    (('0' as int) + d) as char
  }

  predicate AllDigits(s: string)
  {
    forall i | 0 <= i < |s| :: '0' <= s[i] <= '9'
  }

  /** The decimal text of a natural number, as a template literal prints it. */
  function Decimal(n: nat): (s: string)
    ensures |s| >= 1 && AllDigits(s)
    ensures |s| > 1 ==> s[0] != '0'
    decreases n
  {
    if n < 10 then [Digit(n)] else Decimal(n / 10) + [Digit(n % 10)]
  }

  /** The number a string of decimal digits denotes. */
  function ParseDecimal(s: string): nat
    requires AllDigits(s)
    decreases |s|
  {
    if |s| == 0 then 0 else ParseDecimal(s[..|s| - 1]) * 10 + ((s[|s| - 1] as int) - ('0' as int))
  }

  /** Reading back the decimal text of a number gives the number. */
  lemma {:induction false} DecimalRoundTrip(n: nat)
    ensures ParseDecimal(Decimal(n)) == n
    decreases n
  {
    if n >= 10 {
      var s := Decimal(n);
      assert s[..|s| - 1] == Decimal(n / 10);
      DecimalRoundTrip(n / 10);
    }
  }

  /** Distinct statuses print differently. */
  lemma DecimalInjective(a: nat, b: nat)
    requires Decimal(a) == Decimal(b)
    ensures a == b
  {
    DecimalRoundTrip(a);
    DecimalRoundTrip(b);
  }

  /** The error every failed call rejects with; `Error`'s constructor makes its message a string. */
  datatype ApiError = ApiError(message: string, status: int, data: Value)

  /** What a thrown value is, as far as the `catch` block tells them apart. */
  datatype Thrown =
    | ApiThrown(err: ApiError)
    | TypeErrorThrown(text: string)
    | ErrorThrown(text: string)
    | NonError(thrown: Value)

  /** How the call to `fetch` and the reading of its body ended. */
  datatype Outcome =
    | Responded(ok: bool, status: nat, data: Value)
    | Threw(error: Thrown)

  datatype Result = Resolved(data: Value) | Failed(err: ApiError)

  /** `String(v)`: a string is itself, any other value is converted by `show`. */
  function ToText(v: Value, show: Value -> string): (t: string)
    ensures v.Str? ==> t == v.s
    ensures !v.Str? ==> t == show(v)
  {
    if v.Str? then v.s else show(v)
  }

  /** `data?.message`: the message property of an object body, undefined for anything else. */
  function MessageOf(data: Value): (m: Value)
    ensures !data.Object? ==> m == Undefined
    ensures data.Object? ==> m == Get(data.fields, "message")
  {
    if data.Object? then Get(data.fields, "message") else Undefined
  }

  /**
   * The message of the error a non-ok response raises: the body's truthy
   * message as a string, or "HTTP " and the status.
   */
  function FailureMessage(status: nat, data: Value, show: Value -> string): (m: string)
    ensures Truthy(MessageOf(data)) ==> m == ToText(MessageOf(data), show)
    ensures !Truthy(MessageOf(data)) ==> m == "HTTP " + Decimal(status)
  {
    var m := MessageOf(data);
    if Truthy(m) then ToText(m, show) else "HTTP " + Decimal(status)
  }

  /** The result of `fetchAPI` for a given outcome of the request. */
  function Settle(o: Outcome, show: Value -> string): (r: Result)
    ensures o.Responded? && o.ok ==> r == Resolved(o.data)
    ensures o.Responded? && !o.ok ==> r == Failed(ApiError(FailureMessage(o.status, o.data, show), o.status, o.data))
    ensures o.Threw? && o.error.ApiThrown? ==> r == Failed(o.error.err)
    ensures o.Threw? && !o.error.ApiThrown? ==> r.Failed? && r.err.status == 0
    ensures o.Threw? && o.error.TypeErrorThrown? ==> r.err.message == NetworkErrorMessage
    ensures o.Threw? && o.error.ErrorThrown? ==> r.err.message == o.error.text
    ensures o.Threw? && o.error.NonError? ==> r.err.message == UnknownErrorMessage
  {
    match o
    case Responded(ok, status, data) =>
      if ok then Resolved(data) else Failed(ApiError(FailureMessage(status, data, show), status, data))
    case Threw(ApiThrown(e)) => Failed(e)
    case Threw(TypeErrorThrown(_)) => Failed(ApiError(NetworkErrorMessage, 0, Undefined))
    case Threw(ErrorThrown(text)) => Failed(ApiError(text, 0, Undefined))
    case Threw(NonError(v)) => Failed(ApiError(UnknownErrorMessage, 0, v))
  }

  /**
   * A rejection not rethrown from an ApiError carries status 0 exactly when
   * no response was received, and a failed response's default message names
   * its status, so the status can be read back from the text.
   */
  lemma SettleStatus(o: Outcome, show: Value -> string)
    requires !(o.Threw? && o.error.ApiThrown?)
    requires o.Responded? ==> o.status != 0
    ensures Settle(o, show).Failed? && Settle(o, show).err.status == 0 <==> o.Threw?
    ensures o.Responded? && !o.ok && !Truthy(MessageOf(o.data)) ==>
      && var m := Settle(o, show).err.message;
         m[..5] == "HTTP " && AllDigits(m[5..]) && ParseDecimal(m[5..]) == o.status
  {
    if o.Responded? && !o.ok && !Truthy(MessageOf(o.data)) {
      var m := Settle(o, show).err.message;
      assert m[5..] == Decimal(o.status);
      DecimalRoundTrip(o.status);
    }
  }

  // ------------------------------------------------------------- verbs

  /** The options a caller passes; `body` and `method` as `fetch` takes them. */
  datatype Options = Options(
    params: Option<seq<(string, Value)>>, headers: Option<Headers>, body: Option<string>, verb: Option<string>)

  /** The request handed to `fetch`; cookies are always included. */
  datatype Request = Request(url: string, verb: Option<string>, headers: Headers, body: Option<string>, withCredentials: bool)

  /** `body ? JSON.stringify(body) : undefined`. */
  function BodyFor(body: Value, stringify: Value -> string): (r: Option<string>)
    ensures r.Some? <==> Truthy(body)
    ensures r.Some? ==> r.value == stringify(body)
  {
    if Truthy(body) then Some(stringify(body)) else None
  }

  /** What `fetchAPI(endpoint, options)` passes to `fetch`. */
  function Prepare(baseUrl: string, endpoint: string, options: Options, show: Value -> string, escape: string -> string)
    : (r: Request)
    ensures r.url == BuildUrl(baseUrl, endpoint, options.params, show, escape)
    ensures r.headers == MergeHeaders(options.headers)
    ensures r.verb == options.verb && r.body == options.body && r.withCredentials
  {
    Request(BuildUrl(baseUrl, endpoint, options.params, show, escape), options.verb, MergeHeaders(options.headers),
      options.body, true)
  }

  /** `apiClient.get`/`delete`: the verb is forced; any body in the options goes through. */
  function WithoutBody(verb: string, baseUrl: string, endpoint: string, options: Options,
                       show: Value -> string, escape: string -> string): (r: Request)
    ensures r.verb == Some(verb) && r.body == options.body
    ensures r.url == BuildUrl(baseUrl, endpoint, options.params, show, escape)
  {
    Prepare(baseUrl, endpoint, options.(verb := Some(verb)), show, escape)
  }

  /** `apiClient.post`/`put`/`patch`: the verb is forced and the body replaces any in the options. */
  function WithBody(verb: string, baseUrl: string, endpoint: string, body: Value, options: Options,
                    show: Value -> string, escape: string -> string, stringify: Value -> string): (r: Request)
    ensures r.verb == Some(verb)
    ensures r.body.Some? <==> Truthy(body)
    ensures r.body.Some? ==> r.body.value == stringify(body)
    ensures r.headers == MergeHeaders(options.headers)
  {
    Prepare(baseUrl, endpoint, options.(verb := Some(verb), body := BodyFor(body, stringify)), show, escape)
  }
}
