/**
 * The browser's half of the CORS protocol of the WHATWG Fetch Standard, as far
 * as the summarize call needs it: the header-list parsing ("get, decode, and
 * split"), the "CORS check" algorithm and the "CORS-preflight fetch" algorithm,
 * for requests whose credentials mode is not "include". It is the reference the edge function's answers are checked against.
 */
module CorsPreflight {
  import opened Outcomes
  import opened Text
  import opened SummarizeFunction
  import opened HttpStatus

  predicate IsHttpTabOrSpace(c: char) {
    c == ' ' || c == '\t'
  }

  function StripLeading(s: string): (r: string)
    ensures |r| <= |s|
  {
    if s != [] && IsHttpTabOrSpace(s[0]) then StripLeading(s[1..]) else s
  }

  function StripTrailing(s: string): (r: string)
    ensures |r| <= |s|
  {
    if s != [] && IsHttpTabOrSpace(s[|s| - 1]) then StripTrailing(s[..|s| - 1]) else s
  }

  /** `StripLeading` drops exactly the leading tabs and spaces: a suffix starting with neither is left. */
  lemma {:induction false} StripLeadingDropsPadding(s: string)
    ensures var r := StripLeading(s);
            && r == s[|s| - |r|..] && (r == [] || !IsHttpTabOrSpace(r[0]))
            && forall i :: 0 <= i < |s| - |r| ==> IsHttpTabOrSpace(s[i])
  {
    if s != [] && IsHttpTabOrSpace(s[0]) {
      StripLeadingDropsPadding(s[1..]);
      var r := StripLeading(s);
      forall i | 0 <= i < |s| - |r| ensures IsHttpTabOrSpace(s[i]) {
        if i > 0 { assert s[i] == s[1..][i - 1]; }
      }
    }
  }

  /** `StripTrailing` drops exactly the trailing tabs and spaces: a prefix ending in neither is left. */
  lemma {:induction false} StripTrailingDropsPadding(s: string)
    ensures var r := StripTrailing(s);
            && r == s[..|r|] && (r == [] || !IsHttpTabOrSpace(r[|r| - 1]))
            && forall i :: |r| <= i < |s| ==> IsHttpTabOrSpace(s[i])
  {
    if s != [] && IsHttpTabOrSpace(s[|s| - 1]) {
      StripTrailingDropsPadding(s[..|s| - 1]);
      var r := StripTrailing(s);
      forall i | |r| <= i < |s| ensures IsHttpTabOrSpace(s[i]) {
        if i < |s| - 1 { assert s[i] == s[..|s| - 1][i]; }
      }
    }
  }

  /** Removes leading and trailing HTTP tab or space. */
  function Strip(s: string): string {
    StripTrailing(StripLeading(s))
  }

  /** Splits on every comma (header values here contain no quoted strings). */
  function SplitOnComma(s: string): (parts: seq<string>)
    ensures |parts| >= 1
  {
    if s == [] then [""]
    else
      var rest := SplitOnComma(s[1..]);
      if s[0] == ',' then [""] + rest else [[s[0]] + rest[0]] + rest[1..]
  }

  function StripAll(parts: seq<string>): (r: seq<string>)
    ensures |r| == |parts| && forall i :: 0 <= i < |r| ==> r[i] == Strip(parts[i])
  {
    if parts == [] then [] else [Strip(parts[0])] + StripAll(parts[1..])
  }

  /** "Get, decode, and split" of a header value into its list of values. */
  function ParseList(value: string): seq<string> {
    StripAll(SplitOnComma(value))
  }

  /** Items that survive a round trip: non-empty, comma-free, no surrounding tab or space. */
  ghost predicate PlainItems(items: seq<string>) {
    forall i :: 0 <= i < |items| ==>
      && |items[i]| > 0 && ',' !in items[i]
      && !IsHttpTabOrSpace(items[i][0]) && !IsHttpTabOrSpace(items[i][|items[i]| - 1])
  }

  lemma {:induction false} SplitWithoutComma(a: string)
    requires ',' !in a
    ensures SplitOnComma(a) == [a]
  {
    if a != [] {
      SplitWithoutComma(a[1..]);
      assert a == [a[0]] + a[1..];
    }
  }

  lemma {:induction false} SplitAtComma(a: string, b: string)
    requires ',' !in a
    ensures SplitOnComma(a + "," + b) == [a] + SplitOnComma(b)
  {
    if a == [] {
      assert a + "," + b == [','] + b;
      assert (a + "," + b)[1..] == b;
    } else {
      SplitAtComma(a[1..], b);
      assert (a + "," + b)[1..] == a[1..] + "," + b;
      assert a == [a[0]] + a[1..];
    }
  }

  lemma {:induction false} StripPadded(pad: string, x: string)
    requires forall i :: 0 <= i < |pad| ==> IsHttpTabOrSpace(pad[i])
    requires |x| > 0 && !IsHttpTabOrSpace(x[0]) && !IsHttpTabOrSpace(x[|x| - 1])
    ensures Strip(pad + x) == x
  {
    if pad == [] {
      assert pad + x == x;
    } else {
      assert (pad + x)[1..] == pad[1..] + x;
      StripPadded(pad[1..], x);
    }
  }

  /** Parsing a joined list gives back its items, whatever tab-or-space padding precedes it. */
  lemma {:induction false} ParseJoinPadded(pad: string, items: seq<string>)
    requires forall i :: 0 <= i < |pad| ==> IsHttpTabOrSpace(pad[i])
    requires |items| >= 1 && PlainItems(items)
    ensures ParseList(pad + JoinList(items)) == items
    decreases |items|
  {
    var x := items[0];
    assert ',' !in pad by {
      forall i | 0 <= i < |pad| ensures pad[i] != ',' { assert IsHttpTabOrSpace(pad[i]); }
    }
    assert ',' !in pad + x;
    if |items| == 1 {
      SplitWithoutComma(pad + x);
      StripPadded(pad, x);
      assert StripAll([pad + x]) == [Strip(pad + x)];
    } else {
      var rest := items[1..];
      assert PlainItems(rest) by {
        forall i | 0 <= i < |rest| ensures |rest[i]| > 0 { assert rest[i] == items[i + 1]; }
      }
      assert pad + JoinList(items) == (pad + x) + "," + (" " + JoinList(rest));
      SplitAtComma(pad + x, " " + JoinList(rest));
      StripPadded(pad, x);
      ParseJoinPadded(" ", rest);
      var parts := [pad + x] + SplitOnComma(" " + JoinList(rest));
      assert parts[1..] == SplitOnComma(" " + JoinList(rest));
      assert items == [x] + rest;
    }
  }

  /** The header-list parser inverts the `", "` joining. */
  lemma ParseJoin(items: seq<string>)
    requires |items| >= 1 && PlainItems(items)
    ensures ParseList(JoinList(items)) == items
  {
    ParseJoinPadded("", items);
    assert "" + JoinList(items) == JoinList(items);
  }

  /** The value of the first header whose name matches `name` byte-case-insensitively. */
  function GetHeader(headers: seq<(string, string)>, name: string): (v: Option<string>)
    ensures v.Some? ==> exists i :: 0 <= i < |headers| && Lower(headers[i].0) == Lower(name) && headers[i].1 == v.value
    ensures v.None? ==> forall i :: 0 <= i < |headers| ==> Lower(headers[i].0) != Lower(name)
  {
    if headers == [] then None
    else if Lower(headers[0].0) == Lower(name) then Some(headers[0].1)
    else
      var v := GetHeader(headers[1..], name);
      assert forall i :: 1 <= i < |headers| ==> headers[i] == headers[1..][i - 1];
      v
  }

  /** A request as the CORS protocol sees it. */
  datatype CorsRequest = CorsRequest(verb: string, unsafeHeaderNames: seq<string>)

  predicate IsSafelistedMethod(verb: string) {
    verb == "GET" || verb == "HEAD" || verb == "POST"
  }

  /** The CORS check: the response may be shared with a requester whose credentials mode is not "include". */
  predicate CorsCheckPasses(resp: Response) {
    GetHeader(resp.headers, "Access-Control-Allow-Origin") == Some("*")
  }

  /** The method step of the CORS-preflight fetch. */
  predicate MethodAllowed(methods: seq<string>, verb: string) {
    verb in methods || IsSafelistedMethod(verb) || "*" in methods
  }

  /** `name` matches an item of `names` byte-case-insensitively. */
  predicate Listed(names: seq<string>, name: string) {
    exists n :: n in names && Lower(n) == Lower(name)
  }

  /**
   * The header steps of the CORS-preflight fetch: each unsafe name is listed, or the
   * list holds the wildcard `*`, which never stands for `Authorization` (the CORS
   * non-wildcard request-header name).
   */
  predicate HeadersAllowed(names: seq<string>, unsafe: seq<string>) {
    forall k :: 0 <= k < |unsafe| ==>
      Listed(names, unsafe[k]) || ("*" in names && Lower(unsafe[k]) != "authorization")
  }

  /** The wildcard admits any other unsafe header, but `Authorization` must be listed by name. */
  lemma WildcardExcludesAuthorization()
    ensures !HeadersAllowed(["*"], ["Authorization"])
    ensures HeadersAllowed(["*"], ["x-client-info"])
  {
    assert Lower("Authorization") == "authorization";
    assert !Listed(["*"], "Authorization") by {
      assert Lower("*") == "*";
    }
    var u: seq<string> := ["Authorization"];
    assert !(Listed(["*"], u[0]) || ("*" in ["*"] && Lower(u[0]) != "authorization"));
    assert Lower("x-client-info")[0] == 'x';
  }

  /**
   * The CORS-preflight fetch: the preflight answer admits the actual request. A missing list
   * header is read as `""`, which parses to `[""]` and so admits no real method or header
   * name.
   */
  predicate PreflightAdmits(resp: Response, req: CorsRequest) {
    && IsOkStatus(resp.status)
    && CorsCheckPasses(resp)
    && MethodAllowed(ParseList(GetHeader(resp.headers, "Access-Control-Allow-Methods").GetOr("")), req.verb)
    && HeadersAllowed(ParseList(GetHeader(resp.headers, "Access-Control-Allow-Headers").GetOr("")), req.unsafeHeaderNames)
  }

  /**
   * A CORS-safelisted request-header: `Accept`, `Accept-Language`, `Content-Language`,
   * or a `Content-Type` whose value is one of the three form MIME types.
   */
  predicate Safelisted(header: (string, string)) {
    var name, value := Lower(header.0), Lower(header.1);
    || name == "accept" || name == "accept-language" || name == "content-language"
    || (name == "content-type" && (value == "application/x-www-form-urlencoded"
        || value == "multipart/form-data" || value == "text/plain"))
  }

  /** The CORS-unsafe request-header names of a header list, byte-lower-cased, in list order. */
  function UnsafeHeaderNames(headers: seq<(string, string)>): (names: seq<string>)
    ensures |names| <= |headers|
    ensures forall x :: x in names <==>
              exists i :: 0 <= i < |headers| && !Safelisted(headers[i]) && x == Lower(headers[i].0)
  {
    if headers == [] then []
    else
      var rest := UnsafeHeaderNames(headers[1..]);
      assert forall x :: (exists i :: 0 <= i < |headers| && !Safelisted(headers[i]) && x == Lower(headers[i].0))
                         <==> (!Safelisted(headers[0]) && x == Lower(headers[0].0)) || x in rest by {
        forall x ensures (exists i :: 0 <= i < |headers| && !Safelisted(headers[i]) && x == Lower(headers[i].0))
                         <==> (!Safelisted(headers[0]) && x == Lower(headers[0].0)) || x in rest {
          if x in rest {
            var j :| 0 <= j < |headers[1..]| && !Safelisted(headers[1..][j]) && x == Lower(headers[1..][j].0);
            assert headers[j + 1] == headers[1..][j];
          }
          if exists i :: 0 <= i < |headers| && !Safelisted(headers[i]) && x == Lower(headers[i].0) {
            var i :| 0 <= i < |headers| && !Safelisted(headers[i]) && x == Lower(headers[i].0);
            if i > 0 { assert headers[1..][i - 1] == headers[i]; }
          }
        }
      }
      (if Safelisted(headers[0]) then [] else [Lower(headers[0].0)]) + rest
  }

  lemma AllowedHeadersArePlain()
    ensures PlainItems(AllowedHeaderNames)
  {
    var xs := AllowedHeaderNames;
    assert ',' !in xs[0] && ',' !in xs[1] && ',' !in xs[2] && ',' !in xs[3];
  }

  /**
   * Looking up the three CORS headers in `corsHeaders`. The header set is one fixed
   * constant, so these lookups are facts about that constant, not about all inputs.
   */
  lemma CorsHeaderLookups()
    ensures GetHeader(CorsHeaders, "Access-Control-Allow-Origin") == Some("*")
    ensures GetHeader(CorsHeaders, "Access-Control-Allow-Headers") == Some(CorsHeaders[1].1)
    ensures GetHeader(CorsHeaders, "Access-Control-Allow-Methods") == Some(CorsHeaders[2].1)
  {
    AllowHeadersLookup();
    AllowMethodsLookup();
  }

  /** One of the `CorsHeaderLookups` facts about the constant `corsHeaders`. */
  lemma AllowHeadersLookup()
    ensures GetHeader(CorsHeaders, "Access-Control-Allow-Headers") == Some(CorsHeaders[1].1)
  {
    var h := CorsHeaders;
    assert |Lower(h[0].0)| == 27 && |Lower("Access-Control-Allow-Headers")| == 28;
    assert h[1..] == [h[1], h[2], h[3]];
  }

  /** One of the `CorsHeaderLookups` facts about the constant `corsHeaders`. */
  lemma AllowMethodsLookup()
    ensures GetHeader(CorsHeaders, "Access-Control-Allow-Methods") == Some(CorsHeaders[2].1)
  {
    var h := CorsHeaders;
    assert |Lower(h[0].0)| == 27 && |Lower("Access-Control-Allow-Methods")| == 28;
    assert Lower(h[1].0)[21] == 'h' && Lower("Access-Control-Allow-Methods")[21] == 'm';
    assert h[1..] == [h[1], h[2], h[3]] && h[1..][1..] == [h[2], h[3]];
  }

  /** Every answer of the edge function, error or not, can be read by any origin. */
  lemma EveryResponsePassesCorsCheck(req: Request, provider: ChatRequest -> ProviderReply)
    ensures CorsCheckPasses(Handle(req, provider).response)
  {
    CorsHeaderLookups();
  }

  /** Any ok answer carrying `corsHeaders` admits a POST whose unsafe headers are all allowed. */
  lemma CorsHeadersAdmit(resp: Response, unsafe: seq<string>)
    requires resp.headers == CorsHeaders && IsOkStatus(resp.status)
    requires HeadersAllowed(AllowedHeaderNames, unsafe)
    ensures PreflightAdmits(resp, CorsRequest("POST", unsafe))
  {
    CorsHeaderLookups();
    AllowedHeadersArePlain();
    ParseJoin(AllowedHeaderNames);
    assert ParseList(GetHeader(resp.headers, "Access-Control-Allow-Headers").GetOr("")) == AllowedHeaderNames;
    assert IsSafelistedMethod("POST");
  }

  /**
   * The preflight answer admits a POST carrying any CORS-unsafe header among the
   * allowed ones, in any letter case.
   */
  lemma PreflightAdmitsAllowedHeaders(body: Payload, provider: ChatRequest -> ProviderReply, unsafe: seq<string>)
    requires HeadersAllowed(AllowedHeaderNames, unsafe)
    ensures PreflightAdmits(Handle(Request("OPTIONS", body), provider).response, CorsRequest("POST", unsafe))
  {
    var resp := Handle(Request("OPTIONS", body), provider).response;
    assert resp.status == 204 && resp.headers == CorsHeaders;
    CorsHeadersAdmit(resp, unsafe);
  }
}
