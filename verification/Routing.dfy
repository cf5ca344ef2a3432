/**
 From a gate URL to the handler that serves it: the split of the URL, the full method name
 the client sends, the type and method names the server reads back, and its handler table.
 */
module Routing {
  import opened Prelude
  import opened Strings

  // ---- names ----------------------------------------------------------------

  datatype Names = Names(service: string, endpoint: string)

  datatype GateResult = Routed(names: Names) | ServiceEmpty | EndpointEmpty

  /** What the gate takes from a request URI. */
  function GateNames(uri: string): GateResult {
    var path := Split(uri, '/');
    var service := if |path| > 3 then path[2] else "";
    var endpoint := if |path| > 3 then path[3] else "";
    if service == "" then ServiceEmpty
    else if endpoint == "" then EndpointEmpty
    else Routed(Names(service, endpoint))
  }

  /** The method the client puts on the wire: /service.Type/Method. */
  function MethodToGRPC(service: string, endpoint: string): string {
    if endpoint == "" || endpoint[0] == '/' then endpoint
    else
      var parts := Split(endpoint, '.');
      if |parts| != 2 then endpoint
      else if service == "" then "/" + parts[0] + "/" + parts[1]
      else "/" + service + "." + parts[0] + "/" + parts[1]
  }

  /** What the server reads from it: the type and method names, or nothing if malformed. */
  function ServiceMethod(m: string): Option<(string, string)> {
    if m == "" then None
    else if m[0] == '/' then
      var parts := Split(m, '/');
      if |parts| != 3 || parts[1] == "" || parts[2] == "" then None
      else
        var service := Split(parts[1], '.');
        Some((service[|service| - 1], parts[2]))
    else
      var parts := Split(m, '.');
      if |parts| != 2 then None else Some((parts[0], parts[1]))
  }

  /** The name the server looks a method up by. */
  function Dotted(t: string, m: string): string { t + "." + m }

  ghost predicate ComesBack(service: string, endpoint: string) {
    var back := ServiceMethod(MethodToGRPC(service, endpoint));
    back.Some? && Dotted(back.value.0, back.value.1) == endpoint
  }

  /** No slashes, one dot, a method name after it, and a type name before it or else a service. */
  ghost predicate Printable(service: string, endpoint: string) {
    && '/' !in service && '/' !in endpoint
    && exists t, m :: endpoint == Dotted(t, m) && '.' !in t && '.' !in m && m != "" && (service != "" || t != "")
  }

  /** The same, by the parts of the endpoint. */
  ghost predicate PrintableParts(service: string, endpoint: string) {
    var parts := Split(endpoint, '.');
    '/' !in service && '/' !in endpoint && |parts| == 2 && parts[1] != "" && (service != "" || parts[0] != "")
  }

  lemma PrintableByParts(service: string, endpoint: string)
    ensures Printable(service, endpoint) <==> PrintableParts(service, endpoint)
  {
    if |Split(endpoint, '.')| == 2 {
      TwoParts(endpoint);
    }
    forall t, m | endpoint == Dotted(t, m) && '.' !in t && '.' !in m ensures Split(endpoint, '.') == [t, m] {
      SplitConcat(t, m, '.');
      SplitFree(t, '.');
      SplitFree(m, '.');
    }
  }

  lemma SplitMethod(a: string, b: string)
    ensures Split("/" + a + "/" + b, '/') == [""] + Split(a, '/') + Split(b, '/')
  {
    SplitConcat("", a + "/" + b, '/');
    SplitConcat(a, b, '/');
    assert "" + "/" + (a + "/" + b) == "/" + a + "/" + b;
    assert Split("", '/') == [""];
  }

  /** The parser on the printed form. */
  lemma ReadsBack(a: string, b: string)
    ensures ServiceMethod("/" + a + "/" + b) ==
            if '/' in a || '/' in b || a == "" || b == "" then None
            else Some((Split(a, '.')[|Split(a, '.')| - 1], b))
  {
    SplitMethod(a, b);
    SlashCount(a);
    SlashCount(b);
  }

  lemma SlashCount(a: string)
    ensures |Split(a, '/')| == 1 <==> '/' !in a
    ensures '/' !in a ==> Split(a, '/') == [a]
  {
    if '/' !in a {
      SplitFree(a, '/');
    }
    JoinSplit(a, '/');
  }

  lemma TwoParts(endpoint: string)
    requires |Split(endpoint, '.')| == 2
    ensures var p := Split(endpoint, '.'); endpoint == Dotted(p[0], p[1]) && '.' !in p[0] && '.' !in p[1]
  {
    JoinSplit(endpoint, '.');
    var p := Split(endpoint, '.');
    assert p[0] in p && p[1] in p;
    assert Join(p[1..], '.') == p[1];
  }

  /**
   The client's printer and the server's parser agree exactly on slash-free services and
   endpoints with one dot, a method name, and a type name or a service.
   */
  lemma RoundTrip(service: string, endpoint: string)
    ensures ComesBack(service, endpoint) <==> Printable(service, endpoint)
  {
    var p := Split(endpoint, '.');
    PrintableByParts(service, endpoint);
    if endpoint == "" {
    } else if endpoint[0] == '/' {
      StartsWithSlash(endpoint);
    } else if |p| == 2 {
      TwoParts(endpoint);
      PrintedComesBack(service, endpoint);
    }
  }

  /** A full method given as the endpoint is never the dotted name of what it is read as. */
  lemma StartsWithSlash(m: string)
    requires m != "" && m[0] == '/'
    ensures var back := ServiceMethod(m); back.Some? ==> Dotted(back.value.0, back.value.1) != m
  {
    var back := ServiceMethod(m);
    if back.Some? {
      var parts := Split(m, '/');
      var t := back.value.0;
      assert '/' !in parts[1];
      assert '/' !in t by {
        LastPartWithin(parts[1], '.', '/');
      }
      assert Dotted(t, back.value.1)[0] == if t == "" then '.' else t[0];
    }
  }

  lemma {:induction false} LastPartWithin(s: string, sep: char, c: char)
    requires c !in s
    ensures forall p | p in Split(s, sep) :: c !in p
  {
    if s != "" {
      LastPartWithin(s[1..], sep, c);
    }
  }

  lemma PrintedComesBack(service: string, endpoint: string)
    requires endpoint != "" && endpoint[0] != '/' && |Split(endpoint, '.')| == 2
    ensures ComesBack(service, endpoint) <==> PrintableParts(service, endpoint)
  {
    var p := Split(endpoint, '.');
    TwoParts(endpoint);
    if service == "" {
      ReadsBack(p[0], p[1]);
      SplitFree(p[0], '.');
    } else {
      var a := service + "." + p[0];
      assert "/" + service + "." + p[0] + "/" + p[1] == "/" + a + "/" + p[1];
      ReadsBack(a, p[1]);
      SplitConcat(service, p[0], '.');
      SplitFree(p[0], '.');
      assert Split(a, '.')[|Split(a, '.')| - 1] == p[0];
    }
  }

  /** What the client prints for a type and a method. */
  lemma PrintsParts(service: string, t: string, m: string)
    requires '.' !in t && '.' !in m && Dotted(t, m)[0] != '/'
    ensures MethodToGRPC(service, Dotted(t, m)) == "/" + (if service == "" then t else service + "." + t) + "/" + m
  {
    SplitConcat(t, m, '.');
    SplitFree(t, '.');
    SplitFree(m, '.');
    if service != "" {
      assert "/" + service + "." + t == "/" + (service + "." + t);
    }
  }

  /** An endpoint that is a full method already, or not a type and a method, is sent as it is. */
  lemma PassesThrough(service: string, endpoint: string)
    requires endpoint == "" || endpoint[0] == '/' || forall t, m | '.' !in t && '.' !in m :: endpoint != Dotted(t, m)
    ensures MethodToGRPC(service, endpoint) == endpoint
  {
    if |Split(endpoint, '.')| == 2 {
      TwoParts(endpoint);
    }
  }

  /** The server also reads a bare type and method. */
  lemma ReadsDotted(t: string, m: string)
    requires '.' !in t && '.' !in m && Dotted(t, m)[0] != '/'
    ensures ServiceMethod(Dotted(t, m)) == Some((t, m))
  {
    SplitConcat(t, m, '.');
    SplitFree(t, '.');
    SplitFree(m, '.');
  }

  /** It rejects the empty text, a single rooted part, and what is neither rooted nor a type and a method. */
  lemma Rejects(text: string)
    requires || text == ""
             || (text[0] == '/' && '/' !in text[1..])
             || (text[0] != '/' && forall t, m | '.' !in t && '.' !in m :: text != Dotted(t, m))
    ensures ServiceMethod(text) == None
  {
    if text != "" && text[0] == '/' {
      SplitFree(text[1..], '/');
    } else if |Split(text, '.')| == 2 {
      TwoParts(text);
    }
  }

  /** The gate's answer to a URI made of any parts: the third names the service, the fourth the endpoint. */
  lemma GateAnswers(parts: seq<string>)
    requires |parts| >= 1 && forall p | p in parts :: '/' !in p
    ensures GateNames(Join(parts, '/')) ==
            if |parts| < 4 || parts[2] == "" then ServiceEmpty
            else if parts[3] == "" then EndpointEmpty
            else Routed(Names(parts[2], parts[3]))
  {
    SplitJoin(parts, '/');
  }

  // ---- registration ---------------------------------------------------------

  datatype Endpoint = Endpoint(name: string, url: string, clientStream: bool, serverStream: bool)

  /** A service object: its type name, the names of its methods, and their parameter counts, receiver included. */
  datatype Service = Service(name: string, methods: seq<string>, params: map<string, nat>)

  datatype Handler = Handler(service: Service, name: string, clientStream: bool, serverStream: bool)

  type Table = map<string, Handler>

  /** The endpoints by method name; of two with the same name the later counts. */
  function ByMethod(endpoints: seq<Endpoint>): map<string, Endpoint> {
    if endpoints == [] then map[]
    else
      var n := |endpoints| - 1;
      ByMethod(endpoints[..n])[endpoints[n].name := endpoints[n]]
  }

  /** The table after one method of `s` has been looked at; without endpoints every method is served by name. */
  function WithMethod(t: Table, s: Service, m: string, endpoints: Option<map<string, Endpoint>>): Table {
    var name := Dotted(s.name, m);
    if endpoints.None? then t[name := Handler(s, m, false, false)]
    else if name !in endpoints.value then t
    else
      var e := endpoints.value[name];
      var h := Handler(s, m, e.clientStream, e.serverStream);
      if e.name == "" then t[e.url := h] else t[e.url := h][e.name := h]
  }

  function WithMethods(t: Table, s: Service, k: nat, endpoints: Option<map<string, Endpoint>>): Table
    requires k <= |s.methods|
  {
    if k == 0 then t else WithMethod(WithMethods(t, s, k - 1, endpoints), s, s.methods[k - 1], endpoints)
  }

  function WithService(t: Table, s: Service, endpoints: Option<map<string, Endpoint>>): Table {
    WithMethods(t, s, |s.methods|, endpoints)
  }

  function WithServices(t: Table, list: seq<Service>, endpoints: Option<map<string, Endpoint>>): Table {
    if list == [] then t
    else WithService(WithServices(t, list[..|list| - 1], endpoints), list[|list| - 1], endpoints)
  }

  function ParamCount(s: Service, m: string): nat { if m in s.params then s.params[m] else 0 }

  /** Registration comes to a method with the wrong number of parameters, and panics. */
  predicate Unfit(s: Service, m: string, endpoints: Option<map<string, Endpoint>>) {
    && (endpoints.Some? ==> Dotted(s.name, m) in endpoints.value)
    && ParamCount(s, m) != 3 && ParamCount(s, m) != 4
  }

  ghost predicate AnyUnfit(s: Service, endpoints: Option<map<string, Endpoint>>) {
    exists i :: 0 <= i < |s.methods| && Unfit(s, s.methods[i], endpoints)
  }

  lemma UnfitByParams(s: Service, endpoints: Option<map<string, Endpoint>>)
    ensures AnyUnfit(s, endpoints) <==>
            exists m :: m in s.methods && (endpoints.Some? ==> Dotted(s.name, m) in endpoints.value)
                && (m in s.params ==> s.params[m] != 3 && s.params[m] != 4)
  {
    if AnyUnfit(s, endpoints) {
      var i :| 0 <= i < |s.methods| && Unfit(s, s.methods[i], endpoints);
      assert s.methods[i] in s.methods;
    }
    forall m | m in s.methods && Unfit(s, m, endpoints) ensures AnyUnfit(s, endpoints) {
      var i :| 0 <= i < |s.methods| && s.methods[i] == m;
    }
  }

  /** `t'` is `t` with the methods of `s` before its first unfit one. */
  ghost predicate StoppedIn(t: Table, s: Service, endpoints: Option<map<string, Endpoint>>, t': Table) {
    exists k :: 0 <= k < |s.methods| && Unfit(s, s.methods[k], endpoints)
           && (forall j :: 0 <= j < k ==> !Unfit(s, s.methods[j], endpoints))
           && t' == WithMethods(t, s, k, endpoints)
  }

  datatype LookupResult = Found(handler: Handler) | Malformed | Unknown

  /** How the server finds the handler of a call: by its dotted name, then by the full method. */
  function Lookup(t: Table, fullMethod: string): LookupResult {
    var names := ServiceMethod(fullMethod);
    if names.None? then Malformed
    else
      var name := Dotted(names.value.0, names.value.1);
      if name in t then Found(t[name])
      else if fullMethod in t then Found(t[fullMethod])
      else Unknown
  }

  class GrpcServer {
    var handlers: Table

    constructor ()
      ensures handlers == map[]
    {
      handlers := map[];
    }

    method RegisterApiEndpoint(list: seq<Service>, endpoints: seq<Endpoint>) returns (panicked: bool)
      modifies this
      ensures panicked <==> exists i :: 0 <= i < |list| && AnyUnfit(list[i], Some(ByMethod(endpoints)))
      ensures !panicked ==> handlers == WithServices(old(handlers), list, Some(ByMethod(endpoints)))
      ensures var filed := Some(ByMethod(endpoints));
              panicked ==>
                exists i ::
                  && 0 <= i < |list| && (forall j :: 0 <= j < i ==> !AnyUnfit(list[j], filed))
                  && StoppedIn(WithServices(old(handlers), list[..i], filed), list[i], filed, handlers)
    {
      var byMethod: map<string, Endpoint> := map[];
      for i := 0 to |endpoints|
        invariant byMethod == ByMethod(endpoints[..i])
      {
        assert endpoints[..i + 1][..i] == endpoints[..i];
        byMethod := byMethod[endpoints[i].name := endpoints[i]];
      }
      assert endpoints[..|endpoints|] == endpoints;
      for i := 0 to |list|
        invariant handlers == WithServices(old(handlers), list[..i], Some(ByMethod(endpoints)))
        invariant forall j :: 0 <= j < i ==> !AnyUnfit(list[j], Some(ByMethod(endpoints)))
      {
        assert list[..i + 1][..i] == list[..i];
        panicked := RegisterWithUrl(list[i], Some(byMethod));
        if panicked {
          return;
        }
      }
      assert list[..|list|] == list;
      panicked := false;
    }

    method RegisterWithUrl(s: Service, endpoints: Option<map<string, Endpoint>>) returns (panicked: bool)
      modifies this
      ensures panicked <==> exists m :: m in s.methods && (endpoints.Some? ==> Dotted(s.name, m) in endpoints.value)
                                     && (m in s.params ==> s.params[m] != 3 && s.params[m] != 4)
      ensures panicked <==> AnyUnfit(s, endpoints)
      ensures !panicked ==> handlers == WithService(old(handlers), s, endpoints)
      ensures panicked ==> StoppedIn(old(handlers), s, endpoints, handlers)
    {
      UnfitByParams(s, endpoints);
      for i := 0 to |s.methods|
        invariant handlers == WithMethods(old(handlers), s, i, endpoints)
        invariant forall j :: 0 <= j < i ==> !Unfit(s, s.methods[j], endpoints)
      {
        var name := s.name + "." + s.methods[i];
        var reqUrl, reqMethod, clientStream, serverStream := name, "", false, false;
        if endpoints.Some? {
          if name !in endpoints.value {
            continue;
          }
          var e := endpoints.value[name];
          reqUrl, reqMethod := e.url, e.name;
          clientStream, serverStream := e.clientStream, e.serverStream;
        }
        if ParamCount(s, s.methods[i]) != 3 && ParamCount(s, s.methods[i]) != 4 {
          assert Unfit(s, s.methods[i], endpoints);
          return true;
        }
        var h := Handler(s, s.methods[i], clientStream, serverStream);
        handlers := handlers[reqUrl := h];
        if reqMethod != "" {
          handlers := handlers[reqMethod := h];
        }
      }
      return false;
    }

    method Register(s: Service) returns (panicked: bool)
      modifies this
      ensures panicked <==> AnyUnfit(s, None)
      ensures !panicked ==> handlers == WithService(old(handlers), s, None)
    {
      panicked := RegisterWithUrl(s, None);
    }

    /** The lookup of an incoming call. */
    method Find(fullMethod: string) returns (r: LookupResult)
      ensures r == Lookup(handlers, fullMethod)
    {
      var names := ServiceMethod(fullMethod);
      if names.None? {
        return Malformed;
      }
      var name := names.value.0 + "." + names.value.1;
      if name in handlers {
        return Found(handlers[name]);
      }
      if fullMethod in handlers {
        return Found(handlers[fullMethod]);
      }
      return Unknown;
    }
  }

  // ---- what the table holds -------------------------------------------------

  ghost predicate Named(endpoints: seq<Endpoint>, name: string) {
    exists i :: 0 <= i < |endpoints| && endpoints[i].name == name
  }

  /** The endpoint that counts for `name`. */
  ghost predicate LastNamed(endpoints: seq<Endpoint>, name: string, e: Endpoint) {
    exists i :: 0 <= i < |endpoints| && endpoints[i] == e && e.name == name
           && forall j :: i < j < |endpoints| ==> endpoints[j].name != name
  }

  /** The last endpoint of the list with a method name is the one that counts. */
  lemma {:induction false} LastEndpointCounts(endpoints: seq<Endpoint>, m: string)
    ensures m in ByMethod(endpoints) <==> Named(endpoints, m)
    ensures m in ByMethod(endpoints) ==> LastNamed(endpoints, m, ByMethod(endpoints)[m])
  {
    if endpoints != [] {
      var n := |endpoints| - 1;
      var rest := endpoints[..n];
      assert endpoints == rest + [endpoints[n]];
      LastEndpointCounts(rest, m);
      if endpoints[n].name != m && m in ByMethod(rest) {
        var i :| 0 <= i < n && rest[i] == ByMethod(rest)[m] && rest[i].name == m
                 && forall j :: i < j < n ==> rest[j].name != m;
        assert endpoints[i] == ByMethod(endpoints)[m] && endpoints[i].name == m;
        assert forall j :: i < j < n ==> rest[j] == endpoints[j];
      }
    }
  }

  /** Names as Go has them: nothing but the dot between type and method separates. */
  ghost predicate Plain(name: string) { name != "" && '.' !in name && '/' !in name }

  ghost predicate Wellformed(s: Service) { Plain(s.name) && forall m | m in s.methods :: Plain(m) }

  /** Every endpoint is filed under its own method, and its URL is rooted. */
  ghost predicate Rooted(endpoints: map<string, Endpoint>) {
    forall m | m in endpoints :: endpoints[m].name == m && endpoints[m].url != "" && endpoints[m].url[0] == '/'
  }

  lemma ByMethodIsRooted(endpoints: seq<Endpoint>)
    requires forall e | e in endpoints :: e.url != "" && e.url[0] == '/'
    ensures Rooted(ByMethod(endpoints))
  {
    forall m | m in ByMethod(endpoints)
      ensures ByMethod(endpoints)[m].name == m && ByMethod(endpoints)[m] in endpoints
    {
      LastEndpointCounts(endpoints, m);
    }
  }

  /** A dotted name says which type and which method it is. */
  lemma DottedIsInjective(t: string, m: string, t': string, m': string)
    requires '.' !in t && '.' !in t' && Dotted(t, m) == Dotted(t', m')
    ensures t == t' && m == m'
  {
    var s := Dotted(t, m);
    assert t == s[..|t|] && t' == s[..|t'|] && s[|t|] == '.' && s[|t'|] == '.';
    assert forall i | 0 <= i < |t| :: s[i] == t[i] && t[i] in t;
    assert forall i | 0 <= i < |t'| :: s[i] == t'[i] && t'[i] in t';
    assert |t| == |t'|;
    assert m == s[|t| + 1..] && m' == s[|t'| + 1..];
  }

  function Entry(t: Table, name: string): Option<Handler> { if name in t then Some(t[name]) else None }

  /** What one method puts under a dotted name. */
  lemma MethodEntry(t: Table, s: Service, m: string, endpoints: map<string, Endpoint>, ty: string, me: string)
    requires Plain(s.name) && Plain(ty) && Rooted(endpoints)
    ensures Entry(WithMethod(t, s, m, Some(endpoints)), Dotted(ty, me)) ==
            if s.name == ty && m == me && Dotted(ty, me) in endpoints
            then Some(Handler(s, me, endpoints[Dotted(ty, me)].clientStream, endpoints[Dotted(ty, me)].serverStream))
            else Entry(t, Dotted(ty, me))
  {
    var name := Dotted(s.name, m);
    if name == Dotted(ty, me) {
      DottedIsInjective(s.name, m, ty, me);
    }
    assert Dotted(ty, me)[0] == ty[0] && ty[0] in ty;
  }

  lemma {:induction false} MethodsEntry(t: Table, s: Service, k: nat, endpoints: map<string, Endpoint>, ty: string, me: string)
    requires Plain(s.name) && Plain(ty) && Rooted(endpoints) && k <= |s.methods|
    ensures Entry(WithMethods(t, s, k, Some(endpoints)), Dotted(ty, me)) ==
            if s.name == ty && me in s.methods[..k] && Dotted(ty, me) in endpoints
            then Some(Handler(s, me, endpoints[Dotted(ty, me)].clientStream, endpoints[Dotted(ty, me)].serverStream))
            else Entry(t, Dotted(ty, me))
  {
    if k > 0 {
      MethodsEntry(t, s, k - 1, endpoints, ty, me);
      MethodEntry(WithMethods(t, s, k - 1, Some(endpoints)), s, s.methods[k - 1], endpoints, ty, me);
      assert s.methods[..k] == s.methods[..k - 1] + [s.methods[k - 1]];
    }
  }

  ghost predicate DistinctNames(list: seq<Service>) {
    forall i, j :: 0 <= i < j < |list| ==> list[i].name != list[j].name
  }

  /** The table holds, under T.M, the handler of method M of T, if T has it and an endpoint names it. */
  lemma {:induction false} ServicesEntry(list: seq<Service>, endpoints: map<string, Endpoint>, s: Service, me: string)
    requires (forall x | x in list :: Plain(x.name)) && DistinctNames(list) && Rooted(endpoints) && Plain(s.name)
    requires s in list || forall x | x in list :: x.name != s.name
    ensures Entry(WithServices(map[], list, Some(endpoints)), Dotted(s.name, me)) ==
            if s in list && me in s.methods && Dotted(s.name, me) in endpoints
            then Some(Handler(s, me, endpoints[Dotted(s.name, me)].clientStream, endpoints[Dotted(s.name, me)].serverStream))
            else None
  {
    if list != [] {
      var n := |list| - 1;
      var last := list[n];
      assert list == list[..n] + [last] && last in list;
      ServicesEntry(list[..n], endpoints, s, me);
      MethodsEntry(WithServices(map[], list[..n], Some(endpoints)), last, |last.methods|, endpoints, s.name, me);
      assert last.methods[..|last.methods|] == last.methods;
    }
  }

  /** The endpoint of method `m` of `s` has `key` as its URL. */
  predicate ServedAt(s: Service, m: string, endpoints: map<string, Endpoint>, key: string) {
    Dotted(s.name, m) in endpoints && endpoints[Dotted(s.name, m)].url == key
  }

  function HandlerOf(s: Service, m: string, endpoints: map<string, Endpoint>): Handler
    requires Dotted(s.name, m) in endpoints
  {
    Handler(s, m, endpoints[Dotted(s.name, m)].clientStream, endpoints[Dotted(s.name, m)].serverStream)
  }

  /** What one method puts under a URL; of two with the same URL the later counts. */
  lemma MethodUrl(t: Table, s: Service, m: string, endpoints: map<string, Endpoint>, key: string)
    requires Plain(s.name) && Rooted(endpoints) && key != "" && key[0] == '/'
    ensures Entry(WithMethod(t, s, m, Some(endpoints)), key) ==
            if ServedAt(s, m, endpoints, key) then Some(HandlerOf(s, m, endpoints)) else Entry(t, key)
  {
    assert Dotted(s.name, m)[0] == s.name[0] && s.name[0] in s.name;
  }

  /** `h` is the handler of a listed method with that URL. */
  ghost predicate Serves(list: seq<Service>, endpoints: map<string, Endpoint>, key: string, h: Handler) {
    h.service in list && h.name in h.service.methods && ServedAt(h.service, h.name, endpoints, key)
    && h == HandlerOf(h.service, h.name, endpoints)
  }

  ghost predicate AnyServed(list: seq<Service>, endpoints: map<string, Endpoint>, key: string) {
    exists h :: Serves(list, endpoints, key, h)
  }

  lemma {:induction false} MethodsUrls(t: Table, s: Service, k: nat, endpoints: map<string, Endpoint>, key: string)
    requires Plain(s.name) && Rooted(endpoints) && k <= |s.methods| && key != "" && key[0] == '/'
    ensures var e := Entry(WithMethods(t, s, k, Some(endpoints)), key);
            if exists j :: 0 <= j < k && ServedAt(s, s.methods[j], endpoints, key)
            then e.Some? && Serves([s], endpoints, key, e.value) else e == Entry(t, key)
  {
    if k > 0 {
      MethodsUrls(t, s, k - 1, endpoints, key);
      MethodUrl(WithMethods(t, s, k - 1, Some(endpoints)), s, s.methods[k - 1], endpoints, key);
    }
  }

  /** Under a rooted name the table holds a method with that URL, exactly if there is one. */
  lemma {:induction false} ServicesUrls(list: seq<Service>, endpoints: map<string, Endpoint>, key: string)
    requires (forall x | x in list :: Plain(x.name)) && Rooted(endpoints) && key != "" && key[0] == '/'
    ensures var e := Entry(WithServices(map[], list, Some(endpoints)), key);
            (e.Some? <==> AnyServed(list, endpoints, key)) && (e.Some? ==> Serves(list, endpoints, key, e.value))
  {
    if list != [] {
      var n := |list| - 1;
      var rest, last := list[..n], list[n];
      assert list == rest + [last];
      ServicesUrls(rest, endpoints, key);
      MethodsUrls(WithServices(map[], rest, Some(endpoints)), last, |last.methods|, endpoints, key);
      forall h | Serves(list, endpoints, key, h)
        ensures Serves(rest, endpoints, key, h) || exists j :: 0 <= j < |last.methods| && ServedAt(last, last.methods[j], endpoints, key)
      {
        if h.service !in rest {
          var j :| 0 <= j < |last.methods| && last.methods[j] == h.name;
        }
      }
      var e := Entry(WithServices(map[], list, Some(endpoints)), key);
      assert e.Some? ==> Serves(list, endpoints, key, e.value);
    }
  }

  /** Without a list of endpoints every method is served by its name, and as no stream. */
  lemma {:induction false} NamesServe(t: Table, s: Service, k: nat, me: string)
    requires k <= |s.methods|
    ensures Entry(WithMethods(t, s, k, None), Dotted(s.name, me)) ==
            if me in s.methods[..k] then Some(Handler(s, me, false, false)) else Entry(t, Dotted(s.name, me))
  {
    if k > 0 {
      NamesServe(t, s, k - 1, me);
      assert s.methods[..k] == s.methods[..k - 1] + [s.methods[k - 1]];
      assert Dotted(s.name, s.methods[k - 1])[|s.name| + 1..] == s.methods[k - 1];
      assert Dotted(s.name, me)[|s.name| + 1..] == me;
    }
  }

  /** The handler is a method of a listed service, and an endpoint names it. */
  ghost predicate Genuine(list: seq<Service>, endpoints: map<string, Endpoint>, h: Handler) {
    h.service in list && h.name in h.service.methods && Dotted(h.service.name, h.name) in endpoints
  }

  ghost predicate AllGenuine(t: Table, list: seq<Service>, endpoints: map<string, Endpoint>) {
    forall key {:trigger t[key]} | key in t :: Genuine(list, endpoints, t[key])
  }

  lemma {:induction false} MethodsGenuine(t: Table, s: Service, k: nat, list: seq<Service>, endpoints: map<string, Endpoint>)
    requires AllGenuine(t, list, endpoints) && s in list && k <= |s.methods|
    ensures AllGenuine(WithMethods(t, s, k, Some(endpoints)), list, endpoints)
  {
    if k > 0 {
      MethodsGenuine(t, s, k - 1, list, endpoints);
    }
  }

  /** Whatever key finds it, a handler in the table is one that registration was asked for. */
  lemma {:induction false} ServicesGenuine(list: seq<Service>, k: nat, endpoints: map<string, Endpoint>)
    requires k <= |list|
    ensures AllGenuine(WithServices(map[], list[..k], Some(endpoints)), list, endpoints)
  {
    if k > 0 {
      ServicesGenuine(list, k - 1, endpoints);
      assert list[..k][..k - 1] == list[..k - 1];
      MethodsGenuine(WithServices(map[], list[..k - 1], Some(endpoints)), list[k - 1], |list[k - 1].methods|, list, endpoints);
    }
  }

  // ---- end to end -----------------------------------------------------------

  ghost predicate GoodRegistration(list: seq<Service>, endpoints: seq<Endpoint>) {
    && DistinctNames(list) && (forall x | x in list :: Wellformed(x))
    && forall e | e in endpoints :: e.url != "" && e.url[0] == '/'
  }

  /** What the client sends for svc and T.M, the server reads as T.M. */
  lemma PlainComesBack(svc: string, t: string, m: string)
    requires Plain(t) && Plain(m) && svc != "" && '/' !in svc
    ensures ServiceMethod(MethodToGRPC(svc, Dotted(t, m))) == Some((t, m))
    ensures MethodToGRPC(svc, Dotted(t, m)) == "/" + svc + "." + t + "/" + m
  {
    var endpoint := Dotted(t, m);
    SplitJoin([t, m], '.');
    assert Join([t, m], '.') == endpoint by {
      assert [t, m][1..] == [m];
    }
    assert endpoint[0] == t[0] && t[0] in t;
    var a := svc + "." + t;
    assert "/" + svc + "." + t + "/" + m == "/" + a + "/" + m;
    ReadsBack(a, m);
    SplitConcat(svc, t, '.');
    SplitFree(t, '.');
  }

  lemma KeyIsUrl(list: seq<Service>, endpoints: seq<Endpoint>, key: string)
    requires GoodRegistration(list, endpoints) && key != "" && key[0] == '/'
    ensures key in WithServices(map[], list, Some(ByMethod(endpoints))) ==> exists e :: e in endpoints && e.url == key
  {
    ByMethodIsRooted(endpoints);
    ServicesUrls(list, ByMethod(endpoints), key);
    forall h | Serves(list, ByMethod(endpoints), key, h) ensures exists e :: e in endpoints && e.url == key {
      LastEndpointCounts(endpoints, Dotted(h.service.name, h.name));
    }
  }

  /**
   A call of a full method that is the URL of a registered method, sent for whatever service,
   reaches a method with that URL, unless its last parts happen to name a registered method.
   */
  lemma FullMethodReachesUrl(list: seq<Service>, endpoints: seq<Endpoint>, svc: string, a: string, b: string)
    requires GoodRegistration(list, endpoints) && '/' !in a && '/' !in b && a != "" && b != ""
    requires var filed := ByMethod(endpoints);
             && AnyServed(list, filed, "/" + a + "/" + b)
             && forall t | t in Split(a, '.') :: Dotted(t, b) !in WithServices(map[], list, Some(filed))
    ensures MethodToGRPC(svc, "/" + a + "/" + b) == "/" + a + "/" + b
    ensures var filed := ByMethod(endpoints);
            var found := Lookup(WithServices(map[], list, Some(filed)), "/" + a + "/" + b);
            found.Found? && Serves(list, filed, "/" + a + "/" + b, found.handler)
  {
    var url := "/" + a + "/" + b;
    ByMethodIsRooted(endpoints);
    PassesThrough(svc, url);
    ReadsBack(a, b);
    ServicesUrls(list, ByMethod(endpoints), url);
    assert Split(a, '.')[|Split(a, '.')| - 1] in Split(a, '.');
  }

  /**
   A request for .../svc/T.M reaches the handler registered for method M of T exactly when the
   service is there with that method and an endpoint names it, for every list of services with
   different type names, every list of rooted endpoints, and every order of both. Otherwise it
   reaches nothing, or what an endpoint with the full method as its URL stands for.
   */
  lemma GateReachesHandler(list: seq<Service>, endpoints: seq<Endpoint>, uri: string, svc: string, s: Service, me: string)
    requires GoodRegistration(list, endpoints) && Plain(s.name) && Plain(me)
    requires s in list || forall x | x in list :: x.name != s.name
    requires |Split(uri, '/')| > 3 && Split(uri, '/')[2] == svc != "" && Split(uri, '/')[3] == Dotted(s.name, me)
    ensures GateNames(uri) == Routed(Names(svc, Dotted(s.name, me)))
    ensures var name, full := Dotted(s.name, me), MethodToGRPC(svc, Dotted(s.name, me));
            var found := Lookup(WithServices(map[], list, Some(ByMethod(endpoints))), full);
            && ((found.Found? && found.handler.service == s && found.handler.name == me) <==>
                  s in list && me in s.methods && Named(endpoints, name))
            && if s in list && me in s.methods && Named(endpoints, name)
            then exists e :: LastNamed(endpoints, name, e) && found == Found(Handler(s, me, e.clientStream, e.serverStream))
            else found == Unknown || exists e :: e in endpoints && e.url == full
  {
    var name := Dotted(s.name, me);
    var path := Split(uri, '/');
    assert path[2] in path;
    PlainComesBack(svc, s.name, me);
    ByMethodIsRooted(endpoints);
    ServicesEntry(list, ByMethod(endpoints), s, me);
    LastEndpointCounts(endpoints, name);
    ServicesGenuine(list, |list|, ByMethod(endpoints));
    assert list[..|list|] == list;
    KeyIsUrl(list, endpoints, MethodToGRPC(svc, name));
  }

  lemma SplitUrl(prefix: string, svc: string, endpoint: string)
    requires '/' !in prefix && '/' !in svc && '/' !in endpoint
    ensures Split("/" + prefix + "/" + svc + "/" + endpoint, '/') == ["", prefix, svc, endpoint]
  {
    SplitMethod(prefix, svc + "/" + endpoint);
    SplitConcat(svc, endpoint, '/');
    SplitFree(prefix, '/');
    SplitFree(svc, '/');
    SplitFree(endpoint, '/');
    assert "/" + prefix + "/" + (svc + "/" + endpoint) == "/" + prefix + "/" + svc + "/" + endpoint;
  }

  /** What the gate makes of a URL of the documented form, and where it then leads. */
  lemma UrlReachesHandler(list: seq<Service>, endpoints: seq<Endpoint>, prefix: string, svc: string, s: Service, me: string)
    requires GoodRegistration(list, endpoints) && s in list && me in s.methods
    requires Named(endpoints, Dotted(s.name, me)) && '/' !in prefix && '/' !in svc
    ensures var gate := GateNames("/" + prefix + "/" + svc + "/" + Dotted(s.name, me));
            if svc == "" then gate == ServiceEmpty
            else
              && gate.Routed?
              && var found := Lookup(WithServices(map[], list, Some(ByMethod(endpoints))),
                                     MethodToGRPC(gate.names.service, gate.names.endpoint));
                 found.Found? && found.handler.service == s && found.handler.name == me
  {
    var uri := "/" + prefix + "/" + svc + "/" + Dotted(s.name, me);
    SplitUrl(prefix, svc, Dotted(s.name, me));
    if svc != "" {
      GateReachesHandler(list, endpoints, uri, svc, s, me);
    }
  }
}
