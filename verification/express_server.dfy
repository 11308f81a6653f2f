/** The pure parts of the HTTP front end: building command and event payloads from a request, and
    choosing and checking credentials. Express, passport and the GitHub OAuth exchange are not
    modelled; the generated correlation id is an input. */
module ExpressServer {
  import opened Wrappers
  import opened Strings
  import opened Seqs
  import opened Json
  import opened AutomationMetadata
  import Envelopes
  import ClusterWorker

  type Arg = Envelopes.Arg

  /** The query string of a request. */
  type Query = map<string, string>

  /** The logged-in GitHub user, if any, and the access token the OAuth exchange gave it. */
  datatype User = User(accessToken: Option<string>)

  const CommandHandlerRequest: string := "command_handler_request"
  const MappedParameterPrefix: string := "mp_"
  const SecretPrefix: string := "s_"
  const GitHubSecretScheme: string := "github://"
  const DefaultBasicUser: string := "admin"

  /** `value && value.length > 0` for the query value under `key`. */
  predicate HasValue(q: Query, key: string) {
    key in q && |q[key]| > 0
  }

  function ArgNames(args: seq<Arg>): (names: seq<string>)
    ensures |names| == |args|
    ensures forall i :: 0 <= i < |args| ==> names[i] == args[i].name
  {
    if |args| == 0 then [] else [args[0].name] + ArgNames(args[1..])
  }

  function ParameterNames(ps: seq<Parameter>): seq<string> {
    if |ps| == 0 then [] else [ps[0].name] + ParameterNames(ps[1..])
  }

  function LocalKeys(ms: seq<MappedParameterDeclaration>): seq<string> {
    if |ms| == 0 then [] else [ms[0].localKey] + LocalKeys(ms[1..])
  }

  function SecretPaths(ss: seq<SecretDeclaration>): seq<string> {
    if |ss| == 0 then [] else [ss[0].path] + SecretPaths(ss[1..])
  }

  /** Declared parameters with a non-empty query value, in declaration order, valued verbatim. */
  function HydrateParameters(ps: seq<Parameter>, q: Query): (r: seq<Arg>)
    ensures forall i :: 0 <= i < |r| ==> HasValue(q, r[i].name) && r[i].value == q[r[i].name]
    ensures forall p :: p in ps ==> (HasValue(q, p.name) <==> p.name in ArgNames(r))
    ensures IsSubsequence(ArgNames(r), ParameterNames(ps))
  {
    if |ps| == 0 then []
    else
      var rest := HydrateParameters(ps[1..], q);
      if HasValue(q, ps[0].name) then
        var r := [Envelopes.Arg(ps[0].name, q[ps[0].name])] + rest;
        assert r[1..] == rest;
        r
      else rest
  }

  /** Mapped parameters read from `mp_<local_key>` and emitted under `local_key` when non-empty. */
  function HydrateMappedParameters(ms: seq<MappedParameterDeclaration>, q: Query): (r: seq<Arg>)
    ensures forall i :: 0 <= i < |r| ==>
              HasValue(q, MappedParameterPrefix + r[i].name) && r[i].value == q[MappedParameterPrefix + r[i].name]
    ensures forall m :: m in ms ==> (HasValue(q, MappedParameterPrefix + m.localKey) <==> m.localKey in ArgNames(r))
    ensures IsSubsequence(ArgNames(r), LocalKeys(ms))
  {
    if |ms| == 0 then []
    else
      var rest := HydrateMappedParameters(ms[1..], q);
      var key := MappedParameterPrefix + ms[0].localKey;
      if HasValue(q, key) then
        var r := [Envelopes.Arg(ms[0].localKey, q[key])] + rest;
        assert r[1..] == rest;
        r
      else rest
  }

  /** The value a secret is hydrated with: a non-empty `s_<path>` query value; failing that, for a
      `github://` path, the logged-in user's access token; otherwise none. */
  function SecretValue(path: string, q: Query, user: Option<User>): Option<string> {
    var key := SecretPrefix + path;
    if HasValue(q, key) then Some(q[key])
    else if StartsWith(path, GitHubSecretScheme) && user.Some? && user.value.accessToken.Some?
            && |user.value.accessToken.value| > 0 then
      user.value.accessToken
    else None
  }

  /** The secrets that have a value, in declaration order, each named by its path. */
  function HydrateSecrets(ss: seq<SecretDeclaration>, q: Query, user: Option<User>): (r: seq<Arg>)
    ensures forall i :: 0 <= i < |r| ==> SecretValue(r[i].name, q, user) == Some(r[i].value)
    ensures forall s :: s in ss ==> (SecretValue(s.path, q, user).Some? <==> s.path in ArgNames(r))
    ensures IsSubsequence(ArgNames(r), SecretPaths(ss))
  {
    if |ss| == 0 then []
    else
      var rest := HydrateSecrets(ss[1..], q, user);
      match SecretValue(ss[0].path, q, user)
      case Some(v) =>
        var r := [Envelopes.Arg(ss[0].path, v)] + rest;
        assert r[1..] == rest;
        r
      case None => rest
  }

  /** The explicit query value beats the GitHub token; the token fills in only for `github://`
      paths; a secret with neither is left out. */
  lemma SecretPrecedence(path: string, q: Query, user: Option<User>)
    ensures HasValue(q, "s_" + path) ==> SecretValue(path, q, user) == Some(q["s_" + path])
    ensures !HasValue(q, "s_" + path) && !StartsWith(path, "github://") ==> SecretValue(path, q, user).None?
    ensures !HasValue(q, "s_" + path) && StartsWith(path, "github://") ==>
              (SecretValue(path, q, user).Some? <==>
                 user.Some? && user.value.accessToken.Some? && user.value.accessToken.value != "")
    ensures SecretValue(path, q, user).Some? ==> SecretValue(path, q, user).value != ""
  {
  }

  /** The first configured team id; undefined when none is configured. */
  function FirstTeamId(teamIds: seq<string>): Option<string> {
    if |teamIds| > 0 then Some(teamIds[0]) else None
  }

  /** The command payload of a GET invocation. */
  datatype CommandRequest = CommandRequest(
    atomistType: string,
    name: string,
    parameters: seq<Arg>,
    rug: map<string, Json>,
    mappedParameters: seq<Arg>,
    secrets: seq<Arg>,
    correlationTeam: Option<string>,
    corrid: string,
    team: Option<string>)

  /** The GET route of a command handler: hydrate the declared parameters, mapped parameters and
      secrets from the query and address the first configured team. */
  function CommandFromQuery(h: CommandHandlerMetadata, q: Query, user: Option<User>, teamIds: seq<string>,
                            corrid: string): (c: CommandRequest)
    ensures c.atomistType == "command_handler_request" && c.name == h.name && c.corrid == corrid
    ensures c.team == c.correlationTeam
    ensures c.team.Some? <==> |teamIds| > 0
    ensures c.team.Some? ==> c.team.value == teamIds[0]
    ensures c.parameters == HydrateParameters(h.parameters, q)
    ensures c.rug == map[]
    ensures c.mappedParameters == HydrateMappedParameters(h.mappedParameters, q)
    ensures c.secrets == HydrateSecrets(h.secrets, q, user)
  {
    CommandRequest(CommandHandlerRequest, h.name, HydrateParameters(h.parameters, q), map[],
                   HydrateMappedParameters(h.mappedParameters, q), HydrateSecrets(h.secrets, q, user),
                   FirstTeamId(teamIds), corrid, FirstTeamId(teamIds))
  }

  function TeamJson(teamIds: seq<string>): Json {
    match FirstTeamId(teamIds)
    case Some(t) => JObj(map["id" := JStr(t)])
    case None => JObj(map["id" := JUndefined])
  }

  /** The default fields of a POST invocation, before the request body is spread over them. */
  function DefaultCommandFields(h: CommandHandlerMetadata, teamIds: seq<string>, corrid: string): map<string, Json> {
    map[
      "atomist_type" := JStr(CommandHandlerRequest),
      "name" := JStr(h.name),
      "rug" := JObj(map[]),
      "correlation_context" := JObj(map["team" := TeamJson(teamIds)]),
      "corrid" := JStr(corrid),
      "team" := TeamJson(teamIds)]
  }

  /** The POST route of a command handler: the request body's fields override the defaults. */
  function CommandFromBody(h: CommandHandlerMetadata, teamIds: seq<string>, corrid: string, body: map<string, Json>)
    : (payload: map<string, Json>)
    ensures payload.Keys == DefaultCommandFields(h, teamIds, corrid).Keys + body.Keys
    ensures forall k :: k in body ==> payload[k] == body[k]
    ensures forall k :: k in DefaultCommandFields(h, teamIds, corrid) && k !in body ==>
              payload[k] == DefaultCommandFields(h, teamIds, corrid)[k]
  {
    DefaultCommandFields(h, teamIds, corrid) + body
  }

  /** Without overriding fields, POST addresses the same handler, correlation id and team as GET,
      and carries the same empty `rug` unless the body sets one. */
  lemma PostDefaultsAgreeWithGet(h: CommandHandlerMetadata, q: Query, user: Option<User>, teamIds: seq<string>,
                                 corrid: string, body: map<string, Json>)
    requires "atomist_type" !in body && "name" !in body && "corrid" !in body && "team" !in body
    ensures var post := CommandFromBody(h, teamIds, corrid, body);
            var get := CommandFromQuery(h, q, user, teamIds, corrid);
            && post["atomist_type"] == JStr(get.atomistType)
            && post["name"] == JStr(get.name)
            && post["corrid"] == JStr(get.corrid)
            && post["team"] == JObj(map["id" := if get.team.Some? then JStr(get.team.value) else JUndefined])
            && ("rug" !in body ==> post["rug"] == JObj(get.rug))
  {
    var defaults := DefaultCommandFields(h, teamIds, corrid);
    assert defaults["atomist_type"] == JStr(CommandHandlerRequest);
    assert defaults["name"] == JStr(h.name);
    assert defaults["corrid"] == JStr(corrid);
    assert defaults["team"] == TeamJson(teamIds);
    assert defaults["rug"] == JObj(map[]);
  }

  /** The event payload of an ingestor invocation. */
  datatype EventRequest = EventRequest(
    data: Json,
    operationName: string,
    correlationId: string,
    teamId: Option<string>,
    secrets: seq<Arg>)

  /** The POST route of an ingestor: the body becomes the event data, routed to the ingestor's
      operation for the first configured team, with no secrets. */
  function EventFromBody(i: IngestorMetadata, body: Json, teamIds: seq<string>, correlationId: string)
    : (e: EventRequest)
    ensures e.data == body && e.operationName == i.route && e.correlationId == correlationId
    ensures e.teamId == FirstTeamId(teamIds) && e.secrets == []
  {
    EventRequest(body, i.route, correlationId, FirstTeamId(teamIds), [])
  }

  /** The URL an ingestor is exposed at: under `/ingest/`, its route lower-cased. */
  function IngestPath(i: IngestorMetadata): (path: string)
    ensures StartsWith(path, "/ingest/") && |path| == 8 + |i.route|
    ensures path[8..] == ToLower(i.route)
    ensures forall k :: 8 <= k < |path| ==> !IsUpper(path[k])
  {
    "/ingest/" + ToLower(i.route)
  }

  /** Two ingestors share a URL exactly when their routes agree up to case, so routes differing
      only in case collide. */
  lemma IngestPathsCollide(i: IngestorMetadata, j: IngestorMetadata)
    ensures IngestPath(i) == IngestPath(j) <==> ToLower(i.route) == ToLower(j.route)
  {
  }

  /** The envelope the dispatcher receives for an ingested event. The source dispatches even
      without a configured team, with `team_id` undefined; an envelope here always carries a team,
      so `None` stands for that undefined-team dispatch, which this model does not represent. */
  function ToIncoming(e: EventRequest): Option<Envelopes.Incoming> {
    match e.teamId
    case Some(t) => Some(Envelopes.Event(Envelopes.EventIncoming(e.data, t, e.correlationId, e.operationName, e.secrets)))
    case None => None
  }

  /** An ingested event is dispatched for the first configured team under the generated
      correlation id, so a registered worker with a coherent cache serves it with a graph client
      for that team's endpoint. */
  lemma IngestedEventTargetsFirstTeam(i: IngestorMetadata, body: Json, teamIds: seq<string>, correlationId: string,
                                      w: ClusterWorker.Worker)
    requires |teamIds| > 0
    ensures var incoming := ToIncoming(EventFromBody(i, body, teamIds, correlationId));
            && incoming.Some?
            && Envelopes.TeamIdOf(incoming.value) == teamIds[0]
            && Envelopes.CorrelationIdOf(incoming.value) == correlationId
            && (ClusterWorker.CacheCoherent(w) && (w.registration.Some? || teamIds[0] in w.graphClients) ==>
                  var client := ClusterWorker.CreateGraphClient(w, incoming.value).0;
                  client.Some? && client.value.url == ClusterWorker.GraphUrlFor(w.graphUrl, teamIds[0]))
  {
  }

  datatype BasicAuth = BasicAuth(enabled: bool, username: Option<string>, password: Option<string>)
  datatype BearerAuth = BearerAuth(enabled: bool, token: string)
  datatype GitHubAuth = GitHubAuth(enabled: bool)
  datatype AuthOptions = AuthOptions(basic: Option<BasicAuth>, bearer: Option<BearerAuth>, github: GitHubAuth)

  /** Which authentication strategies `setupAuthentication` switched on. */
  datatype AuthFlags = AuthFlags(basic: bool, bearer: bool, gitHub: bool)

  function SetupFlags(auth: Option<AuthOptions>): (f: AuthFlags)
    ensures f.basic <==> auth.Some? && auth.value.basic.Some? && auth.value.basic.value.enabled
    ensures f.bearer <==> auth.Some? && auth.value.bearer.Some? && auth.value.bearer.value.enabled
    ensures f.gitHub <==> auth.Some? && auth.value.github.enabled
  {
    match auth
    case None => AuthFlags(false, false, false)
    case Some(a) =>
      AuthFlags(a.basic.Some? && a.basic.value.enabled, a.bearer.Some? && a.bearer.value.enabled, a.github.enabled)
  }

  /** What `authenticate` does with a request: run passport strategies, require a login session, or
      nothing at all (the request is left waiting). */
  datatype AuthDecision = Strategies(names: seq<string>) | EnsureLoggedIn | NoDecision

  /** `req.headers.authorization || req.headers.Authorization`. */
  predicate HasAuthHeader(headers: map<string, string>) {
    HasValue(headers, "authorization") || HasValue(headers, "Authorization")
  }

  function Authenticate(flags: AuthFlags, headers: map<string, string>): AuthDecision {
    if HasAuthHeader(headers) then
      if flags.bearer && flags.basic then Strategies(["basic", "bearer"])
      else if flags.bearer then Strategies(["bearer"])
      else if flags.basic then Strategies(["basic"])
      else NoDecision
    else if flags.basic && !flags.gitHub then Strategies(["basic"])
    else EnsureLoggedIn
  }

  /** The decision table: with credentials in the request, exactly the enabled header strategies
      run, basic first; without, basic runs only when it is on and GitHub login is off, and
      otherwise a login session is required. No disabled strategy is ever used. */
  lemma AuthenticateDecisionTable(flags: AuthFlags, headers: map<string, string>)
    ensures var d := Authenticate(flags, headers);
            && (d.Strategies? ==> forall k :: 0 <= k < |d.names| ==>
                  (d.names[k] == "basic" && flags.basic) || (d.names[k] == "bearer" && flags.bearer))
            && (HasAuthHeader(headers) ==>
                  && (d.Strategies? <==> flags.basic || flags.bearer)
                  && (d.Strategies? ==> ("basic" in d.names <==> flags.basic) && ("bearer" in d.names <==> flags.bearer)
                                        && d.names[0] == (if flags.basic then "basic" else "bearer"))
                  && (d.NoDecision? <==> !flags.basic && !flags.bearer))
            && (!HasAuthHeader(headers) ==>
                  && (d == Strategies(["basic"]) <==> flags.basic && !flags.gitHub)
                  && (d == EnsureLoggedIn <==> !(flags.basic && !flags.gitHub)))
  {
  }

  /** The user name and password basic authentication expects: the configured ones, or `admin`
      and a generated password. */
  function BasicCredentials(b: BasicAuth, generatedPassword: string): (string, string) {
    (if b.username.Some? && |b.username.value| > 0 then b.username.value else DefaultBasicUser,
     if b.password.Some? && |b.password.value| > 0 then b.password.value else generatedPassword)
  }

  /** The basic strategy's verify callback: the user when both name and password match. */
  function VerifyBasic(expected: (string, string), username: string, password: string): (r: Option<string>)
    ensures r.Some? <==> username == expected.0 && password == expected.1
    ensures r.Some? ==> r.value == username
  {
    if expected.0 == username && expected.1 == password then Some(username) else None
  }

  /** The bearer strategy's verify callback: the token when it equals the configured one. */
  function VerifyBearer(expected: string, token: string): (r: Option<string>)
    ensures r.Some? <==> token == expected
    ensures r.Some? ==> r.value == token
  {
    if token == expected then Some(token) else None
  }

  /** Authentication only ever runs a strategy whose options section is present and enabled; with
      no options at all, a request with credentials gets no decision and one without must log in. */
  lemma ConfiguredStrategiesOnly(auth: Option<AuthOptions>, headers: map<string, string>)
    ensures var d := Authenticate(SetupFlags(auth), headers);
            && (d.Strategies? ==> auth.Some? && forall k :: 0 <= k < |d.names| ==>
                  (d.names[k] == "basic" && auth.value.basic.Some? && auth.value.basic.value.enabled)
                  || (d.names[k] == "bearer" && auth.value.bearer.Some? && auth.value.bearer.value.enabled))
            && (auth.None? ==> d == (if HasAuthHeader(headers) then NoDecision else EnsureLoggedIn))
  {
  }

  /** Basic authentication without a configured user name accepts `admin` with the password, and
      rejects every other user name. */
  lemma BasicDefaultsToAdmin(b: BasicAuth, generatedPassword: string, username: string, password: string)
    requires b.username.None? || b.username == Some("")
    ensures VerifyBasic(BasicCredentials(b, generatedPassword), username, password).Some? <==>
              username == "admin" && password == BasicCredentials(b, generatedPassword).1
  {
  }
}
