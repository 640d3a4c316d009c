/** OAuth grants: authorization codes and rotating refresh tokens over three tables, with retention.
    Sections 4.1.2 and 6 of RFC 6749, section 4.6 of RFC 7636, section 4.14.2 of RFC 9700. */
module OAuth {
  import opened Prelude
  import SqlScanner

  type Time = int
  type Secret = string

  const OFFLINE := "offline_access"

  // ---------------------------------------------------------------- scopes

  /** `split(/\s+/)` without the empty parts. */
  function Words(s: string): seq<string> { WordsFrom(s, "") }

  function WordsFrom(s: string, word: string): seq<string> {
    if s == "" then (if word == "" then [] else [word])
    else if SqlScanner.IsSpace(s[0]) then (if word == "" then [] else [word]) + WordsFrom(s[1..], "")
    else WordsFrom(s[1..], word + [s[0]])
  }

  function NormalizedScope(value: string, scope: string): Option<string> {
    if scope !in Words(value) then None
    else if exists w | w in Words(value) :: w != scope && w != OFFLINE then None
    else Some(if OFFLINE in Words(value) then scope + " " + OFFLINE else scope)
  }

  predicate PlainWord(w: string) { w != "" && forall i | 0 <= i < |w| :: !SqlScanner.IsSpace(w[i]) }

  lemma {:induction false} WordsOfPlain(w: string, done: string, rest: string)
    requires forall i | 0 <= i < |w| :: !SqlScanner.IsSpace(w[i])
    ensures WordsFrom(w + rest, done) == WordsFrom(rest, done + w)
  {
    if w == "" {
      assert w + rest == rest && done + w == done;
    } else {
      assert (w + rest)[0] == w[0] && (w + rest)[1..] == w[1..] + rest;
      WordsOfPlain(w[1..], done + [w[0]], rest);
      assert done + [w[0]] + w[1..] == done + w;
    }
  }

  lemma OneWord(w: string)
    requires PlainWord(w)
    ensures Words(w) == [w]
  {
    WordsOfPlain(w, "", "");
    assert w + "" == w && "" + w == w;
  }

  lemma TwoWords(v: string, w: string)
    requires PlainWord(v) && PlainWord(w)
    ensures Words(v + " " + w) == [v, w]
  {
    WordsOfPlain(v, "", " " + w);
    assert v + " " + w == v + (" " + w) && "" + v == v;
    assert (" " + w)[0] == ' ' && (" " + w)[1..] == w;
    OneWord(w);
  }

  /** Normalising accepts exactly the scopes made of the base scope and perhaps offline access, and
      forgets order, repetition and spacing: it is a normal form. */
  lemma NormalizedScopeIsNormal(value: string, scope: string)
    requires PlainWord(scope) && scope != OFFLINE
    ensures NormalizedScope(value, scope).Some? <==> scope in Words(value) && forall w | w in Words(value) ::
              w in {scope, OFFLINE}
    ensures var r := NormalizedScope(value, scope);
            r.Some? ==> NormalizedScope(r.value, scope) == r && (OFFLINE in Words(r.value) <==> OFFLINE in Words(value))
  {
    OneWord(scope);
    assert PlainWord(OFFLINE);
    TwoWords(scope, OFFLINE);
    hide Words;
  }

  // ---------------------------------------------------------------- tables

  datatype ClientRow = ClientRow(redirects: seq<string>, created: Time)
  datatype CodeRow = CodeRow(
    client: Secret, redirect: string, challenge: string, scope: string, resource: string, expires: Time, used: bool)
  datatype RefreshRow = RefreshRow(
    client: Secret, principal: string, scope: string, resource: string, expires: Time, revoked: bool)

  /** What an authorization granted. */
  datatype Grant = Grant(client: Secret, scope: string, resource: string)

  /** History, not columns: the random values drawn so far, what each code granted, the code each
      refresh token descends from, and the token responses each code and refresh token got. */
  datatype History = History(
    drawn: set<Secret>,
    origin: map<Secret, Grant>,
    family: map<Secret, Secret>,
    codeAnswers: map<Secret, nat>,
    refreshAnswers: map<Secret, nat>)

  datatype Store = Store(
    clients: map<Secret, ClientRow>, codes: map<Secret, CodeRow>, refreshes: map<Secret, RefreshRow>, history: History)

  const EMPTY := Store(map[], map[], map[], History({}, map[], map[], map[], map[]))

  datatype Config = Config(scope: string, resource: string, principal: string, refreshTtl: nat)

  const CODE_TTL := 300_000
  const ORPHAN_AGE := 86_400_000

  datatype Problem =
    | MissingParameter | InvalidCode | CodeBinding | PkceFailed | InvalidRefresh | RefreshBinding | UnknownClient
    | RateLimited | BadMetadata | BadRedirect | BadAuthorization | BadScope | BadTarget | BadSecret

  datatype Response =
    | Tokens(scope: string, refresh: Option<Secret>)
    | Registered(client: Secret)
    | Code(code: Secret)
    | Started
    | Error(problem: Problem)

  // ---------------------------------------------------------------- retention

  predicate DeadCode(row: CodeRow, now: Time) { row.expires < now || row.used }

  /** `pruneExpired`. */
  function PruneExpired(s: Store, now: Time): Store {
    s.(codes := map k | k in s.codes && !DeadCode(s.codes[k], now) :: s.codes[k],
       refreshes := map k | k in s.refreshes && s.refreshes[k].expires >= now :: s.refreshes[k])
  }

  predicate Orphan(s: Store, client: Secret, now: Time)
    requires client in s.clients
  {
    && s.clients[client].created < now - ORPHAN_AGE
    && (forall k | k in s.codes :: s.codes[k].client != client)
    && (forall k | k in s.refreshes :: s.refreshes[k].client != client)
  }

  /** `pruneOrphanClients`. */
  function PruneOrphans(s: Store, now: Time): Store {
    s.(clients := map k | k in s.clients && !Orphan(s, k, now) :: s.clients[k])
  }

  // ---------------------------------------------------------------- requests

  /** `drawn` is the random value a request draws, should it need one; `limited`, `valid`, `secretOk`
      stand for the checks on the rate, the metadata and the owner's secret. `Restart` is a new
      process, whose constructor prunes. */
  datatype Request =
    | Register(limited: bool, valid: bool, redirects: seq<string>, drawn: Secret)
    | Authorize(limited: bool, valid: bool, secretOk: bool, client: Secret, redirect: string, challenge: string,
        scope: string, resource: string, drawn: Secret)
    | ExchangeCode(code: Secret, client: Secret, redirect: string, verifier: string, resource: string, drawn: Secret)
    | ExchangeRefresh(refresh: Secret, client: Secret, resource: string, drawn: Secret)
    | Restart(drawn: Secret)

  function Answered(m: map<Secret, nat>, k: Secret): map<Secret, nat> { m[k := if k in m then m[k] + 1 else 1] }

  function DoRegister(s: Store, now: Time, r: Request): (Store, Response)
    requires r.Register?
  {
    if r.limited then (s, Error(RateLimited))
    else
      var s1 := PruneOrphans(PruneExpired(s, now), now);
      if !r.valid then (s1, Error(BadMetadata))
      else (s1.(clients := s1.clients[r.drawn := ClientRow(r.redirects, now)],
                history := s1.history.(drawn := s1.history.drawn + {r.drawn})), Registered(r.drawn))
  }

  /** The scope is stored as requested, not as normalised. */
  function DoAuthorize(c: Config, s: Store, now: Time, r: Request): (Store, Response)
    requires r.Authorize?
  {
    if r.limited then (s, Error(RateLimited))
    else if r.client !in s.clients then (s, Error(UnknownClient))
    else if r.redirect !in s.clients[r.client].redirects then (s, Error(BadRedirect))
    else if !r.valid then (s, Error(BadAuthorization))
    else if NormalizedScope(r.scope, c.scope).None? then (s, Error(BadScope))
    else if r.resource != c.resource then (s, Error(BadTarget))
    else if !r.secretOk then (s, Error(BadSecret))
    else
      (s.(codes := s.codes[r.drawn := CodeRow(r.client, r.redirect, r.challenge, r.scope, r.resource, now + CODE_TTL,
          false)],
          history := s.history.(drawn := s.history.drawn + {r.drawn},
                                origin :=
                                  s.history.origin[r.drawn := Grant(r.client, r.scope, r.resource)])), Code(r.drawn))
  }

  /** `issueTokens`; `family` is the authorization code the grant goes back to. */
  function Issue(c: Config, s: Store, now: Time, client: Secret, scope: string, resource: string, family: Secret,
          drawn: Secret): (Store, Response)
  {
    if client !in s.clients then (s, Error(UnknownClient))
    else if OFFLINE !in Words(scope) then (s, Tokens(scope, None))
    else
      (s.(refreshes := s.refreshes[drawn := RefreshRow(client, c.principal, scope, resource, now + c.refreshTtl,
          false)],
          history := s.history.(drawn := s.history.drawn + {drawn}, family := s.history.family[drawn := family])),
       Tokens(scope, Some(drawn)))
  }

  function UseCode(s: Store, code: Secret): Store
    requires code in s.codes
  {
    s.(codes := s.codes[code := s.codes[code].(used := true)])
  }

  function Revoke(s: Store, refresh: Secret): Store
    requires refresh in s.refreshes
  {
    s.(refreshes := s.refreshes[refresh := s.refreshes[refresh].(revoked := true)])
  }

  function NoteCode(s: Store, code: Secret, r: Response): Store {
    if r.Tokens? then s.(history := s.history.(codeAnswers := Answered(s.history.codeAnswers, code))) else s
  }

  function NoteRefresh(s: Store, refresh: Secret, r: Response): Store {
    if r.Tokens? then s.(history := s.history.(refreshAnswers := Answered(s.history.refreshAnswers, refresh))) else s
  }

  /** Why a code is refused, or none. */
  function CodeProblem(c: Config, s: Store, now: Time, s256: string -> string, r: Request): Option<Problem>
    requires r.ExchangeCode?
  {
    if r.code == "" || r.client == "" || r.redirect == "" || r.verifier == "" then Some(MissingParameter)
    else if r.code !in s.codes || s.codes[r.code].used || s.codes[r.code].expires <= now then Some(InvalidCode)
    else
      var row := s.codes[r.code];
      if row.client != r.client || row.redirect != r.redirect || row.resource != r.resource
         || r.resource != c.resource then Some(CodeBinding)
      else if s256(r.verifier) != row.challenge then Some(PkceFailed)
      else None
  }

  function DoExchangeCode(c: Config, s: Store, now: Time, s256: string -> string, r: Request): (Store, Response)
    requires r.ExchangeCode?
  {
    var problem := CodeProblem(c, s, now, s256, r);
    if problem.Some? then (s, Error(problem.value))
    else
      var row := s.codes[r.code];
      var issued := Issue(c, UseCode(s, r.code), now, r.client, row.scope, row.resource, r.code, r.drawn);
      (NoteCode(issued.0, r.code, issued.1), issued.1)
  }

  function RefreshProblem(c: Config, s: Store, now: Time, r: Request): Option<Problem>
    requires r.ExchangeRefresh?
  {
    if r.refresh == "" || r.client == "" then Some(MissingParameter)
    else if r.refresh !in s.refreshes || s.refreshes[r.refresh].revoked || s.refreshes[r.refresh].expires <= now then
      Some(InvalidRefresh)
    else
      var row := s.refreshes[r.refresh];
      if row.client != r.client || row.resource != r.resource || r.resource != c.resource
         || row.principal != c.principal then Some(RefreshBinding)
      else None
  }

  function FamilyOf(h: History, refresh: Secret): Secret { if refresh in h.family then h.family[refresh] else "" }

  function DoExchangeRefresh(c: Config, s: Store, now: Time, r: Request): (Store, Response)
    requires r.ExchangeRefresh?
  {
    var problem := RefreshProblem(c, s, now, r);
    if problem.Some? then (s, Error(problem.value))
    else
      var row := s.refreshes[r.refresh];
      var issued :=
        Issue(c, Revoke(s, r.refresh), now, r.client, row.scope, row.resource, FamilyOf(s.history, r.refresh), r.drawn);
      (NoteRefresh(issued.0, r.refresh, issued.1), issued.1)
  }

  function Handle(c: Config, s: Store, now: Time, s256: string -> string, r: Request): (Store, Response) {
    match r
    case Register(_, _, _, _) => DoRegister(s, now, r)
    case Authorize(_, _, _, _, _, _, _, _, _) => DoAuthorize(c, s, now, r)
    case ExchangeCode(_, _, _, _, _, _) => DoExchangeCode(c, s, now, s256, r)
    case ExchangeRefresh(_, _, _, _) => DoExchangeRefresh(c, s, now, r)
    case Restart(_) => (PruneExpired(s, now), Started)
  }

  // ---------------------------------------------------------------- the service

  class OAuthService {
    const config: Config
    var clients: map<Secret, ClientRow>
    var codes: map<Secret, CodeRow>
    var refreshes: map<Secret, RefreshRow>
    ghost var history: History

    ghost function Tables(): Store
      reads this
    {
      Store(clients, codes, refreshes, history)
    }

    /** The service opens on existing tables and prunes them first. */
    constructor (config: Config, clients: map<Secret, ClientRow>, codes: map<Secret, CodeRow>,
            refreshes: map<Secret, RefreshRow>, ghost history: History, now: Time)
      ensures this.config == config && Tables() == PruneExpired(Store(clients, codes, refreshes, history), now)
    {
      this.config, this.clients, this.codes, this.refreshes, this.history := config, clients, codes, refreshes, history;
      new;
      RemoveExpired(now);
    }

    method RemoveExpired(now: Time)
      modifies this`codes, this`refreshes
      ensures Tables() == PruneExpired(old(Tables()), now)
    {
      codes := map k | k in codes && !DeadCode(codes[k], now) :: codes[k];
      refreshes := map k | k in refreshes && refreshes[k].expires >= now :: refreshes[k];
    }

    method RemoveOrphans(now: Time)
      modifies this`clients
      ensures Tables() == PruneOrphans(old(Tables()), now)
    {
      var referenced := (set k | k in codes :: codes[k].client) + (set k | k in refreshes :: refreshes[k].client);
      clients := map k | k in clients && !(clients[k].created < now - ORPHAN_AGE && k !in referenced) :: clients[k];
      assert clients == PruneOrphans(old(Tables()), now).clients;
    }

    method HandleRegister(now: Time, r: Request) returns (out: Response)
      requires r.Register?
      modifies this
      ensures (Tables(), out) == DoRegister(old(Tables()), now, r)
    {
      if r.limited { return Error(RateLimited); }
      RemoveExpired(now);
      RemoveOrphans(now);
      if !r.valid { return Error(BadMetadata); }
      clients := clients[r.drawn := ClientRow(r.redirects, now)];
      history := history.(drawn := history.drawn + {r.drawn});
      return Registered(r.drawn);
    }

    method AuthorizePost(now: Time, r: Request) returns (out: Response)
      requires r.Authorize?
      modifies this
      ensures (Tables(), out) == DoAuthorize(config, old(Tables()), now, r)
    {
      hide NormalizedScope;
      if r.limited { return Error(RateLimited); }
      if r.client !in clients { return Error(UnknownClient); }
      if r.redirect !in clients[r.client].redirects { return Error(BadRedirect); }
      if !r.valid { return Error(BadAuthorization); }
      if NormalizedScope(r.scope, config.scope).None? { return Error(BadScope); }
      if r.resource != config.resource { return Error(BadTarget); }
      if !r.secretOk { return Error(BadSecret); }
      codes := codes[r.drawn := CodeRow(r.client, r.redirect, r.challenge, r.scope, r.resource, now + CODE_TTL, false)];
      history := history.(drawn := history.drawn + {r.drawn},
          origin := history.origin[r.drawn := Grant(r.client, r.scope, r.resource)]);
      return Code(r.drawn);
    }

    method IssueTokens(now: Time, client: Secret, scope: string, resource: string, ghost family: Secret, drawn: Secret)
      returns (out: Response)
      modifies this`refreshes, this`history
      ensures (Tables(), out) == Issue(config, old(Tables()), now, client, scope, resource, family, drawn)
    {
      hide Words;
      if client !in clients { return Error(UnknownClient); }
      if OFFLINE !in Words(scope) { return Tokens(scope, None); }
      refreshes :=
        refreshes[drawn := RefreshRow(client, config.principal, scope, resource, now + config.refreshTtl, false)];
      history := history.(drawn := history.drawn + {drawn}, family := history.family[drawn := family]);
      return Tokens(scope, Some(drawn));
    }

    /** The conditional UPDATE always changes the row it has just read. */
    method ExchangeAuthorizationCode(now: Time, s256: string -> string, r: Request) returns (out: Response)
      requires r.ExchangeCode?
      modifies this
      ensures (Tables(), out) == DoExchangeCode(config, old(Tables()), now, s256, r)
    {
      hide Issue, Words, Answered;
      if r.code == "" || r.client == "" || r.redirect == "" || r.verifier == "" { return Error(MissingParameter); }
      if r.code !in codes || codes[r.code].used || codes[r.code].expires <= now { return Error(InvalidCode); }
      var row := codes[r.code];
      if row.client != r.client || row.redirect != r.redirect || row.resource != r.resource
         || r.resource != config.resource {
        return Error(CodeBinding);
      }
      if s256(r.verifier) != row.challenge { return Error(PkceFailed); }
      var changed := r.code in codes && !codes[r.code].used;
      codes := codes[r.code := row.(used := true)];
      if !changed { return Error(InvalidCode); }
      out := IssueTokens(now, r.client, row.scope, row.resource, r.code, r.drawn);
      if out.Tokens? { history := history.(codeAnswers := Answered(history.codeAnswers, r.code)); }
    }

    method ExchangeRefreshToken(now: Time, r: Request) returns (out: Response)
      requires r.ExchangeRefresh?
      modifies this
      ensures (Tables(), out) == DoExchangeRefresh(config, old(Tables()), now, r)
    {
      hide Issue, Words, Answered;
      if r.refresh == "" || r.client == "" { return Error(MissingParameter); }
      if r.refresh !in refreshes || refreshes[r.refresh].revoked || refreshes[r.refresh].expires <= now {
        return Error(InvalidRefresh);
      }
      var row := refreshes[r.refresh];
      if row.client != r.client || row.resource != r.resource || r.resource != config.resource
         || row.principal != config.principal {
        return Error(RefreshBinding);
      }
      var changed := r.refresh in refreshes && !refreshes[r.refresh].revoked;
      refreshes := refreshes[r.refresh := row.(revoked := true)];
      if !changed { return Error(InvalidRefresh); }
      out := IssueTokens(now, r.client, row.scope, row.resource, FamilyOf(history, r.refresh), r.drawn);
      if out.Tokens? { history := history.(refreshAnswers := Answered(history.refreshAnswers, r.refresh)); }
    }
  }

  // ---------------------------------------------------------------- the invariant

  ghost predicate ClientsThere(s: Store) {
    && (forall k | k in s.codes :: s.codes[k].client in s.clients)
    && (forall k | k in s.refreshes :: s.refreshes[k].client in s.clients)
  }

  /** A code answered is used; codes come from recorded authorizations, unchanged. */
  ghost predicate CodesOk(s: Store) {
    && (forall k | k in s.codes :: CodeOk(s.codes[k], k, s.history))
    && (forall k | k in s.history.codeAnswers :: s.history.codeAnswers[k] == 1 && k in s.history.drawn)
    && (forall k | k in s.history.origin :: k in s.history.drawn)
  }

  ghost predicate CodeOk(row: CodeRow, k: Secret, h: History) {
    && k in h.origin && h.origin[k] == Grant(row.client, row.scope, row.resource)
    && (!row.used ==> k !in h.codeAnswers && forall f | f in h.family :: h.family[f] != k)
  }

  ghost predicate RefreshesOk(s: Store) {
    && (forall k | k in s.refreshes :: RefreshOk(s.refreshes[k], k, s.history))
    && (forall k | k in s.history.refreshAnswers :: s.history.refreshAnswers[k] == 1 && k in s.history.drawn)
    && (forall k | k in s.history.family :: k in s.history.drawn && s.history.family[k] in s.history.origin)
  }

  /** A refresh token belongs to a family and carries what its authorization granted. */
  ghost predicate RefreshOk(row: RefreshRow, k: Secret, h: History) {
    && k in h.family && h.family[k] in h.origin && h.origin[h.family[k]] == Grant(row.client, row.scope, row.resource)
    && (!row.revoked ==> k !in h.refreshAnswers)
  }

  /** At most one token of a family is not revoked. */
  ghost predicate OneLive(s: Store) {
    forall j, k | j in s.refreshes && k in s.refreshes && j in s.history.family && k in s.history.family
                  && !s.refreshes[j].revoked && !s.refreshes[k].revoked
                     && s.history.family[j] == s.history.family[k] :: j == k
  }

  ghost predicate Inv(s: Store) { ClientsThere(s) && CodesOk(s) && RefreshesOk(s) && OneLive(s) }

  // ---------------------------------------------------------------- every request keeps it

  lemma PruneExpiredKeeps(s: Store, now: Time)
    requires Inv(s)
    ensures Inv(PruneExpired(s, now))
  {
    hide CodeOk, RefreshOk, DeadCode;
  }

  lemma PruneOrphansKeeps(s: Store, now: Time)
    requires Inv(s)
    ensures Inv(PruneOrphans(s, now))
  {
    hide CodeOk, RefreshOk;
  }

  lemma DrawnGrows(h: History, drawn: Secret, s: Store)
    requires Inv(s) && s.history == h
    ensures Inv(s.(history := h.(drawn := h.drawn + {drawn})))
  {
    var s' := s.(history := h.(drawn := h.drawn + {drawn}));
    forall k | k in s.codes ensures CodeOk(s.codes[k], k, s'.history) { assert CodeOk(s.codes[k], k, h); }
    forall k | k in s.refreshes ensures RefreshOk(s.refreshes[k], k, s'.history) {
      assert RefreshOk(s.refreshes[k], k, h);
    }
  }

  lemma NewClientKeeps(s: Store, client: Secret, row: ClientRow)
    requires Inv(s)
    ensures Inv(s.(clients := s.clients[client := row]))
  {
    hide CodeOk, RefreshOk;
  }

  lemma RegisterKeeps(s: Store, now: Time, r: Request)
    requires Inv(s) && r.Register?
    ensures Inv(DoRegister(s, now, r).0)
  {
    if r.limited { return; }
    var s1 := PruneOrphans(PruneExpired(s, now), now);
    PruneExpiredKeeps(s, now);
    PruneOrphansKeeps(PruneExpired(s, now), now);
    hide PruneExpired, PruneOrphans, Inv;
    DrawnGrows(s1.history, r.drawn, s1);
    NewClientKeeps(s1.(history := s1.history.(drawn := s1.history.drawn + {r.drawn})), r.drawn,
        ClientRow(r.redirects, now));
  }

  lemma AuthorizeKeeps(c: Config, s: Store, now: Time, r: Request)
    requires Inv(s) && r.Authorize? && r.drawn !in s.history.drawn
    ensures Inv(DoAuthorize(c, s, now, r).0)
  {
    hide NormalizedScope, Inv;
    if DoAuthorize(c, s, now, r).1.Code? {
      NewCodeKeeps(s, r.drawn, CodeRow(r.client, r.redirect, r.challenge, r.scope, r.resource, now + CODE_TTL, false));
    }
  }

  lemma NewCodeKeeps(s: Store, code: Secret, row: CodeRow)
    requires Inv(s) && code !in s.history.drawn && row.client in s.clients && !row.used
    ensures Inv(s.(codes := s.codes[code := row],
                   history := s.history.(drawn := s.history.drawn + {code},
                       origin := s.history.origin[code := Grant(row.client, row.scope, row.resource)])))
  {
    var h' := s.history.(drawn := s.history.drawn + {code},
        origin := s.history.origin[code := Grant(row.client, row.scope, row.resource)]);
    var codes' := s.codes[code := row];
    forall k | k in codes' ensures CodeOk(codes'[k], k, h') {
      if k != code { assert CodeOk(s.codes[k], k, s.history); }
    }
    forall k | k in s.refreshes ensures RefreshOk(s.refreshes[k], k, h') {
      assert RefreshOk(s.refreshes[k], k, s.history);
    }
    hide CodeOk, RefreshOk;
  }

  /** The code is spent: its row is used and its one answer noted. */
  lemma SpendCode(s: Store, code: Secret)
    requires Inv(s) && code in s.codes && !s.codes[code].used
    ensures var s' := UseCode(s, code).(history := s.history.(codeAnswers := Answered(s.history.codeAnswers, code)));
            Inv(s') && Inv(UseCode(s, code)) && forall f | f in s.history.family :: s.history.family[f] != code
  {
    var s' := UseCode(s, code).(history := s.history.(codeAnswers := Answered(s.history.codeAnswers, code)));
    assert CodeOk(s.codes[code], code, s.history);
    forall k | k in s.codes ensures CodeOk(s'.codes[k], k, s'.history) && CodeOk(s'.codes[k], k, s.history) {
      assert CodeOk(s.codes[k], k, s.history);
    }
    forall k | k in s.refreshes ensures RefreshOk(s.refreshes[k], k, s'.history) {
      assert RefreshOk(s.refreshes[k], k, s.history);
    }
  }

  lemma SpendRefresh(s: Store, refresh: Secret)
    requires Inv(s) && refresh in s.refreshes && !s.refreshes[refresh].revoked
    ensures var s' :=
      Revoke(s, refresh).(history := s.history.(refreshAnswers := Answered(s.history.refreshAnswers, refresh)));
            Inv(s') && Inv(Revoke(s, refresh)) && refresh in s.history.family
            && forall k | k in s'.refreshes && k in s'.history.family
               && s'.history.family[k] == s.history.family[refresh] :: s'.refreshes[k].revoked
  {
    var s' := Revoke(s, refresh).(history := s.history.(refreshAnswers := Answered(s.history.refreshAnswers, refresh)));
    assert RefreshOk(s.refreshes[refresh], refresh, s.history);
    forall k | k in s.codes ensures CodeOk(s.codes[k], k, s'.history) { assert CodeOk(s.codes[k], k, s.history); }
    forall k | k in s.refreshes
      ensures RefreshOk(s'.refreshes[k], k, s'.history) && RefreshOk(s'.refreshes[k], k, s.history)
    {
      assert RefreshOk(s.refreshes[k], k, s.history);
    }
  }

  /** A new token joins a family none of whose tokens is live, and whose code is used. */
  lemma IssueKeeps(c: Config, s: Store, now: Time, client: Secret, scope: string, resource: string, family: Secret,
          drawn: Secret)
    requires Inv(s) && drawn !in s.history.drawn && client in s.clients
    requires family in s.history.origin && s.history.origin[family] == Grant(client, scope, resource)
    requires family in s.codes ==> s.codes[family].used
    requires forall k | k in s.refreshes && k in s.history.family && s.history.family[k] == family ::
               s.refreshes[k].revoked
    ensures Inv(Issue(c, s, now, client, scope, resource, family, drawn).0)
  {
    hide Words, Inv;
    NewRefreshKeeps(s, drawn, RefreshRow(client, c.principal, scope, resource, now + c.refreshTtl, false), family);
  }

  lemma NewRefreshKeeps(s: Store, drawn: Secret, row: RefreshRow, family: Secret)
    requires Inv(s) && drawn !in s.history.drawn && row.client in s.clients && !row.revoked
    requires family in s.history.origin && s.history.origin[family] == Grant(row.client, row.scope, row.resource)
    requires family in s.codes ==> s.codes[family].used
    requires forall k | k in s.refreshes && k in s.history.family && s.history.family[k] == family ::
               s.refreshes[k].revoked
    ensures Inv(s.(refreshes := s.refreshes[drawn := row],
                   history :=
                     s.history.(drawn := s.history.drawn + {drawn}, family := s.history.family[drawn := family])))
  {
    var h' := s.history.(drawn := s.history.drawn + {drawn}, family := s.history.family[drawn := family]);
    var refreshes' := s.refreshes[drawn := row];
    forall k | k in s.codes ensures CodeOk(s.codes[k], k, h') { assert CodeOk(s.codes[k], k, s.history); }
    forall k | k in refreshes' ensures RefreshOk(refreshes'[k], k, h') {
      if k != drawn { assert RefreshOk(s.refreshes[k], k, s.history); }
    }
    hide CodeOk, RefreshOk;
  }

  lemma ExchangeCodeKeeps(c: Config, s: Store, now: Time, s256: string -> string, r: Request)
    requires Inv(s) && r.ExchangeCode? && r.drawn !in s.history.drawn
    ensures Inv(DoExchangeCode(c, s, now, s256, r).0)
    ensures DoExchangeCode(c, s, now, s256, r).1 != Error(UnknownClient)
  {
    var problem := CodeProblem(c, s, now, s256, r);
    if problem.Some? { return; }
    var row := s.codes[r.code];
    assert row.client in s.clients && CodeOk(row, r.code, s.history);
    SpendCode(s, r.code);
    var s1 := UseCode(s, r.code).(history := s.history.(codeAnswers := Answered(s.history.codeAnswers, r.code)));
    IssueKeeps(c, s1, now, r.client, row.scope, row.resource, r.code, r.drawn);
    hide Inv, Words, Answered;
  }

  lemma ExchangeRefreshKeeps(c: Config, s: Store, now: Time, r: Request)
    requires Inv(s) && r.ExchangeRefresh? && r.drawn !in s.history.drawn
    ensures Inv(DoExchangeRefresh(c, s, now, r).0)
    ensures DoExchangeRefresh(c, s, now, r).1 != Error(UnknownClient)
  {
    var problem := RefreshProblem(c, s, now, r);
    if problem.Some? { return; }
    var row := s.refreshes[r.refresh];
    assert row.client in s.clients && RefreshOk(row, r.refresh, s.history);
    var family := s.history.family[r.refresh];
    SpendRefresh(s, r.refresh);
    var s1 :=
      Revoke(s, r.refresh).(history := s.history.(refreshAnswers := Answered(s.history.refreshAnswers, r.refresh)));
    FamilyCodeUsed(s, r.refresh);
    IssueKeeps(c, s1, now, r.client, row.scope, row.resource, family, r.drawn);
    hide Inv, Words, Answered;
  }

  lemma FamilyCodeUsed(s: Store, refresh: Secret)
    requires Inv(s) && refresh in s.history.family
    ensures s.history.family[refresh] in s.codes ==> s.codes[s.history.family[refresh]].used
  {
    var f := s.history.family[refresh];
    if f in s.codes { assert CodeOk(s.codes[f], f, s.history); }
  }

  /** Every request keeps the invariant, and no token request ever finds its client gone. */
  lemma HandleKeeps(c: Config, s: Store, now: Time, s256: string -> string, r: Request)
    requires Inv(s) && r.drawn !in s.history.drawn
    ensures Inv(Handle(c, s, now, s256, r).0)
    ensures r.ExchangeCode? || r.ExchangeRefresh? ==> Handle(c, s, now, s256, r).1 != Error(UnknownClient)
  {
    hide Inv, DoRegister, DoAuthorize, DoExchangeCode, DoExchangeRefresh;
    match r
    case Register(_, _, _, _) => RegisterKeeps(s, now, r);
    case Authorize(_, _, _, _, _, _, _, _, _) => AuthorizeKeeps(c, s, now, r);
    case ExchangeCode(_, _, _, _, _, _) => ExchangeCodeKeeps(c, s, now, s256, r);
    case ExchangeRefresh(_, _, _, _) => ExchangeRefreshKeeps(c, s, now, r);
    case Restart(_) => PruneExpiredKeeps(s, now);
  }

  // ---------------------------------------------------------------- runs

  datatype Timed = Timed(request: Request, at: Time)

  /** Time does not go back, and random values are new. */
  predicate Plausible(c: Config, s: Store, s256: string -> string, run: seq<Timed>, now: Time)
    decreases |run|
  {
    run == []
    || (now <= run[0].at && run[0].request.drawn !in s.history.drawn
        && Plausible(c, Handle(c, s, run[0].at, s256, run[0].request).0, s256, run[1..], run[0].at))
  }

  function Reached(c: Config, s: Store, s256: string -> string, run: seq<Timed>): Store
    decreases |run|
  {
    if run == [] then s else Reached(c, Handle(c, s, run[0].at, s256, run[0].request).0, s256, run[1..])
  }

  function Responses(c: Config, s: Store, s256: string -> string, run: seq<Timed>): seq<Response>
    decreases |run|
  {
    if run == [] then []
    else [Handle(c, s, run[0].at, s256, run[0].request).1] + Responses(c,
        Handle(c, s, run[0].at, s256, run[0].request).0, s256, run[1..])
  }

  lemma {:induction false} RunKeeps(c: Config, s: Store, s256: string -> string, run: seq<Timed>, now: Time)
    requires Inv(s) && Plausible(c, s, s256, run, now)
    ensures Inv(Reached(c, s, s256, run))
    decreases |run|
  {
    hide Inv, Handle;
    if run != [] {
      HandleKeeps(c, s, run[0].at, s256, run[0].request);
      RunKeeps(c, Handle(c, s, run[0].at, s256, run[0].request).0, s256, run[1..], run[0].at);
    }
  }

  /** How many token responses the code, or the refresh token, gets in a run. */
  function CodeResponses(c: Config, s: Store, s256: string -> string, run: seq<Timed>, code: Secret): nat
    decreases |run|
  {
    if run == [] then 0
    else
      var out := Handle(c, s, run[0].at, s256, run[0].request);
      (if run[0].request.ExchangeCode? && run[0].request.code == code && out.1.Tokens? then 1
          else 0) + CodeResponses(c, out.0, s256, run[1..], code)
  }

  function RefreshResponses(c: Config, s: Store, s256: string -> string, run: seq<Timed>, refresh: Secret): nat
    decreases |run|
  {
    if run == [] then 0
    else
      var out := Handle(c, s, run[0].at, s256, run[0].request);
      (if run[0].request.ExchangeRefresh? && run[0].request.refresh == refresh && out.1.Tokens? then 1 else 0)
      + RefreshResponses(c, out.0, s256, run[1..], refresh)
  }

  lemma RegisterNotes(s: Store, now: Time, r: Request)
    requires r.Register?
    ensures var h := DoRegister(s, now, r).0.history;
            h.codeAnswers == s.history.codeAnswers && h.refreshAnswers == s.history.refreshAnswers
  {
    KeepsHistory(s, now);
    hide PruneExpired, PruneOrphans;
  }

  lemma AuthorizeNotes(c: Config, s: Store, now: Time, r: Request)
    requires r.Authorize?
    ensures var h := DoAuthorize(c, s, now, r).0.history;
            h.codeAnswers == s.history.codeAnswers && h.refreshAnswers == s.history.refreshAnswers
  {
    hide NormalizedScope;
  }

  lemma IssueNotes(c: Config, s: Store, now: Time, client: Secret, scope: string, resource: string, family: Secret,
          drawn: Secret)
    ensures var h := Issue(c, s, now, client, scope, resource, family, drawn).0.history;
            h.codeAnswers == s.history.codeAnswers && h.refreshAnswers == s.history.refreshAnswers
  {
    hide Words;
  }

  lemma CodeNotes(c: Config, s: Store, now: Time, s256: string -> string, r: Request)
    requires Inv(s) && r.ExchangeCode?
    ensures var out := DoExchangeCode(c, s, now, s256, r);
            && out.0.history.refreshAnswers == s.history.refreshAnswers
            && (forall k | k in s.history.codeAnswers :: k in out.0.history.codeAnswers)
            && (out.1.Tokens? ==> r.code !in s.history.codeAnswers && r.code in out.0.history.codeAnswers)
  {
    if r.code in s.codes {
      assert CodeOk(s.codes[r.code], r.code, s.history);
      var row := s.codes[r.code];
      IssueNotes(c, UseCode(s, r.code), now, r.client, row.scope, row.resource, r.code, r.drawn);
    }
    hide Inv, Issue;
  }

  lemma RefreshNotes(c: Config, s: Store, now: Time, r: Request)
    requires Inv(s) && r.ExchangeRefresh?
    ensures var out := DoExchangeRefresh(c, s, now, r);
            && out.0.history.codeAnswers == s.history.codeAnswers
            && (forall k | k in s.history.refreshAnswers :: k in out.0.history.refreshAnswers)
            && (out.1.Tokens? ==>
                 r.refresh !in s.history.refreshAnswers && r.refresh in out.0.history.refreshAnswers)
  {
    if r.refresh in s.refreshes {
      assert RefreshOk(s.refreshes[r.refresh], r.refresh, s.history);
      var row, f := s.refreshes[r.refresh], FamilyOf(s.history, r.refresh);
      IssueNotes(c, Revoke(s, r.refresh), now, r.client, row.scope, row.resource, f, r.drawn);
    }
    hide Inv, Issue;
  }

  lemma AnswersNoted(c: Config, s: Store, now: Time, s256: string -> string, r: Request)
    requires Inv(s)
    ensures var out := Handle(c, s, now, s256, r);
            && (forall k | k in s.history.codeAnswers :: k in out.0.history.codeAnswers)
            && (forall k | k in s.history.refreshAnswers :: k in out.0.history.refreshAnswers)
            && (r.ExchangeCode? && out.1.Tokens? ==>
                 r.code !in s.history.codeAnswers && r.code in out.0.history.codeAnswers)
            && (r.ExchangeRefresh? && out.1.Tokens? ==>
                 r.refresh !in s.history.refreshAnswers && r.refresh in out.0.history.refreshAnswers)
  {
    hide Inv, DoRegister, DoAuthorize, DoExchangeCode, DoExchangeRefresh;
    match r
    case Register(_, _, _, _) => RegisterNotes(s, now, r);
    case Authorize(_, _, _, _, _, _, _, _, _) => AuthorizeNotes(c, s, now, r);
    case ExchangeCode(_, _, _, _, _, _) => CodeNotes(c, s, now, s256, r);
    case ExchangeRefresh(_, _, _, _) => RefreshNotes(c, s, now, r);
    case Restart(_) =>
  }

  lemma KeepsHistory(s: Store, now: Time)
    ensures PruneOrphans(PruneExpired(s, now), now).history == s.history
  {}

  /** Each authorization code gets at most one token response, over every run with retention, and so
      does each refresh token. */
  lemma {:induction false} OneTokenResponseEach(c: Config, s: Store, s256: string -> string, run: seq<Timed>, now: Time,
          k: Secret)
    requires Inv(s) && Plausible(c, s, s256, run, now)
    ensures CodeResponses(c, s, s256, run, k) <= if k in s.history.codeAnswers then 0 else 1
    ensures RefreshResponses(c, s, s256, run, k) <= if k in s.history.refreshAnswers then 0 else 1
    decreases |run|
  {
    hide Inv, Handle;
    if run != [] {
      HandleKeeps(c, s, run[0].at, s256, run[0].request);
      AnswersNoted(c, s, run[0].at, s256, run[0].request);
      OneTokenResponseEach(c, Handle(c, s, run[0].at, s256, run[0].request).0, s256, run[1..], run[0].at, k);
    }
  }

  // ---------------------------------------------------------------- what a reached state satisfies

  /** A token response to a code: the code was live and is spent, every binding matched, the verifier
      fits the challenge, and the grant is the authorization's. */
  lemma CodeResponseIsBound(c: Config, s: Store, now: Time, s256: string -> string, r: Request)
    requires Inv(s) && r.ExchangeCode? && r.drawn !in s.history.drawn
    ensures var out := Handle(c, s, now, s256, r);
            out.1.Tokens? ==>
              && r.code in s.codes && !s.codes[r.code].used && now < s.codes[r.code].expires && out.0.codes[r.code].used
              && s.codes[r.code].redirect == r.redirect && s256(r.verifier) == s.codes[r.code].challenge
              && r.code in s.history.origin && s.history.origin[r.code] == Grant(r.client, out.1.scope, r.resource)
              && r.resource == c.resource
              && (out.1.refresh.Some? <==> OFFLINE in Words(out.1.scope))
              && (out.1.refresh.Some? ==>
                   out.1.refresh.value in out.0.refreshes && out.0.history.family[out.1.refresh.value] == r.code)
  {
    if r.code in s.codes { assert CodeOk(s.codes[r.code], r.code, s.history); }
    hide Inv, Words;
  }

  /** Rotation keeps client, resource and scope: a new refresh token carries what the one it replaces
      carried, in the same family, and the old one is revoked. */
  lemma RotationKeepsGrant(c: Config, s: Store, now: Time, s256: string -> string, r: Request)
    requires Inv(s) && r.ExchangeRefresh? && r.drawn !in s.history.drawn
    ensures var out := Handle(c, s, now, s256, r);
            out.1.Tokens? ==>
              && r.refresh in s.refreshes && !s.refreshes[r.refresh].revoked && now < s.refreshes[r.refresh].expires
              && out.0.refreshes[r.refresh].revoked
              && r.refresh in s.history.family && s.history.family[r.refresh] in s.history.origin
              && s.history.origin[s.history.family[r.refresh]] == Grant(r.client, out.1.scope, r.resource)
              && (out.1.refresh.Some? ==>
                    && out.1.refresh.value in out.0.refreshes && !out.0.refreshes[out.1.refresh.value].revoked
                    && out.0.history.family[out.1.refresh.value] == s.history.family[r.refresh]
                    && out.0.refreshes[out.1.refresh.value].client == s.refreshes[r.refresh].client
                    && out.0.refreshes[out.1.refresh.value].scope == s.refreshes[r.refresh].scope
                    && out.0.refreshes[out.1.refresh.value].resource == s.refreshes[r.refresh].resource)
  {
    if r.refresh in s.refreshes { assert RefreshOk(s.refreshes[r.refresh], r.refresh, s.history); }
    hide Inv, Words;
  }

  /** Over every run from empty tables, each authorization has at most one refresh token that is not
      revoked. */
  lemma OneLiveTokenPerAuthorization(c: Config, s256: string -> string, run: seq<Timed>, now: Time, j: Secret,
          k: Secret)
    requires Plausible(c, EMPTY, s256, run, now)
    requires var s := Reached(c, EMPTY, s256, run); j in s.refreshes && k in s.refreshes
    ensures var s := Reached(c, EMPTY, s256, run);
            j in s.history.family && k in s.history.family
            && (s.history.family[j] == s.history.family[k] && !s.refreshes[j].revoked && !s.refreshes[k].revoked ==>
                 j == k)
  {
    var s := Reached(c, EMPTY, s256, run);
    assert Inv(EMPTY);
    RunKeeps(c, EMPTY, s256, run, now);
    hide Reached;
    assert RefreshOk(s.refreshes[j], j, s.history) && RefreshOk(s.refreshes[k], k, s.history);
    hide RefreshOk, CodesOk, ClientsThere;
  }

  // ---------------------------------------------------------------- when a request is granted

  /** A client is registered exactly when the rate and its metadata allow it. */
  lemma RegisterIff(c: Config, s: Store, now: Time, s256: string -> string, r: Request)
    requires r.Register?
    ensures var out := Handle(c, s, now, s256, r);
            && (out.1 == Registered(r.drawn) <==> !r.limited && r.valid)
            && (out.1.Registered? ==> r.drawn in out.0.clients && out.0.clients[r.drawn] == ClientRow(r.redirects, now))
            && (!out.1.Registered? ==> out.1.Error?) && (r.limited ==> out.0 == s)
  {
    hide PruneExpired, PruneOrphans;
  }

  /** What a registration that gets past the rate limit leaves of the tables: the codes not used and
      not expired, the tokens not expired, and of the clients those younger than a day or named by a
      row that is left. */
  lemma RegisterPrunesIff(c: Config, s: Store, now: Time, s256: string -> string, r: Request, k: Secret)
    requires r.Register? && !r.limited && k != r.drawn
    ensures
      var s' := Handle(c, s, now, s256, r).0;
      && (k in s'.codes <==> k in s.codes && !s.codes[k].used && now <= s.codes[k].expires)
      && (k in s'.refreshes <==> k in s.refreshes && now <= s.refreshes[k].expires)
      && (k in s'.clients <==>
           k in s.clients
           && (|| now - 86_400_000 <= s.clients[k].created
               || (exists code | code in s'.codes :: s'.codes[code].client == k)
               || (exists token | token in s'.refreshes :: s'.refreshes[token].client == k)))
  {
    PruneExpiredIff(s, now, k);
    hide PruneExpired;
  }

  lemma PruneExpiredIff(s: Store, now: Time, k: Secret)
    ensures
      var s' := PruneExpired(s, now);
      && s'.clients == s.clients
      && (k in s'.codes <==> k in s.codes && !s.codes[k].used && now <= s.codes[k].expires)
      && (k in s'.refreshes <==> k in s.refreshes && now <= s.refreshes[k].expires)
  {}

  /** A code is issued exactly when the client is registered with the redirect, the scope is the base
      scope and perhaps offline access, the resource is the configured one, and rate, PKCE parameters
      and the owner's secret are in order. The code's row keeps what was asked for. */
  lemma AuthorizeIff(c: Config, s: Store, now: Time, s256: string -> string, r: Request)
    requires r.Authorize?
    ensures var out := Handle(c, s, now, s256, r);
            && (out.1 == Code(r.drawn) <==>
                 && !r.limited && r.valid && r.secretOk && r.resource == c.resource
                 && r.client in s.clients && r.redirect in s.clients[r.client].redirects
                 && c.scope in Words(r.scope) && forall w | w in Words(r.scope) :: w in {c.scope, OFFLINE})
            && (out.1.Code? ==>
                 r.drawn in out.0.codes && out.0.codes[r.drawn] ==
                   CodeRow(r.client, r.redirect, r.challenge, r.scope, r.resource, now + 300_000, false))
            && (!out.1.Code? ==> out.1.Error? && out.0 == s)
  {
    hide Words;
  }

  /** What a token response hands out: a refresh token exactly for an offline scope, live, bound to
      the client, the principal and the resource, for its lifetime. */
  predicate Granted(c: Config, out: (Store, Response), now: Time, client: Secret, scope: string, resource: string,
      drawn: Secret)
  {
    if OFFLINE in Words(scope) then
      && out.1 == Tokens(scope, Some(drawn))
      && drawn in out.0.refreshes
      && out.0.refreshes[drawn] == RefreshRow(client, c.principal, scope, resource, now + c.refreshTtl, false)
    else out.1 == Tokens(scope, None)
  }

  /** A code that still works: on record, not used, not expired. */
  predicate LiveCode(s: Store, code: Secret, now: Time) {
    code in s.codes && !s.codes[code].used && now < s.codes[code].expires
  }

  /** A code gets its tokens exactly when all fields are given, it still works, client, redirect and
      resource are those of its authorization, the resource is the configured one and the verifier
      fits the challenge. Every other request leaves the tables as they are. */
  lemma CodeIff(c: Config, s: Store, now: Time, s256: string -> string, r: Request)
    requires Inv(s) && r.ExchangeCode?
    ensures
      var out := Handle(c, s, now, s256, r);
      if r.code != "" && r.client != "" && r.redirect != "" && r.verifier != ""
         && LiveCode(s, r.code, now) && s.codes[r.code].client == r.client && s.codes[r.code].redirect == r.redirect
         && s.codes[r.code].resource == r.resource == c.resource && s256(r.verifier) == s.codes[r.code].challenge
      then Granted(c, out, now, r.client, s.codes[r.code].scope, r.resource, r.drawn)
           && r.code in out.0.codes && out.0.codes[r.code].used
      else out.1.Error? && out.0 == s
  {
    hide Words, CodesOk, RefreshesOk, OneLive, Answered;
  }

  /** All of the run happens before the deadline. */
  predicate Before(run: seq<Timed>, deadline: Time) { forall i | 0 <= i < |run| :: run[i].at < deadline }

  lemma CodeStep(c: Config, s: Store, now: Time, s256: string -> string, r: Request, k: Secret)
    requires Inv(s) && r.drawn !in s.history.drawn && LiveCode(s, k, now)
    requires r.ExchangeCode? && r.code == k ==> !Handle(c, s, now, s256, r).1.Tokens?
    ensures var s' := Handle(c, s, now, s256, r).0; k in s'.codes && s'.codes[k] == s.codes[k]
  {
    RowsAreDrawn(s, k);
    match r {
      case ExchangeCode(_, _, _, _, _, _) => CodeIff(c, s, now, s256, r);
      case ExchangeRefresh(_, _, _, _) => RefreshLeavesCodes(c, s, now, s256, r);
      case Authorize(_, _, _, _, _, _, _, _, _) => hide NormalizedScope;
      case _ =>
    }
    hide Words, Answered, CodesOk, RefreshesOk, OneLive;
  }

  lemma RefreshLeavesCodes(c: Config, s: Store, now: Time, s256: string -> string, r: Request)
    requires r.ExchangeRefresh?
    ensures Handle(c, s, now, s256, r).0.codes == s.codes
  {
    hide Words, Answered;
  }

  /** A live code that is not exchanged stays on record as it is until it expires. */
  lemma {:induction false} LiveCodeStays(c: Config, s: Store, s256: string -> string, run: seq<Timed>, now: Time,
          k: Secret)
    requires Inv(s) && Plausible(c, s, s256, run, now) && LiveCode(s, k, now) && Before(run, s.codes[k].expires)
    requires CodeResponses(c, s, s256, run, k) == 0
    ensures var s' := Reached(c, s, s256, run);
            Inv(s') && k in s'.codes && s'.codes[k] == s.codes[k]
    decreases |run|
  {
    hide Inv, Handle;
    if run != [] {
      CodeStep(c, s, run[0].at, s256, run[0].request, k);
      HandleKeeps(c, s, run[0].at, s256, run[0].request);
      assert Before(run[1..], s.codes[k].expires);
      LiveCodeStays(c, Handle(c, s, run[0].at, s256, run[0].request).0, s256, run[1..], run[0].at, k);
    }
  }

  /** A code just issued is accepted when its client presents it within five minutes with the
      redirect, the resource and the verifier of its authorization, whatever was requested in
      between, unless it was exchanged already. */
  lemma FreshCodeAccepted(c: Config, s: Store, now: Time, s256: string -> string, r: Request, run: seq<Timed>,
          r': Request, later: Time)
    requires Inv(s) && r.Authorize? && r.drawn !in s.history.drawn && r.drawn != "" && r.client != ""
             && r.redirect != ""
    requires var out := Handle(c, s, now, s256, r);
             && out.1.Code? && Plausible(c, out.0, s256, run, now) && Before(run, now + 300_000)
             && CodeResponses(c, out.0, s256, run, r.drawn) == 0
    requires r'.ExchangeCode? && r'.code == r.drawn && r'.client == r.client && r'.redirect == r.redirect
             && r'.resource == r.resource && r'.verifier != "" && s256(r'.verifier) == r.challenge
    requires now <= later < now + 300_000
    ensures Handle(c, Reached(c, Handle(c, s, now, s256, r).0, s256, run), later, s256, r').1.Tokens?
  {
    var out := Handle(c, s, now, s256, r);
    AuthorizeIff(c, s, now, s256, r);
    assert out.1 == Code(r.drawn) by { AuthorizeAnswers(c, s, now, s256, r); }
    HandleKeeps(c, s, now, s256, r);
    hide Inv, Handle, Words;
    LiveCodeStays(c, out.0, s256, run, now, r.drawn);
    var s' := Reached(c, out.0, s256, run);
    hide Reached;
    CodeIff(c, s', later, s256, r');
  }

  lemma AuthorizeAnswers(c: Config, s: Store, now: Time, s256: string -> string, r: Request)
    requires r.Authorize?
    ensures var out := Handle(c, s, now, s256, r).1; out.Code? ==> out == Code(r.drawn)
  {
    hide NormalizedScope;
  }

  /** A refresh token that still works: on record, not revoked, not expired. */
  predicate LiveToken(s: Store, refresh: Secret, now: Time) {
    refresh in s.refreshes && !s.refreshes[refresh].revoked && now < s.refreshes[refresh].expires
  }

  /** A refresh token gets new tokens exactly when the fields are given, it still works, its client,
      resource and principal are those presented and configured, and the resource is the configured
      one. Every other request leaves the tables as they are. */
  lemma RefreshIff(c: Config, s: Store, now: Time, s256: string -> string, r: Request)
    requires Inv(s) && r.ExchangeRefresh? && r.drawn !in s.history.drawn
    ensures
      var out := Handle(c, s, now, s256, r);
      if r.refresh != "" && r.client != ""
         && LiveToken(s, r.refresh, now) && s.refreshes[r.refresh].client == r.client
         && s.refreshes[r.refresh].resource == r.resource == c.resource
         && s.refreshes[r.refresh].principal == c.principal
      then Granted(c, out, now, r.client, s.refreshes[r.refresh].scope, r.resource, r.drawn)
           && r.refresh in out.0.refreshes && out.0.refreshes[r.refresh].revoked
      else out.1.Error? && out.0 == s
  {
    RowsAreDrawn(s, r.refresh);
    hide Words, CodesOk, RefreshesOk, OneLive, Answered;
  }

  lemma TokenStep(c: Config, s: Store, now: Time, s256: string -> string, r: Request, k: Secret)
    requires Inv(s) && r.drawn !in s.history.drawn && LiveToken(s, k, now)
    requires r.ExchangeRefresh? && r.refresh == k ==> !Handle(c, s, now, s256, r).1.Tokens?
    ensures var s' := Handle(c, s, now, s256, r).0; k in s'.refreshes && s'.refreshes[k] == s.refreshes[k]
  {
    RowsAreDrawn(s, k);
    hide Inv, Words, Handle;
    match r
    case Register(_, _, _, _) => RegisterKeepsToken(c, s, now, s256, r, k);
    case Authorize(_, _, _, _, _, _, _, _, _) => AuthorizeKeepsToken(c, s, now, s256, r, k);
    case ExchangeCode(_, _, _, _, _, _) => CodeKeepsToken(c, s, now, s256, r, k);
    case ExchangeRefresh(_, _, _, _) => RefreshKeepsToken(c, s, now, s256, r, k);
    case Restart(_) => RestartKeepsToken(c, s, now, s256, r, k);
  }

  lemma RegisterKeepsToken(c: Config, s: Store, now: Time, s256: string -> string, r: Request, k: Secret)
    requires LiveToken(s, k, now) && r.Register?
    ensures var s' := Handle(c, s, now, s256, r).0; k in s'.refreshes && s'.refreshes[k] == s.refreshes[k]
  {}

  lemma RestartKeepsToken(c: Config, s: Store, now: Time, s256: string -> string, r: Request, k: Secret)
    requires LiveToken(s, k, now) && r.Restart?
    ensures var s' := Handle(c, s, now, s256, r).0; k in s'.refreshes && s'.refreshes[k] == s.refreshes[k]
  {}

  lemma AuthorizeKeepsToken(c: Config, s: Store, now: Time, s256: string -> string, r: Request, k: Secret)
    requires LiveToken(s, k, now) && r.Authorize?
    ensures var s' := Handle(c, s, now, s256, r).0; k in s'.refreshes && s'.refreshes[k] == s.refreshes[k]
  {
    hide NormalizedScope;
  }

  lemma CodeKeepsToken(c: Config, s: Store, now: Time, s256: string -> string, r: Request, k: Secret)
    requires LiveToken(s, k, now) && r.ExchangeCode? && r.drawn != k
    ensures var s' := Handle(c, s, now, s256, r).0; k in s'.refreshes && s'.refreshes[k] == s.refreshes[k]
  {
    hide Words, Answered;
  }

  lemma RefreshKeepsToken(c: Config, s: Store, now: Time, s256: string -> string, r: Request, k: Secret)
    requires Inv(s) && LiveToken(s, k, now) && r.ExchangeRefresh? && r.drawn != k && r.drawn !in s.history.drawn
    requires r.refresh == k ==> !Handle(c, s, now, s256, r).1.Tokens?
    ensures var s' := Handle(c, s, now, s256, r).0; k in s'.refreshes && s'.refreshes[k] == s.refreshes[k]
  {
    RefreshIff(c, s, now, s256, r);
    hide Words, Answered, CodesOk, RefreshesOk, OneLive;
  }

  /** A live token that is not exchanged stays on record as it is until it expires, whatever else is
      requested, restarts and retention included. */
  lemma {:induction false} LiveTokenStays(c: Config, s: Store, s256: string -> string, run: seq<Timed>, now: Time,
          k: Secret)
    requires Inv(s) && Plausible(c, s, s256, run, now) && LiveToken(s, k, now) && Before(run, s.refreshes[k].expires)
    requires RefreshResponses(c, s, s256, run, k) == 0
    ensures var s' := Reached(c, s, s256, run);
            Inv(s') && k in s'.refreshes && s'.refreshes[k] == s.refreshes[k]
    decreases |run|
  {
    hide Inv, Handle;
    if run != [] {
      TokenStep(c, s, run[0].at, s256, run[0].request, k);
      HandleKeeps(c, s, run[0].at, s256, run[0].request);
      assert Before(run[1..], s.refreshes[k].expires);
      LiveTokenStays(c, Handle(c, s, run[0].at, s256, run[0].request).0, s256, run[1..], run[0].at, k);
    }
  }

  /** A refresh token just issued is accepted when its client presents it within its lifetime,
      whatever was requested in between, unless it was exchanged already. */
  lemma FreshTokenAccepted(c: Config, s: Store, now: Time, s256: string -> string, r: Request, k: Secret,
          run: seq<Timed>, r': Request, later: Time)
    requires Inv(s) && (r.ExchangeCode? || r.ExchangeRefresh?) && r.drawn !in s.history.drawn && k != ""
    requires var out := Handle(c, s, now, s256, r);
             && out.1.Tokens? && out.1.refresh == Some(k)
             && Plausible(c, out.0, s256, run, now) && Before(run, now + c.refreshTtl)
             && RefreshResponses(c, out.0, s256, run, k) == 0
    requires r'.ExchangeRefresh? && r'.refresh == k && r'.client == r.client && r'.resource == r.resource
    requires now <= later < now + c.refreshTtl
    ensures Handle(c, Reached(c, Handle(c, s, now, s256, r).0, s256, run), later, s256, r').1.Tokens?
  {
    var out := Handle(c, s, now, s256, r);
    assert out.1 == Tokens(out.1.scope, Some(k));
    if r.ExchangeCode? { CodeIff(c, s, now, s256, r); } else { RefreshIff(c, s, now, s256, r); }
    HandleKeeps(c, s, now, s256, r);
    hide Inv, Handle, Words;
    LiveTokenStays(c, out.0, s256, run, now, k);
    var s' := Reached(c, out.0, s256, run);
    hide Reached;
    AcceptsToken(c, s', later, s256, r');
  }

  lemma AcceptsToken(c: Config, s: Store, now: Time, s256: string -> string, r: Request)
    requires Inv(s) && r.ExchangeRefresh? && r.refresh != "" && r.client != "" && LiveToken(s, r.refresh, now)
    requires s.refreshes[r.refresh].client == r.client && s.refreshes[r.refresh].resource == r.resource == c.resource
             && s.refreshes[r.refresh].principal == c.principal
    ensures Handle(c, s, now, s256, r).1.Tokens?
  {
    hide Words, CodesOk, RefreshesOk, OneLive, Answered;
  }

  // ---------------------------------------------------------------- retention is invisible

  /** The two tables answer alike from `now` on: only dead rows tell them apart. */
  ghost predicate Alike(s: Store, s': Store, now: Time) {
    && s'.clients == s.clients && s'.history == s.history
    && (forall k | k in s'.codes :: k in s.codes && s'.codes[k] == s.codes[k])
    && (forall k | k in s.codes && k !in s'.codes :: DeadCode(s.codes[k], now))
    && (forall k | k in s'.refreshes :: k in s.refreshes && s'.refreshes[k] == s.refreshes[k])
    && (forall k | k in s.refreshes && k !in s'.refreshes :: s.refreshes[k].expires < now)
  }

  lemma PrunedIsAlike(s: Store, now: Time)
    ensures Alike(s, PruneExpired(s, now), now)
  {}

  lemma PruningForgets(s: Store, s': Store, now: Time)
    requires Alike(s, s', now)
    ensures PruneExpired(s', now) == PruneExpired(s, now)
  {
    assert PruneExpired(s', now).codes == PruneExpired(s, now).codes;
    assert PruneExpired(s', now).refreshes == PruneExpired(s, now).refreshes;
  }

  lemma AlikeLater(s: Store, s': Store, now: Time, later: Time)
    requires Alike(s, s', now) && now <= later
    ensures Alike(s, s', later)
  {}

  lemma AlikeCodes(c: Config, s: Store, s': Store, now: Time, s256: string -> string, r: Request)
    requires Alike(s, s', now) && r.ExchangeCode?
    ensures CodeProblem(c, s, now, s256, r) == CodeProblem(c, s', now, s256, r)
  {}

  lemma AlikeRefreshes(c: Config, s: Store, s': Store, now: Time, r: Request)
    requires Alike(s, s', now) && r.ExchangeRefresh?
    ensures RefreshProblem(c, s, now, r) == RefreshProblem(c, s', now, r)
  {}

  lemma AlikeIssue(c: Config, s: Store, s': Store, now: Time, client: Secret, scope: string, resource: string,
          family: Secret, drawn: Secret)
    requires Alike(s, s', now) && drawn !in s.refreshes
    ensures var a, b := Issue(c, s, now, client, scope, resource, family, drawn),
              Issue(c, s', now, client, scope, resource, family, drawn);
            a.1 == b.1 && Alike(a.0, b.0, now)
  {
    hide Words;
  }

  lemma AlikeExchangeCode(c: Config, s: Store, s': Store, now: Time, s256: string -> string, r: Request)
    requires Alike(s, s', now) && r.ExchangeCode? && r.drawn !in s.refreshes
    ensures DoExchangeCode(c, s, now, s256, r).1 == DoExchangeCode(c, s', now, s256, r).1
    ensures Alike(DoExchangeCode(c, s, now, s256, r).0, DoExchangeCode(c, s', now, s256, r).0, now)
  {
    AlikeCodes(c, s, s', now, s256, r);
    if CodeProblem(c, s, now, s256, r).Some? { return; }
    assert r.code in s'.codes;
    hide CodeProblem;
    var row := s.codes[r.code];
    assert Alike(UseCode(s, r.code), UseCode(s', r.code), now);
    AlikeIssue(c, UseCode(s, r.code), UseCode(s', r.code), now, r.client, row.scope, row.resource, r.code, r.drawn);
    hide Issue, Answered;
  }

  lemma AlikeExchangeRefresh(c: Config, s: Store, s': Store, now: Time, r: Request)
    requires Alike(s, s', now) && r.ExchangeRefresh? && r.drawn !in s.refreshes
    ensures DoExchangeRefresh(c, s, now, r).1 == DoExchangeRefresh(c, s', now, r).1
    ensures Alike(DoExchangeRefresh(c, s, now, r).0, DoExchangeRefresh(c, s', now, r).0, now)
  {
    AlikeRefreshes(c, s, s', now, r);
    if RefreshProblem(c, s, now, r).Some? { return; }
    assert r.refresh in s'.refreshes;
    hide RefreshProblem;
    var row, f := s.refreshes[r.refresh], FamilyOf(s.history, r.refresh);
    assert Alike(Revoke(s, r.refresh), Revoke(s', r.refresh), now);
    AlikeIssue(c, Revoke(s, r.refresh), Revoke(s', r.refresh), now, r.client, row.scope, row.resource, f, r.drawn);
    hide Issue, Answered;
  }

  lemma AlikeRegister(s: Store, s': Store, now: Time, r: Request)
    requires Alike(s, s', now) && r.Register?
    ensures DoRegister(s, now, r).1 == DoRegister(s', now, r).1
    ensures Alike(DoRegister(s, now, r).0, DoRegister(s', now, r).0, now)
  {
    PruningForgets(s, s', now);
    hide PruneExpired, PruneOrphans;
  }

  lemma AlikeAuthorize(c: Config, s: Store, s': Store, now: Time, r: Request)
    requires Alike(s, s', now) && r.Authorize? && r.drawn !in s.codes
    ensures DoAuthorize(c, s, now, r).1 == DoAuthorize(c, s', now, r).1
    ensures Alike(DoAuthorize(c, s, now, r).0, DoAuthorize(c, s', now, r).0, now)
  {
    hide NormalizedScope;
  }

  lemma AlikeRestart(s: Store, s': Store, now: Time)
    requires Alike(s, s', now)
    ensures Alike(PruneExpired(s, now), PruneExpired(s', now), now)
  {
    PruningForgets(s, s', now);
    hide PruneExpired;
  }

  lemma AlikeHandle(c: Config, s: Store, s': Store, now: Time, s256: string -> string, r: Request)
    requires Inv(s) && Alike(s, s', now) && r.drawn !in s.history.drawn
    ensures Handle(c, s, now, s256, r).1 == Handle(c, s', now, s256, r).1
    ensures Alike(Handle(c, s, now, s256, r).0, Handle(c, s', now, s256, r).0, now)
  {
    RowsAreDrawn(s, r.drawn);
    hide Inv, Alike, DoRegister, DoAuthorize, DoExchangeCode, DoExchangeRefresh, PruneExpired;
    match r
    case Register(_, _, _, _) => AlikeRegister(s, s', now, r);
    case Authorize(_, _, _, _, _, _, _, _, _) => AlikeAuthorize(c, s, s', now, r);
    case ExchangeCode(_, _, _, _, _, _) => AlikeExchangeCode(c, s, s', now, s256, r);
    case ExchangeRefresh(_, _, _, _) => AlikeExchangeRefresh(c, s, s', now, r);
    case Restart(_) => AlikeRestart(s, s', now);
  }

  lemma RowsAreDrawn(s: Store, k: Secret)
    requires Inv(s)
    ensures k in s.refreshes || k in s.codes ==> k in s.history.drawn
  {
    if k in s.refreshes { assert RefreshOk(s.refreshes[k], k, s.history); }
    if k in s.codes { assert CodeOk(s.codes[k], k, s.history); }
  }

  lemma {:induction false} AlikeRuns(c: Config, s: Store, s': Store, s256: string -> string, run: seq<Timed>, now: Time)
    requires Inv(s) && Alike(s, s', now) && Plausible(c, s, s256, run, now)
    ensures Responses(c, s, s256, run) == Responses(c, s', s256, run)
    decreases |run|
  {
    hide Inv, Handle, Alike;
    if run != [] {
      var r, at := run[0].request, run[0].at;
      AlikeLater(s, s', now, at);
      AlikeHandle(c, s, s', at, s256, r);
      HandleKeeps(c, s, at, s256, r);
      AlikeRuns(c, Handle(c, s, at, s256, r).0, Handle(c, s', at, s256, r).0, s256, run[1..], at);
    }
  }

  /** Pruning expired rows at any moment never changes a response, to any later request. */
  lemma PruningIsInvisible(c: Config, s: Store, s256: string -> string, run: seq<Timed>, now: Time)
    requires Inv(s) && Plausible(c, s, s256, run, now)
    ensures Responses(c, PruneExpired(s, now), s256, run) == Responses(c, s, s256, run)
  {
    PrunedIsAlike(s, now);
    hide Alike, PruneExpired;
    AlikeRuns(c, s, PruneExpired(s, now), s256, run, now);
  }

  /** Nothing a registration prunes is, or belongs to, a live grant: codes and tokens that still work
      stay, with their clients. */
  lemma LiveGrantsSurvive(s: Store, now: Time, r: Request, k: Secret)
    requires Inv(s) && r.Register?
    ensures var s' := DoRegister(s, now, r).0;
            && (k in s.codes && !s.codes[k].used && now < s.codes[k].expires ==>
                 k in s'.codes && s'.codes[k] == s.codes[k] && s.codes[k].client in s'.clients)
            && (k in s.refreshes && now < s.refreshes[k].expires ==>
                 k in s'.refreshes && s'.refreshes[k] == s.refreshes[k] && s.refreshes[k].client in s'.clients)
  {
    hide CodesOk, RefreshesOk, OneLive;
  }
}
