/** The guest environment of a sandbox. */
module SandboxEnv {
  import opened Entries
  import opened Text

  /** The variables the driver owns: a user environment may never set them. */
  datatype Var =
    | Endpoint | SandboxId | SandboxName | SshSocketPath | MainProcessSpec | LogLevel | TelemetryEnabled
    | NetworkRuntime | UserEnvironment | TlsCa | TlsCert | TlsKey | TlsServerName | Token | TokenFile
    | OciImageUser | SandboxUid | SandboxGid | Path

  function VarName(v: Var): string {
    if v == Path then "PATH" else "OPENSHELL_" + Suffix(v)
  }

  function Suffix(v: Var): string {
    match v
    case Endpoint => "ENDPOINT"
    case SandboxId => "SANDBOX" + "_ID"
    case SandboxName => "SANDBOX"
    case SshSocketPath => "SSH_SOCKET_PATH"
    case MainProcessSpec => "MAIN_PROCESS_SPEC"
    case LogLevel => "LOG_LEVEL"
    case TelemetryEnabled => "TELEMETRY_ENABLED"
    case NetworkRuntime => "NETWORK_" + "RUNTIME_CAPABILITIES"
    case UserEnvironment => "USER_ENVIRONMENT"
    case TlsCa => "TLS_CA"
    case TlsCert => "TLS_CERT"
    case TlsKey => "TLS_KEY"
    case TlsServerName => "GATEWAY_" + "TLS_SERVER_NAME"
    case Token => "SANDBOX_" + "TOKEN"
    case TokenFile => "SANDBOX_" + "TOKEN_FILE"
    case OciImageUser => "OCI_IMAGE_USER"
    case SandboxUid => "SANDBOX_" + "UID"
    case SandboxGid => "SANDBOX_" + "GID"
    case Path => ""
  }

  /** Length, and a letter to tell names of the same length apart. */
  function Key(v: Var): (nat, nat, char) {
    match v
    case Endpoint => (8, 0, 'E')
    case SandboxId => (10, 0, 'S')
    case SandboxName => (7, 0, 'S')
    case SshSocketPath => (15, 0, 'S')
    case MainProcessSpec => (17, 0, 'M')
    case LogLevel => (9, 0, 'L')
    case TelemetryEnabled => (17, 0, 'T')
    case NetworkRuntime => (28, 0, 'N')
    case UserEnvironment => (16, 0, 'U')
    case TlsCa => (6, 0, 'T')
    case TlsCert => (8, 0, 'T')
    case TlsKey => (7, 0, 'T')
    case TlsServerName => (23, 0, 'G')
    case Token => (13, 0, 'S')
    case TokenFile => (18, 0, 'S')
    case OciImageUser => (14, 0, 'O')
    case SandboxUid => (11, 8, 'U')
    case SandboxGid => (11, 8, 'G')
    case Path => (0, 0, 'P')
  }

  lemma SuffixShape(v: Var)
    requires v != Path
    ensures |Suffix(v)| == Key(v).0 && Key(v).1 < |Suffix(v)| && Suffix(v)[Key(v).1] == Key(v).2
  {
  }

  lemma SuffixesDiffer(v: Var, w: Var)
    requires v != w && v != Path && w != Path
    ensures Suffix(v) != Suffix(w)
  {
    SuffixShape(v);
    SuffixShape(w);
  }

  lemma NamesDiffer(v: Var, w: Var)
    requires v != w
    ensures VarName(v) != VarName(w)
  {
    if v != Path && w != Path {
      SuffixesDiffer(v, w);
      SameSuffix("OPENSHELL_", Suffix(v), Suffix(w));
    } else {
      assert "PATH"[0] == 'P' && "OPENSHELL_"[0] == 'O';
    }
  }

  lemma SameSuffix(p: string, a: string, b: string)
    requires a != b
    ensures p + a != p + b
  {
    assert (p + a)[|p|..] == a && (p + b)[|p|..] == b;
  }

  /** What the driver brings: the names of its variables, the other defaults, and the JSON
      encodings of a user environment and of a main process. */
  datatype Driver = Driver(name: Var -> string, defaults: map<string, string>, user: map<string, string> -> string, process: Process -> string)

  ghost predicate Distinct(d: Driver) {
    forall v, w {:trigger d.name(v), d.name(w)} :: d.name(v) == d.name(w) ==> v == w
  }

  ghost predicate Usable(d: Driver) {
    && Distinct(d)
    && (forall v :: d.name(v) !in d.defaults)
  }

  ghost predicate PlainNames(d: Driver) {
    && (forall v :: '=' !in d.name(v))
    && (forall k <- d.defaults :: '=' !in k)
  }

  predicate Plain(s: string) {
    '=' !in s
  }

  lemma PlainParts()
    ensures Plain("OPENSHELL_") && Plain("PATH") && Plain("SANDBOX") && Plain("SANDBOX_") && Plain("_ID")
    ensures Plain("UID") && Plain("GID") && Plain("TOKEN") && Plain("TOKEN_FILE")
  {
  }

  lemma PlainSuffixes()
    ensures Plain("ENDPOINT") && Plain("SSH_SOCKET_PATH") && Plain("MAIN_PROCESS_SPEC") && Plain("LOG_LEVEL")
    ensures Plain("TELEMETRY_ENABLED") && Plain("USER_ENVIRONMENT") && Plain("OCI_IMAGE_USER")
  {
  }

  lemma PlainTransport()
    ensures Plain("NETWORK_") && Plain("RUNTIME_CAPABILITIES") && Plain("GATEWAY_") && Plain("TLS_SERVER_NAME")
    ensures Plain("TLS_CA") && Plain("TLS_CERT") && Plain("TLS_KEY")
  {
  }

  lemma VarNamesArePlain(v: Var)
    ensures '=' !in VarName(v)
  {
    PlainParts();
    PlainSuffixes();
    PlainTransport();
    assert Plain(Suffix(v));
  }

  lemma DefaultsAreUnowned(v: Var)
    ensures VarName(v) !in DEFAULTS
  {
    assert VarName(v)[0] == if v == Path then 'P' else 'O';
    assert "HOME"[0] == 'H' && "TERM"[0] == 'T';
  }

  lemma NamesAreUsable(d: Driver)
    requires d.name == VarName && d.defaults == DEFAULTS
    ensures Usable(d) && PlainNames(d)
  {
    forall v, w {:trigger d.name(v), d.name(w)} | d.name(v) == d.name(w) ensures v == w {
      if v != w { NamesDiffer(v, w); }
    }
    forall v ensures d.name(v) !in d.defaults && '=' !in d.name(v) {
      VarNamesArePlain(v);
      DefaultsAreUnowned(v);
    }
  }

  predicate Owned(d: Driver, name: string) {
    exists v: Var :: d.name(v) == name
  }

  // ------------------------------------------------------------------- requests

  datatype Config = Config(endpoint: string, logLevel: string)

  datatype Process = Process(command: seq<string>, tty: bool)

  /** What a create request says about the environment. */
  datatype Request = Request(id: string, name: string, template: map<string, string>, own: map<string, string>,
                             command: seq<string>, tty: bool, logLevel: string, agentSocket: string)

  const SCRATCH := Process(["/bin/bash", "-l"], true)

  /** A command given wins as it is, anything else is the scratch shell. */
  function MainProcess(req: Request): Process {
    if req.command != [] then Process(req.command, req.tty) else SCRATCH
  }

  /** The user environment: the request's own entries win over its template's. */
  function User(req: Request): map<string, string> {
    req.template + req.own
  }

  function NotOwned(d: Driver, m: map<string, string>): map<string, string> {
    map k | k in m && !Owned(d, k) :: m[k]
  }

  predicate EntryOk(name: string, value: string) {
    !Blank(name) && '=' !in name && '\0' !in name && '\0' !in value
  }

  predicate Acceptable(req: Request) {
    forall k <- User(req) :: EntryOk(k, User(req)[k])
  }

  const DEFAULTS := map["HOME" := "/root", "TERM" := "xterm"]
  const GUEST_PATH := "/usr/local/sbin:/usr/local/bin:/usr/sbin:/usr/bin:/sbin:/bin"
  const SEED := "/openshell-seed"

  predicate Https(endpoint: string) {
    "https://" <= endpoint
  }

  /** Everything an environment is built from. */
  datatype Input = Input(cfg: Config, req: Request, hasToken: bool, d: Driver)

  /** What the driver sets each of its variables to. */
  function Setting(x: Input, v: Var): Option<string> {
    match v
    case Endpoint => Some(x.cfg.endpoint)
    case SandboxId => Some(x.req.id)
    case SandboxName => Some(x.req.name)
    case SshSocketPath => Some(if x.req.agentSocket == "" then "/run/openshell/ssh.sock" else x.req.agentSocket)
    case MainProcessSpec => Some(x.d.process(MainProcess(x.req)))
    case LogLevel => Some(if x.req.logLevel == "" then x.cfg.logLevel else x.req.logLevel)
    case TelemetryEnabled => Some("false")
    case NetworkRuntime | SandboxUid | SandboxGid => Some("")
    case UserEnvironment =>
      var user := NotOwned(x.d, User(x.req));
      if user == map[] then None else Some(x.d.user(user))
    case TlsCa => if Https(x.cfg.endpoint) then Some(SEED + "/tls/ca.crt") else None
    case TlsCert => if Https(x.cfg.endpoint) then Some(SEED + "/tls/tls.crt") else None
    case TlsKey => if Https(x.cfg.endpoint) then Some(SEED + "/tls/tls.key") else None
    case TokenFile => if x.hasToken then Some(SEED + "/auth/sandbox.jwt") else None
    case TlsServerName | Token | OciImageUser => None
    case Path => Some(GUEST_PATH)
  }

  /** An environment in which the driver's variables in `set` have been set. */
  ghost predicate Reflects(x: Input, env: map<string, string>, done: set<Var>) {
    && (forall v: Var :: x.d.name(v) in env <==> v in done && Setting(x, v).Some?)
    && (forall v: Var :: x.d.name(v) in env ==> Setting(x, v) == Some(env[x.d.name(v)]))
    && (forall k :: !Owned(x.d, k) ==> (k in env <==> k in Unowned(x)) && (k in env ==> env[k] == Unowned(x)[k]))
  }

  /** The entries that are not the driver's: the user's, over the defaults. */
  function Unowned(x: Input): map<string, string> {
    x.d.defaults + NotOwned(x.d, User(x.req))
  }

  /** The environment of a request: each of the driver's variables as set, and the user's
      entries over the defaults elsewhere. */
  ghost predicate IsEnv(env: map<string, string>, x: Input) {
    && (forall v: Var :: x.d.name(v) in env <==> Setting(x, v).Some?)
    && (forall v: Var :: x.d.name(v) in env ==> Setting(x, v) == Some(env[x.d.name(v)]))
    && (forall k :: !Owned(x.d, k) ==> (k in env <==> k in Unowned(x)) && (k in env ==> env[k] == Unowned(x)[k]))
  }

  // -------------------------------------------------------------------- building

  datatype Outcome = Built(env: map<string, string>) | EmptyName | Invalid(name: string)

  /** The entries of `all` whose turn has come and that the driver does not own. */
  ghost function Taken(d: Driver, all: map<string, string>, pending: set<string>): map<string, string> {
    map k | k in all && k !in pending && !Owned(d, k) :: all[k]
  }

  /** What remains of `all` while its owned entries are deleted. */
  ghost function Remaining(d: Driver, all: map<string, string>, pending: set<string>): map<string, string> {
    map k | k in all && (k in pending || !Owned(d, k)) :: all[k]
  }

  /** Walks the user environment in any order, checking each entry, deleting the owned
      ones and keeping the others. */
  method TakeUser(d: Driver, base: map<string, string>, all: map<string, string>)
      returns (r: Outcome, user: map<string, string>)
    ensures r.Built? <==> forall k <- all :: EntryOk(k, all[k])
    ensures r.Built? ==> user == NotOwned(d, all) && r.env == base + NotOwned(d, all)
    ensures r.EmptyName? ==> exists k <- all :: Blank(k)
    ensures r.Invalid? ==> r.name in all && !Blank(r.name) && !EntryOk(r.name, all[r.name])
  {
    user := all;
    var env := base;
    var pending := all.Keys;
    while pending != {}
      invariant pending <= all.Keys
      invariant user == Remaining(d, all, pending)
      invariant env == base + Taken(d, all, pending)
      invariant forall k <- all.Keys - pending :: EntryOk(k, all[k])
      decreases |pending|
    {
      var k :| k in pending;
      var v := user[k];
      if Blank(k) { return EmptyName, user; }
      if '=' in k || '\0' in k || '\0' in v { return Invalid(k), user; }
      if Owned(d, k) {
        user := user - {k};
      } else {
        env := env[k := v];
      }
      Walked(d, base, all, pending, k);
      pending := pending - {k};
    }
    r := Built(env);
  }

  lemma Walked(d: Driver, base: map<string, string>, all: map<string, string>, pending: set<string>, k: string)
    requires k in pending && pending <= all.Keys
    ensures Remaining(d, all, pending - {k}) == if Owned(d, k) then Remaining(d, all, pending) - {k} else Remaining(d, all, pending)
    ensures base + Taken(d, all, pending - {k})
         == if Owned(d, k) then base + Taken(d, all, pending) else (base + Taken(d, all, pending))[k := all[k]]
  {
  }

  lemma Updated(x: Input, env: map<string, string>, v: Var, done: set<Var>)
    requires Distinct(x.d) && Reflects(x, env, done) && Setting(x, v).Some?
    ensures Reflects(x, env[x.d.name(v) := Setting(x, v).value], done + {v})
  {
    var e := env[x.d.name(v) := Setting(x, v).value];
    forall w: Var ensures (x.d.name(w) in e <==> w in done + {v} && Setting(x, w).Some?)
                       && (x.d.name(w) in e ==> Setting(x, w) == Some(e[x.d.name(w)])) {
      if w != v { assert x.d.name(w) != x.d.name(v); }
    }
    forall k | !Owned(x.d, k) ensures (k in e <==> k in Unowned(x)) && (k in e ==> e[k] == Unowned(x)[k]) {
      assert k != x.d.name(v);
    }
  }

  /** Setting one of the driver's variables. */
  method SetVar(x: Input, env: map<string, string>, v: Var, value: string, ghost done: set<Var>)
      returns (r: map<string, string>)
    requires Distinct(x.d) && Reflects(x, env, done) && Setting(x, v) == Some(value)
    ensures r == env[x.d.name(v) := value] && Reflects(x, r, done + {v})
  {
    Updated(x, env, v, done);
    r := env[x.d.name(v) := value];
  }

  lemma StartEnv(x: Input)
    requires Usable(x.d)
    ensures Reflects(x, x.d.defaults[x.d.name(Path) := GUEST_PATH] + NotOwned(x.d, User(x.req)), {Path})
  {
    var env := x.d.defaults[x.d.name(Path) := GUEST_PATH] + NotOwned(x.d, User(x.req));
    forall v: Var ensures x.d.name(v) in env <==> v == Path {
      assert Owned(x.d, x.d.name(v));
    }
  }

  lemma Skipped(x: Input, env: map<string, string>, done: set<Var>, none: set<Var>)
    requires Reflects(x, env, done) && forall v <- none :: Setting(x, v).None?
    ensures Reflects(x, env, done + none)
  {
  }

  method SetIdentity(x: Input, env: map<string, string>, ghost done: set<Var>) returns (r: map<string, string>)
    requires Distinct(x.d) && Reflects(x, env, done)
    ensures Reflects(x, r, done + {Endpoint} + {SandboxId} + {SandboxName} + {SshSocketPath} + {MainProcessSpec})
  {
    var sshSocket := if x.req.agentSocket == "" then "/run/openshell/ssh.sock" else x.req.agentSocket;
    r := SetVar(x, env, Endpoint, x.cfg.endpoint, done);
    r := SetVar(x, r, SandboxId, x.req.id, done + {Endpoint});
    r := SetVar(x, r, SandboxName, x.req.name, done + {Endpoint} + {SandboxId});
    r := SetVar(x, r, SshSocketPath, sshSocket, done + {Endpoint} + {SandboxId} + {SandboxName});
    r := SetVar(x, r, MainProcessSpec, x.d.process(MainProcess(x.req)), done + {Endpoint} + {SandboxId} + {SandboxName} + {SshSocketPath});
  }

  method SetLevels(x: Input, env: map<string, string>, ghost done: set<Var>) returns (r: map<string, string>)
    requires Distinct(x.d) && Reflects(x, env, done)
    ensures Reflects(x, r, done + {LogLevel} + {TelemetryEnabled})
  {
    var logLevel := if x.req.logLevel == "" then x.cfg.logLevel else x.req.logLevel;
    r := SetVar(x, env, LogLevel, logLevel, done);
    r := SetVar(x, r, TelemetryEnabled, "false", done + {LogLevel});
  }

  method SetEmpty(x: Input, env: map<string, string>, ghost done: set<Var>) returns (r: map<string, string>)
    requires Distinct(x.d) && Reflects(x, env, done)
    ensures Reflects(x, r, done + {NetworkRuntime} + {SandboxUid} + {SandboxGid})
  {
    r := SetVar(x, env, NetworkRuntime, "", done);
    r := SetVar(x, r, SandboxUid, "", done + {NetworkRuntime});
    r := SetVar(x, r, SandboxGid, "", done + {NetworkRuntime} + {SandboxUid});
  }

  method SetTls(x: Input, env: map<string, string>, ghost done: set<Var>) returns (r: map<string, string>)
    requires Distinct(x.d) && Reflects(x, env, done)
    ensures Reflects(x, r, done + {TlsCa} + {TlsCert} + {TlsKey})
  {
    r := env;
    if Https(x.cfg.endpoint) {
      r := SetVar(x, r, TlsCa, SEED + "/tls/ca.crt", done);
      r := SetVar(x, r, TlsCert, SEED + "/tls/tls.crt", done + {TlsCa});
      r := SetVar(x, r, TlsKey, SEED + "/tls/tls.key", done + {TlsCa} + {TlsCert});
    } else {
      Skipped(x, r, done, {TlsCa});
      Skipped(x, r, done + {TlsCa}, {TlsCert});
      Skipped(x, r, done + {TlsCa} + {TlsCert}, {TlsKey});
    }
  }

  method SetTransport(x: Input, env: map<string, string>, ghost done: set<Var>) returns (r: map<string, string>)
    requires Distinct(x.d) && Reflects(x, env, done)
    ensures Reflects(x, r, done + {NetworkRuntime} + {SandboxUid} + {SandboxGid} + {TlsCa} + {TlsCert} + {TlsKey} + {TokenFile})
  {
    r := SetEmpty(x, env, done);
    r := SetTls(x, r, done + {NetworkRuntime} + {SandboxUid} + {SandboxGid});
    r := SetTokenFile(x, r, done + {NetworkRuntime} + {SandboxUid} + {SandboxGid} + {TlsCa} + {TlsCert} + {TlsKey});
  }

  ghost predicate Covers(done: set<Var>) {
    forall v: Var :: v in done || v == TlsServerName || v == Token || v == OciImageUser
  }

  lemma Complete(x: Input, env: map<string, string>, done: set<Var>)
    requires Reflects(x, env, done) && Covers(done)
    ensures IsEnv(env, x)
  {
    forall v: Var ensures v in done || Setting(x, v).None? { NeverGiven(x, v); }
  }

  lemma NeverGiven(x: Input, v: Var)
    ensures v == TlsServerName || v == Token || v == OciImageUser ==> Setting(x, v).None?
  {
  }

  lemma AllDone(done: set<Var>)
    requires done == {Path} + {UserEnvironment} + {Endpoint} + {SandboxId} + {SandboxName} + {SshSocketPath} + {MainProcessSpec}
      + {LogLevel} + {TelemetryEnabled} + {NetworkRuntime} + {SandboxUid} + {SandboxGid} + {TlsCa} + {TlsCert} + {TlsKey} + {TokenFile}
    ensures Covers(done)
  {
  }

  method SetTokenFile(x: Input, env: map<string, string>, ghost done: set<Var>) returns (r: map<string, string>)
    requires Distinct(x.d) && Reflects(x, env, done)
    ensures Reflects(x, r, done + {TokenFile})
  {
    r := env;
    if x.hasToken {
      r := SetVar(x, r, TokenFile, SEED + "/auth/sandbox.jwt", done);
    } else {
      Skipped(x, r, done, {TokenFile});
    }
  }

  method SetUser(x: Input, env: map<string, string>, user: map<string, string>) returns (r: map<string, string>)
    requires Usable(x.d) && user == NotOwned(x.d, User(x.req)) && env == x.d.defaults[x.d.name(Path) := GUEST_PATH] + user
    ensures Reflects(x, r, {Path} + {UserEnvironment})
  {
    StartEnv(x);
    r := env;
    if user != map[] {
      r := SetVar(x, r, UserEnvironment, x.d.user(user), {Path});
    } else {
      Skipped(x, r, {Path}, {UserEnvironment});
    }
  }

  /** Succeeds exactly when every user entry is acceptable, whatever order the entries
      come in, with the environment of the request. */
  method SandboxEnv(x: Input) returns (r: Outcome)
    requires Usable(x.d)
    ensures r.Built? <==> Acceptable(x.req)
    ensures r.Built? ==> IsEnv(r.env, x)
    ensures r.EmptyName? ==> exists k <- User(x.req) :: Blank(k)
    ensures r.Invalid? ==> r.name in User(x.req) && !Blank(r.name) && !EntryOk(r.name, User(x.req)[r.name])
  {
    var taken, user := TakeUser(x.d, x.d.defaults[x.d.name(Path) := GUEST_PATH], User(x.req));
    if !taken.Built? { return taken; }
    var env := SetUser(x, taken.env, user);
    ghost var done := {Path} + {UserEnvironment};
    env := SetIdentity(x, env, done);
    done := done + {Endpoint} + {SandboxId} + {SandboxName} + {SshSocketPath} + {MainProcessSpec};
    env := SetLevels(x, env, done);
    done := done + {LogLevel} + {TelemetryEnabled};
    env := SetTransport(x, env, done);
    done := done + {NetworkRuntime} + {SandboxUid} + {SandboxGid} + {TlsCa} + {TlsCert} + {TlsKey} + {TokenFile};
    AllDone(done);
    Complete(x, env, done);
    r := Built(env);
  }

  // ------------------------------------------------------------------- properties

  /** The encodings lose nothing. */
  ghost predicate Lossless(d: Driver) {
    && (forall m, n {:trigger d.user(m), d.user(n)} :: d.user(m) == d.user(n) ==> m == n)
    && (forall p, q {:trigger d.process(p), d.process(q)} :: d.process(p) == d.process(q) ==> p == q)
  }

  /** The guest can read its request back from the environment alone: who it is, the process
      it is to run, and exactly which user entries survived the deletion of owned names. */
  lemma EnvTellsRequest(env: map<string, string>, x: Input, y: Input)
    requires IsEnv(env, x) && IsEnv(env, y) && x.d == y.d && Lossless(x.d)
    ensures x.req.id == y.req.id && x.req.name == y.req.name && MainProcess(x.req) == MainProcess(y.req)
    ensures NotOwned(x.d, User(x.req)) == NotOwned(y.d, User(y.req))
  {
    SameSetting(env, x, y, SandboxId);
    SameSetting(env, x, y, SandboxName);
    SameSetting(env, x, y, MainProcessSpec);
    SameSetting(env, x, y, UserEnvironment);
  }

  lemma SameSetting(env: map<string, string>, x: Input, y: Input, v: Var)
    requires IsEnv(env, x) && IsEnv(env, y) && x.d == y.d
    ensures Setting(x, v) == Setting(y, v)
  {
    assert x.d.name(v) in env <==> Setting(x, v).Some?;
    assert y.d.name(v) in env <==> Setting(y, v).Some?;
  }

  /** Whose environment it is and where it connects to, each under its own variable. */
  lemma EnvNamesTheSandbox(env: map<string, string>, x: Input)
    requires IsEnv(env, x)
    ensures var n := x.d.name;
      && n(Endpoint) in env && env[n(Endpoint)] == x.cfg.endpoint
      && n(SandboxId) in env && env[n(SandboxId)] == x.req.id
      && n(SandboxName) in env && env[n(SandboxName)] == x.req.name
      && n(Path) in env && env[n(Path)] == GUEST_PATH
  {
    assert Setting(x, Endpoint).Some? && Setting(x, SandboxId).Some? && Setting(x, SandboxName).Some? && Setting(x, Path).Some?;
  }

  /** What is always switched off: telemetry, network capabilities, the numeric identity. */
  lemma EnvSwitchesOff(env: map<string, string>, x: Input)
    requires IsEnv(env, x)
    ensures x.d.name(TelemetryEnabled) in env && env[x.d.name(TelemetryEnabled)] == "false"
    ensures forall v: Var :: v == NetworkRuntime || v == SandboxUid || v == SandboxGid ==> x.d.name(v) in env && env[x.d.name(v)] == ""
  {
    assert Setting(x, TelemetryEnabled) == Some("false");
    forall v: Var | v == NetworkRuntime || v == SandboxUid || v == SandboxGid ensures x.d.name(v) in env && env[x.d.name(v)] == "" {
      assert Setting(x, v) == Some("");
    }
  }

  /** What the request chooses, and what it gets when it does not: the command as it is, else
      the scratch shell; its log level and agent socket, else the defaults. */
  lemma EnvFollowsTheRequest(env: map<string, string>, x: Input)
    requires IsEnv(env, x)
    ensures var n := x.d.name;
      && n(MainProcessSpec) in env && n(LogLevel) in env && n(SshSocketPath) in env
      && (x.req.command != [] ==> env[n(MainProcessSpec)] == x.d.process(Process(x.req.command, x.req.tty)))
      && (x.req.command == [] ==> env[n(MainProcessSpec)] == x.d.process(Process(["/bin/bash", "-l"], true)))
      && (x.req.logLevel != "" ==> env[n(LogLevel)] == x.req.logLevel)
      && (x.req.logLevel == "" ==> env[n(LogLevel)] == x.cfg.logLevel)
      && (x.req.agentSocket != "" ==> env[n(SshSocketPath)] == x.req.agentSocket)
      && (x.req.agentSocket == "" ==> env[n(SshSocketPath)] == "/run/openshell/ssh.sock")
  {
    assert Setting(x, MainProcessSpec).Some? && Setting(x, LogLevel).Some? && Setting(x, SshSocketPath).Some?;
  }

  /** The credentials: the TLS trio exactly for https endpoints, the token file exactly with a
      token, all under the seed directory. */
  lemma EnvHasCredentials(env: map<string, string>, x: Input)
    requires IsEnv(env, x)
    ensures forall v: Var :: v == TlsCa || v == TlsCert || v == TlsKey ==> (x.d.name(v) in env <==> "https://" <= x.cfg.endpoint)
    ensures "https://" <= x.cfg.endpoint ==>
      && env[x.d.name(TlsCa)] == SEED + "/tls/ca.crt" && env[x.d.name(TlsCert)] == SEED + "/tls/tls.crt"
      && env[x.d.name(TlsKey)] == SEED + "/tls/tls.key"
    ensures (x.d.name(TokenFile) in env <==> x.hasToken) && (x.hasToken ==> env[x.d.name(TokenFile)] == SEED + "/auth/sandbox.jwt")
  {
    forall v: Var | v == TlsCa || v == TlsCert || v == TlsKey ensures x.d.name(v) in env <==> "https://" <= x.cfg.endpoint {
      assert x.d.name(v) in env <==> Setting(x, v).Some?;
    }
    assert x.d.name(TokenFile) in env <==> Setting(x, TokenFile).Some?;
  }

  /** The user's surviving entries, encoded, exactly when there are any. */
  lemma EnvEncodesTheUser(env: map<string, string>, x: Input)
    requires IsEnv(env, x)
    ensures x.d.name(UserEnvironment) in env <==> exists k :: k in User(x.req) && !Owned(x.d, k)
    ensures x.d.name(UserEnvironment) in env ==> env[x.d.name(UserEnvironment)] == x.d.user(NotOwned(x.d, User(x.req)))
  {
    assert x.d.name(UserEnvironment) in env <==> Setting(x, UserEnvironment).Some?;
    var user := NotOwned(x.d, User(x.req));
    if k :| k in User(x.req) && !Owned(x.d, k) { assert k in user; }
    if user != map[] {
      var k :| k in user;
      assert k in User(x.req) && !Owned(x.d, k);
    }
  }

  /** A name the driver does not own has the request's value, else the template's, else the
      default. */
  lemma UnownedValue(env: map<string, string>, x: Input, name: string)
    requires IsEnv(env, x) && !Owned(x.d, name)
    ensures name in env <==> name in x.req.own || name in x.req.template || name in x.d.defaults
    ensures name in env ==> env[name] == if name in x.req.own then x.req.own[name]
                                         else if name in x.req.template then x.req.template[name] else x.d.defaults[name]
  {
  }

  /** The description leaves no freedom: the order of iteration does not show. */
  lemma EnvIsUnique(a: map<string, string>, b: map<string, string>, x: Input)
    requires IsEnv(a, x) && IsEnv(b, x)
    ensures a == b
  {
    forall k ensures k in a <==> k in b {
      if Owned(x.d, k) { var v: Var :| x.d.name(v) == k; }
    }
    forall k | k in a ensures a[k] == b[k] {
      if Owned(x.d, k) { var v: Var :| x.d.name(v) == k; }
    }
  }

  /** Requests that differ only in their user environments. */
  predicate SameButUser(a: Request, b: Request) {
    a == b.(template := a.template, own := a.own)
  }

  /** A user environment cannot influence any driver-owned variable but its own encoding. */
  lemma NonInterference(e: map<string, string>, f: map<string, string>, x: Input, other: Request, v: Var)
    requires SameButUser(x.req, other) && v != UserEnvironment
    requires IsEnv(e, x) && IsEnv(f, x.(req := other))
    ensures (x.d.name(v) in e <==> x.d.name(v) in f) && (x.d.name(v) in e ==> e[x.d.name(v)] == f[x.d.name(v)])
  {
    assert Setting(x, v) == Setting(x.(req := other), v);
    assert x.d.name(v) in e <==> Setting(x, v).Some?;
    assert x.d.name(v) in f <==> Setting(x.(req := other), v).Some?;
  }

  /** The raw token and the image user never come from here. */
  lemma NeverSet(env: map<string, string>, x: Input, v: Var)
    requires IsEnv(env, x) && (v == Token || v == OciImageUser || v == TlsServerName)
    ensures x.d.name(v) !in env
  {
    assert Setting(x, v).None?;
  }

  /** What acceptance is for: no entry that the user brings has a blank name or holds a NUL. */
  lemma UserEntriesAreClean(env: map<string, string>, x: Input, name: string)
    requires IsEnv(env, x) && Acceptable(x.req) && name in User(x.req) && !Owned(x.d, name)
    ensures name in env && !Blank(name) && '=' !in name && '\0' !in name && '\0' !in env[name]
  {
    UnownedValue(env, x, name);
    assert name in User(x.req) && EntryOk(name, User(x.req)[name]);
  }

  /** No name of an accepted environment holds '=', so each survives the command line. */
  lemma NamesHaveNoEquals(env: map<string, string>, x: Input)
    requires IsEnv(env, x) && Acceptable(x.req) && PlainNames(x.d)
    ensures forall k <- env :: '=' !in k
  {
    forall k | k in env ensures '=' !in k {
      if Owned(x.d, k) { var v: Var :| x.d.name(v) == k; } else { UnownedValue(env, x, k); }
    }
  }
}
