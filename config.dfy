/**
 * The `Settings` record of xlwings Server and how it is resolved.
 *
 * Every field binds from the environment variable `XLWINGS_<FIELD>` (the
 * field's name upper-cased), else from the same key in the override file,
 * else from its declared default. Keys that name no field are ignored. The
 * supplied text is decoded by the field's type; `environment` must be one
 * of five literals and every `manifest_id_*` a version-4 UUID. `static_dir`
 * is computed from `base_dir` and is not a field.
 */
module Config {
  import opened Wrappers
  import opened Uuid4
  import opened ManifestIds

  /** A filesystem path as its sequence of segments. */
  type Path = seq<string>

  /** The deployment stages `environment` may name. */
  datatype Stage = Dev | Qa | Uat | Staging | Prod

  function StageName(e: Stage): string {
    match e
    case Dev => "dev"
    case Qa => "qa"
    case Uat => "uat"
    case Staging => "staging"
    case Prod => "prod"
  }

  /** Validation of `environment`: the text must be one of the five stage names exactly. */
  function ParseStage(s: string): (r: Option<Stage>)
    ensures r.Some? <==> s in {"dev", "qa", "uat", "staging", "prod"}
    ensures r.Some? ==> StageName(r.value) == s
  {
    if s == "dev" then Some(Dev)
    else if s == "qa" then Some(Qa)
    else if s == "uat" then Some(Uat)
    else if s == "staging" then Some(Staging)
    else if s == "prod" then Some(Prod)
    else None
  }

  /** The fields of `Settings`, in declaration order. */
  datatype Field =
    | AddSecurityHeaders | AuthProviders | AuthRequiredRoles
    | AuthEntraidClientId | AuthEntraidTenantId | AuthEntraidMultitenant
    | AppPath | BaseDir | ObjectCacheUrl | ObjectCacheExpireAt
    | ObjectCacheEnableCompression | CorsAllowOrigins | DateFormat
    | EnableAlpinejsCsp | EnableBootstrap | EnableExamples | EnableExcelOnline
    | EnableHtmx | EnableSocketio | Environment | FunctionsNamespace | Hostname
    | LogLevel | ManifestIdDev | ManifestIdQa | ManifestIdUat | ManifestIdStaging
    | ManifestIdProd | ProjectName | PublicAddinStore | SecretKey
    | SocketioMessageQueueUrl | SocketioServerApp | StaticUrlPath | LicenseKey

  const FieldOrder: seq<Field> := [
    AddSecurityHeaders, AuthProviders, AuthRequiredRoles,
    AuthEntraidClientId, AuthEntraidTenantId, AuthEntraidMultitenant,
    AppPath, BaseDir, ObjectCacheUrl, ObjectCacheExpireAt,
    ObjectCacheEnableCompression, CorsAllowOrigins, DateFormat,
    EnableAlpinejsCsp, EnableBootstrap, EnableExamples, EnableExcelOnline,
    EnableHtmx, EnableSocketio, Environment, FunctionsNamespace, Hostname,
    LogLevel, ManifestIdDev, ManifestIdQa, ManifestIdUat, ManifestIdStaging,
    ManifestIdProd, ProjectName, PublicAddinStore, SecretKey,
    SocketioMessageQueueUrl, SocketioServerApp, StaticUrlPath, LicenseKey]

  /** The field's name as declared on `Settings`. */
  function Name(f: Field): string {
    match f
    case AddSecurityHeaders => "add_security_headers"
    case AuthProviders => "auth_providers"
    case AuthRequiredRoles => "auth_required_roles"
    case AuthEntraidClientId => "auth_entraid_client_id"
    case AuthEntraidTenantId => "auth_entraid_tenant_id"
    case AuthEntraidMultitenant => "auth_entraid_multitenant"
    case AppPath => "app_path"
    case BaseDir => "base_dir"
    case ObjectCacheUrl => "object_cache_url"
    case ObjectCacheExpireAt => "object_cache_expire_at"
    case ObjectCacheEnableCompression => "object_cache_enable_compression"
    case CorsAllowOrigins => "cors_allow_origins"
    case DateFormat => "date_format"
    case EnableAlpinejsCsp => "enable_alpinejs_csp"
    case EnableBootstrap => "enable_bootstrap"
    case EnableExamples => "enable_examples"
    case EnableExcelOnline => "enable_excel_online"
    case EnableHtmx => "enable_htmx"
    case EnableSocketio => "enable_socketio"
    case Environment => "environment"
    case FunctionsNamespace => "functions_namespace"
    case Hostname => "hostname"
    case LogLevel => "log_level"
    case ManifestIdDev => "manifest_id_dev"
    case ManifestIdQa => "manifest_id_qa"
    case ManifestIdUat => "manifest_id_uat"
    case ManifestIdStaging => "manifest_id_staging"
    case ManifestIdProd => "manifest_id_prod"
    case ProjectName => "project_name"
    case PublicAddinStore => "public_addin_store"
    case SecretKey => "secret_key"
    case SocketioMessageQueueUrl => "socketio_message_queue_url"
    case SocketioServerApp => "socketio_server_app"
    case StaticUrlPath => "static_url_path"
    case LicenseKey => "license_key"
  }

  /** `env_prefix` */
  const Prefix := "XLWINGS_"

  function UpperChar(ch: char): char {
    if 'a' <= ch <= 'z' then (ch as int - 'a' as int + 'A' as int) as char else ch
  }

  function Upper(s: string): string {
    seq(|s|, i requires 0 <= i < |s| => UpperChar(s[i]))
  }

  /** The environment variable (and override-file key) a field binds from. */
  function Key(f: Field): string {
    Prefix + Upper(Name(f))
  }

  /** `k` is the key of some field. */
  predicate IsFieldKey(k: string) {
    exists f :: Key(f) == k
  }

  /** A resolved configuration (`Settings`): one typed slot per field. */
  datatype Settings = Settings(
    addSecurityHeaders: bool,
    authProviders: Option<seq<string>>,
    authRequiredRoles: Option<seq<string>>,
    authEntraidClientId: Option<string>,
    authEntraidTenantId: Option<string>,
    authEntraidMultitenant: bool,
    appPath: string,
    baseDir: Path,
    objectCacheUrl: Option<string>,
    objectCacheExpireAt: Option<string>,
    objectCacheEnableCompression: bool,
    corsAllowOrigins: seq<string>,
    dateFormat: Option<string>,
    enableAlpinejsCsp: bool,
    enableBootstrap: bool,
    enableExamples: bool,
    enableExcelOnline: bool,
    enableHtmx: bool,
    enableSocketio: bool,
    environment: Stage,
    functionsNamespace: string,
    hostname: Option<string>,
    logLevel: string,
    manifestIdDev: Uuid,
    manifestIdQa: Uuid,
    manifestIdUat: Uuid,
    manifestIdStaging: Uuid,
    manifestIdProd: Uuid,
    projectName: string,
    publicAddinStore: bool,
    secretKey: Option<string>,
    socketioMessageQueueUrl: Option<string>,
    socketioServerApp: bool,
    staticUrlPath: string,
    licenseKey: Option<string>)
  {
    /** The computed field `static_dir`: `base_dir / "static"`, never stored. */
    function StaticDir(): Path {
      baseDir + ["static"]
    }
  }

  /** The declared type of a field. */
  datatype Kind =
    | TextKind          // str
    | OptTextKind       // Optional[str]
    | FlagKind          // bool
    | ItemsKind         // List[str]
    | OptItemsKind      // Optional[List[str]]
    | PathKind          // Path
    | EnvironmentKind   // Literal["dev", "qa", "uat", "staging", "prod"]
    | Uuid4Kind         // UUID4

  function KindOf(f: Field): Kind {
    match f
    case AddSecurityHeaders | AuthEntraidMultitenant | ObjectCacheEnableCompression
       | EnableAlpinejsCsp | EnableBootstrap | EnableExamples | EnableExcelOnline
       | EnableHtmx | EnableSocketio | PublicAddinStore | SocketioServerApp => FlagKind
    case AuthProviders | AuthRequiredRoles => OptItemsKind
    case CorsAllowOrigins => ItemsKind
    case AuthEntraidClientId | AuthEntraidTenantId | ObjectCacheUrl | ObjectCacheExpireAt
       | DateFormat | Hostname | SecretKey | SocketioMessageQueueUrl | LicenseKey => OptTextKind
    case AppPath | FunctionsNamespace | LogLevel | ProjectName | StaticUrlPath => TextKind
    case BaseDir => PathKind
    case Environment => EnvironmentKind
    case ManifestIdDev | ManifestIdQa | ManifestIdUat | ManifestIdStaging | ManifestIdProd => Uuid4Kind
  }

  /** The value one field holds, whatever its type; `Null` is Python's `None`. */
  datatype Value =
    | Null
    | Text(text: string)
    | Flag(flag: bool)
    | Items(items: seq<string>)
    | Dir(path: Path)
    | Env(stage: Stage)
    | Id(id: Uuid)

  /** `v` is a value of field `f`'s declared type. */
  predicate Fits(f: Field, v: Value) {
    match KindOf(f)
    case TextKind => v.Text?
    case OptTextKind => v.Text? || v.Null?
    case FlagKind => v.Flag?
    case ItemsKind => v.Items?
    case OptItemsKind => v.Items? || v.Null?
    case PathKind => v.Dir?
    case EnvironmentKind => v.Env?
    case Uuid4Kind => v.Id?
  }

  /**
   * How the settings library turns a source string into a `bool`, a
   * `List[str]` or a `Path` (string-to-bool parsing, JSON decoding, path
   * construction). That code is not part of this model, so it is a
   * parameter; `None` means the text is rejected. A list-typed text is
   * decoded as JSON: `Some(Some(xs))` is a list of strings and
   * `Some(None)` is JSON `null`.
   */
  datatype Coercion = Coercion(
    flag: string -> Option<bool>,
    items: string -> Option<Option<seq<string>>>,
    path: string -> Option<Path>)

  /** The value a supplied text denotes for field `f`, or `None` when validation rejects it. */
  function Decode(f: Field, text: string, c: Coercion): (r: Option<Value>)
    ensures r.Some? ==> Fits(f, r.value)
    ensures KindOf(f) == EnvironmentKind ==> (r.Some? <==> ParseStage(text).Some?)
    ensures KindOf(f) == Uuid4Kind ==> (r.Some? <==> ParseUuid4(text).Some?)
    ensures KindOf(f) in {TextKind, OptTextKind} ==> r == Some(Text(text))
    ensures KindOf(f) in {ItemsKind, OptItemsKind} && c.items(text).Some? && c.items(text).value.Some? ==>
      r == Some(Items(c.items(text).value.value))
    ensures KindOf(f) == ItemsKind ==> (r.Some? <==> c.items(text).Some? && c.items(text).value.Some?)
    ensures KindOf(f) == OptItemsKind ==> (r.Some? <==> c.items(text).Some?) && (r == Some(Null) <==> c.items(text) == Some(None))
  {
    match KindOf(f)
    case TextKind => Some(Text(text))
    case OptTextKind => Some(Text(text))
    case FlagKind =>
      (match c.flag(text) case Some(b) => Some(Flag(b)) case None => None)
    case ItemsKind =>
      (match c.items(text) case Some(Some(xs)) => Some(Items(xs)) case _ => None)
    case OptItemsKind =>
      (match c.items(text) case Some(Some(xs)) => Some(Items(xs)) case Some(None) => Some(Null) case None => None)
    case PathKind =>
      (match c.path(text) case Some(p) => Some(Dir(p)) case None => None)
    case EnvironmentKind =>
      (match ParseStage(text) case Some(e) => Some(Env(e)) case None => None)
    case Uuid4Kind =>
      (match ParseUuid4(text) case Some(u) => Some(Id(u)) case None => None)
  }

  /**
   * The per-field default table. `here` is the directory holding the
   * configuration module, the default of `base_dir`.
   */
  function Default(f: Field, here: Path): (v: Value)
    ensures Fits(f, v)
  {
    match f
    case AddSecurityHeaders => Flag(true)
    case AuthProviders => Items([])
    case AuthRequiredRoles => Items([])
    case AuthEntraidClientId => Null
    case AuthEntraidTenantId => Null
    case AuthEntraidMultitenant => Flag(false)
    case AppPath => Text("")
    case BaseDir => Dir(here)
    case ObjectCacheUrl => Null
    case ObjectCacheExpireAt => Text("0 12 * * sat")
    case ObjectCacheEnableCompression => Flag(true)
    case CorsAllowOrigins => Items(["*"])
    case DateFormat => Null
    case EnableAlpinejsCsp => Flag(true)
    case EnableBootstrap => Flag(true)
    case EnableExamples => Flag(true)
    case EnableExcelOnline => Flag(true)
    case EnableHtmx => Flag(true)
    case EnableSocketio => Flag(true)
    case Environment => Env(Prod)
    case FunctionsNamespace => Text("XLWINGS")
    case Hostname => Null
    case LogLevel => Text("INFO")
    case ManifestIdDev => Id(DevManifestId)
    case ManifestIdQa => Id(QaManifestId)
    case ManifestIdUat => Id(UatManifestId)
    case ManifestIdStaging => Id(StagingManifestId)
    case ManifestIdProd => Id(ProdManifestId)
    case ProjectName => Text("xlwings Server")
    case PublicAddinStore => Flag(false)
    case SecretKey => Null
    case SocketioMessageQueueUrl => Null
    case SocketioServerApp => Flag(false)
    case StaticUrlPath => Text("/static")
    case LicenseKey => Text("")
  }

  function OptText(o: Option<string>): Value {
    match o case Some(t) => Text(t) case None => Null
  }

  function OptItems(o: Option<seq<string>>): Value {
    match o case Some(xs) => Items(xs) case None => Null
  }

  /** Reads field `f` of a resolved configuration. */
  function Get(s: Settings, f: Field): Value {
    match f
    case AddSecurityHeaders => Flag(s.addSecurityHeaders)
    case AuthProviders => OptItems(s.authProviders)
    case AuthRequiredRoles => OptItems(s.authRequiredRoles)
    case AuthEntraidClientId => OptText(s.authEntraidClientId)
    case AuthEntraidTenantId => OptText(s.authEntraidTenantId)
    case AuthEntraidMultitenant => Flag(s.authEntraidMultitenant)
    case AppPath => Text(s.appPath)
    case BaseDir => Dir(s.baseDir)
    case ObjectCacheUrl => OptText(s.objectCacheUrl)
    case ObjectCacheExpireAt => OptText(s.objectCacheExpireAt)
    case ObjectCacheEnableCompression => Flag(s.objectCacheEnableCompression)
    case CorsAllowOrigins => Items(s.corsAllowOrigins)
    case DateFormat => OptText(s.dateFormat)
    case EnableAlpinejsCsp => Flag(s.enableAlpinejsCsp)
    case EnableBootstrap => Flag(s.enableBootstrap)
    case EnableExamples => Flag(s.enableExamples)
    case EnableExcelOnline => Flag(s.enableExcelOnline)
    case EnableHtmx => Flag(s.enableHtmx)
    case EnableSocketio => Flag(s.enableSocketio)
    case Environment => Env(s.environment)
    case FunctionsNamespace => Text(s.functionsNamespace)
    case Hostname => OptText(s.hostname)
    case LogLevel => Text(s.logLevel)
    case ManifestIdDev => Id(s.manifestIdDev)
    case ManifestIdQa => Id(s.manifestIdQa)
    case ManifestIdUat => Id(s.manifestIdUat)
    case ManifestIdStaging => Id(s.manifestIdStaging)
    case ManifestIdProd => Id(s.manifestIdProd)
    case ProjectName => Text(s.projectName)
    case PublicAddinStore => Flag(s.publicAddinStore)
    case SecretKey => OptText(s.secretKey)
    case SocketioMessageQueueUrl => OptText(s.socketioMessageQueueUrl)
    case SocketioServerApp => Flag(s.socketioServerApp)
    case StaticUrlPath => Text(s.staticUrlPath)
    case LicenseKey => OptText(s.licenseKey)
  }

  // Typed views of a value, used only on values that fit the field.
  function AsFlag(v: Value): bool { if v.Flag? then v.flag else false }
  function AsText(v: Value): string { if v.Text? then v.text else "" }
  function AsOptText(v: Value): Option<string> { if v.Text? then Some(v.text) else None }
  function AsItems(v: Value): seq<string> { if v.Items? then v.items else [] }
  function AsOptItems(v: Value): Option<seq<string>> { if v.Items? then Some(v.items) else None }
  function AsDir(v: Value): Path { if v.Dir? then v.path else [] }
  function AsStage(v: Value): Stage { if v.Env? then v.stage else Prod }
  function AsUuid(v: Value): Uuid { if v.Id? then v.id else Uuid(seq(32, _ => 0)) }

  /**
   * The merged sources: override-file entries overlaid by environment
   * variables, keeping only keys that bind a field (`extra="ignore"`).
   */
  function Merge(env: map<string, string>, file: map<string, string>): map<string, string> {
    var layered := file + env;
    map k | k in layered && IsFieldKey(k) :: layered[k]
  }

  /** The value field `f` takes from merged sources: the decoded entry if there is a valid one, else the default. */
  function Chosen(raw: map<string, string>, f: Field, here: Path, c: Coercion): (v: Value)
    ensures Fits(f, v)
  {
    if Key(f) in raw && Decode(f, raw[Key(f)], c).Some? then Decode(f, raw[Key(f)], c).value
    else Default(f, here)
  }

  /** Fills the record with the value chosen for each field. */
  function Build(value: Field -> Value): Settings {
    Settings(
      addSecurityHeaders := AsFlag(value(AddSecurityHeaders)),
      authProviders := AsOptItems(value(AuthProviders)),
      authRequiredRoles := AsOptItems(value(AuthRequiredRoles)),
      authEntraidClientId := AsOptText(value(AuthEntraidClientId)),
      authEntraidTenantId := AsOptText(value(AuthEntraidTenantId)),
      authEntraidMultitenant := AsFlag(value(AuthEntraidMultitenant)),
      appPath := AsText(value(AppPath)),
      baseDir := AsDir(value(BaseDir)),
      objectCacheUrl := AsOptText(value(ObjectCacheUrl)),
      objectCacheExpireAt := AsOptText(value(ObjectCacheExpireAt)),
      objectCacheEnableCompression := AsFlag(value(ObjectCacheEnableCompression)),
      corsAllowOrigins := AsItems(value(CorsAllowOrigins)),
      dateFormat := AsOptText(value(DateFormat)),
      enableAlpinejsCsp := AsFlag(value(EnableAlpinejsCsp)),
      enableBootstrap := AsFlag(value(EnableBootstrap)),
      enableExamples := AsFlag(value(EnableExamples)),
      enableExcelOnline := AsFlag(value(EnableExcelOnline)),
      enableHtmx := AsFlag(value(EnableHtmx)),
      enableSocketio := AsFlag(value(EnableSocketio)),
      environment := AsStage(value(Environment)),
      functionsNamespace := AsText(value(FunctionsNamespace)),
      hostname := AsOptText(value(Hostname)),
      logLevel := AsText(value(LogLevel)),
      manifestIdDev := AsUuid(value(ManifestIdDev)),
      manifestIdQa := AsUuid(value(ManifestIdQa)),
      manifestIdUat := AsUuid(value(ManifestIdUat)),
      manifestIdStaging := AsUuid(value(ManifestIdStaging)),
      manifestIdProd := AsUuid(value(ManifestIdProd)),
      projectName := AsText(value(ProjectName)),
      publicAddinStore := AsFlag(value(PublicAddinStore)),
      secretKey := AsOptText(value(SecretKey)),
      socketioMessageQueueUrl := AsOptText(value(SocketioMessageQueueUrl)),
      socketioServerApp := AsFlag(value(SocketioServerApp)),
      staticUrlPath := AsText(value(StaticUrlPath)),
      licenseKey := AsOptText(value(LicenseKey)))
  }

  /** A validation failure: the offending field and the text supplied for it. */
  datatype FieldError = FieldError(field: Field, text: string)

  /** Every field among `fs` whose merged entry fails validation, in the order of `fs`. */
  function Rejected(fs: seq<Field>, raw: map<string, string>, c: Coercion): (errs: seq<FieldError>)
    ensures forall e :: e in errs ==>
      e.field in fs && Key(e.field) in raw && e.text == raw[Key(e.field)] && Decode(e.field, e.text, c).None?
    ensures forall f :: f in fs && Key(f) in raw && Decode(f, raw[Key(f)], c).None? ==>
      FieldError(f, raw[Key(f)]) in errs
  {
    if fs == [] then []
    else
      var f := fs[0];
      var here := if Key(f) in raw && Decode(f, raw[Key(f)], c).None? then [FieldError(f, raw[Key(f)])] else [];
      here + Rejected(fs[1..], raw, c)
  }

  /** `errs` names fields of `fs` in the order they occur in `fs`, leaving some out. */
  predicate InOrderOf(errs: seq<FieldError>, fs: seq<Field>) {
    errs == [] || (fs != [] && ((errs[0].field == fs[0] && InOrderOf(errs[1..], fs[1..])) || InOrderOf(errs, fs[1..])))
  }

  /** The error list follows the order of the fields it checks. */
  lemma {:induction false} RejectedInOrder(fs: seq<Field>, raw: map<string, string>, c: Coercion)
    ensures InOrderOf(Rejected(fs, raw, c), fs)
  {
    if fs != [] {
      RejectedInOrder(fs[1..], raw, c);
      var rest := Rejected(fs[1..], raw, c);
      var errs := Rejected(fs, raw, c);
      if errs != rest {
        assert errs[0].field == fs[0] && errs[1..] == rest;
      }
    }
  }

  /**
   * `Settings()`: merge the sources, validate every supplied entry, and
   * either report all offending fields or fill the record.
   */
  function Resolve(env: map<string, string>, file: map<string, string>, here: Path, c: Coercion)
    : Result<Settings, seq<FieldError>>
  {
    var raw := Merge(env, file);
    var errs := Rejected(FieldOrder, raw, c);
    if errs == [] then Success(Build(f => Chosen(raw, f, here, c))) else Failure(errs)
  }

  /** The override file's path: the value of `DOTENV_PATH` when set, else `.env`. */
  function OverrideFilePath(env: map<string, string>): string {
    if "DOTENV_PATH" in env then env["DOTENV_PATH"] else ".env"
  }

  /**
   * The override file's entries, given the parsed contents of every file
   * that exists; an absent file contributes nothing.
   */
  function OverrideFile(env: map<string, string>, files: map<string, map<string, string>>): map<string, string> {
    var path := OverrideFilePath(env);
    if path in files then files[path] else map[]
  }

  /** Constructing `Settings` in a process whose environment is `env`. */
  function Load(env: map<string, string>, files: map<string, map<string, string>>, here: Path, c: Coercion)
    : Result<Settings, seq<FieldError>>
  {
    Resolve(env, OverrideFile(env, files), here, c)
  }

  /** The text supplied for field `f`: from the environment if set there, else from the override file. */
  function Supplied(f: Field, env: map<string, string>, file: map<string, string>): Option<string> {
    if Key(f) in env then Some(env[Key(f)])
    else if Key(f) in file then Some(file[Key(f)])
    else None
  }

  /**
   * The layering rule, field by field, independent of how `Resolve`
   * merges: the supplied text decoded by the field's type (`None` when
   * rejected), or the default when nothing is supplied.
   */
  function Layered(f: Field, env: map<string, string>, file: map<string, string>, here: Path, c: Coercion)
    : Option<Value>
  {
    match Supplied(f, env, file)
    case Some(t) => Decode(f, t, c)
    case None => Some(Default(f, here))
  }

  /** Some error in `errs` names field `f`. */
  predicate Names(errs: seq<FieldError>, f: Field) {
    exists e :: e in errs && e.field == f
  }

  /** The merged sources hold, under a field's key, exactly the text the layering rule supplies. */
  lemma {:induction false} MergeSupplies(env: map<string, string>, file: map<string, string>, f: Field)
    ensures Key(f) in Merge(env, file) <==> Supplied(f, env, file).Some?
    ensures Key(f) in Merge(env, file) ==> Merge(env, file)[Key(f)] == Supplied(f, env, file).value
  {
    assert IsFieldKey(Key(f));
  }

  /** Every slot of the built record holds the value chosen for its field, when that value fits the field. */
  lemma BuildReadsBack(value: Field -> Value, f: Field)
    requires Fits(f, value(f))
    ensures Get(Build(value), f) == value(f)
  {
  }

  lemma InFieldOrder(f: Field)
    ensures f in FieldOrder
  {
  }

  /** When nothing is rejected, the value chosen from the merged sources is the layered value. */
  lemma {:induction false} ChosenIsLayered(env: map<string, string>, file: map<string, string>, here: Path,
                                           c: Coercion, f: Field)
    requires Rejected(FieldOrder, Merge(env, file), c) == []
    ensures Layered(f, env, file, here, c).Some?
    ensures Chosen(Merge(env, file), f, here, c) == Layered(f, env, file, here, c).value
  {
    MergeSupplies(env, file, f);
    if Key(f) in Merge(env, file) {
      NothingRejected(Merge(env, file), c, f);
    }
  }

  /** With an empty error list, every field's merged entry decodes. */
  lemma {:induction false} NothingRejected(raw: map<string, string>, c: Coercion, f: Field)
    requires Rejected(FieldOrder, raw, c) == [] && Key(f) in raw
    ensures Decode(f, raw[Key(f)], c).Some?
  {
    InFieldOrder(f);
  }

  /** A successfully resolved field holds its layered value. */
  lemma {:induction false} ResolvedFieldIsLayered(env: map<string, string>, file: map<string, string>, here: Path,
                                                  c: Coercion, f: Field)
    requires Resolve(env, file, here, c).Success?
    ensures Layered(f, env, file, here, c).Some?
    ensures Get(Resolve(env, file, here, c).value, f) == Layered(f, env, file, here, c).value
  {
    var raw := Merge(env, file);
    ChosenIsLayered(env, file, here, c, f);
    BuildReadsBack(g => Chosen(raw, g, here, c), f);
  }

  /**
   * Resolution succeeds exactly when every field's layered value is
   * accepted, and then every field holds its layered value: the
   * environment variable if set, else the override-file entry, else the
   * default.
   */
  lemma {:induction false} ResolveFollowsLayers(env: map<string, string>, file: map<string, string>, here: Path, c: Coercion)
    ensures Resolve(env, file, here, c).Success? <==> forall f :: Layered(f, env, file, here, c).Some?
    ensures Resolve(env, file, here, c).Success? ==>
      forall f :: Get(Resolve(env, file, here, c).value, f) == Layered(f, env, file, here, c).value
  {
    if Resolve(env, file, here, c).Success? {
      forall f ensures Layered(f, env, file, here, c).Some?
        && Get(Resolve(env, file, here, c).value, f) == Layered(f, env, file, here, c).value
      {
        ResolvedFieldIsLayered(env, file, here, c, f);
      }
    } else {
      var e := Resolve(env, file, here, c).error[0];
      RejectedEntryIsInvalid(env, file, here, c, e);
    }
  }

  /** An entry of the rejection list is a field whose supplied text the layering rule rejects. */
  lemma {:induction false} RejectedEntryIsInvalid(env: map<string, string>, file: map<string, string>, here: Path,
                                                  c: Coercion, e: FieldError)
    requires e in Rejected(FieldOrder, Merge(env, file), c)
    ensures Supplied(e.field, env, file) == Some(e.text) && Layered(e.field, env, file, here, c).None?
  {
    MergeSupplies(env, file, e.field);
  }

  /** A field whose supplied text the layering rule rejects is on the rejection list, with that text. */
  lemma {:induction false} InvalidFieldIsRejected(env: map<string, string>, file: map<string, string>, here: Path,
                                                  c: Coercion, f: Field)
    requires Layered(f, env, file, here, c).None?
    ensures Supplied(f, env, file).Some?
    ensures FieldError(f, Supplied(f, env, file).value) in Rejected(FieldOrder, Merge(env, file), c)
  {
    var raw := Merge(env, file);
    MergeSupplies(env, file, f);
    assert Key(f) in raw && Decode(f, raw[Key(f)], c).None?;
    InFieldOrder(f);
  }

  /**
   * A failed resolution names every rejected field, each with the text
   * supplied for it, and names no other field; the fields appear in
   * declaration order.
   */
  lemma {:induction false} ResolveReportsRejectedFields(env: map<string, string>, file: map<string, string>, here: Path, c: Coercion)
    ensures Resolve(env, file, here, c).Failure? ==>
      var errs := Resolve(env, file, here, c).error;
      && errs != []
      && (forall e :: e in errs ==>
            Supplied(e.field, env, file) == Some(e.text) && Layered(e.field, env, file, here, c).None?)
      && (forall f :: Layered(f, env, file, here, c).None? ==>
            FieldError(f, Supplied(f, env, file).value) in errs)
      && InOrderOf(errs, FieldOrder)
  {
    var errs := Rejected(FieldOrder, Merge(env, file), c);
    RejectedInOrder(FieldOrder, Merge(env, file), c);
    assert Resolve(env, file, here, c).Failure? ==> Resolve(env, file, here, c).error == errs;
    forall e | e in errs
      ensures Supplied(e.field, env, file) == Some(e.text) && Layered(e.field, env, file, here, c).None?
    {
      RejectedEntryIsInvalid(env, file, here, c, e);
    }
    forall f | Layered(f, env, file, here, c).None?
      ensures FieldError(f, Supplied(f, env, file).value) in errs
    {
      InvalidFieldIsRejected(env, file, here, c, f);
    }
  }

  /** A field is reported exactly when its layered value is rejected. */
  lemma {:induction false} RejectedIff(env: map<string, string>, file: map<string, string>, here: Path, c: Coercion, f: Field)
    ensures (Resolve(env, file, here, c).Failure? && Names(Resolve(env, file, here, c).error, f))
      <==> Layered(f, env, file, here, c).None?
  {
    ResolveFollowsLayers(env, file, here, c);
    ResolveReportsRejectedFields(env, file, here, c);
    if Layered(f, env, file, here, c).None? {
      var errs := Resolve(env, file, here, c).error;
      assert FieldError(f, Supplied(f, env, file).value) in errs;
    }
  }

  // Merging drops keys that bind no field.
  lemma MergeDropsUnknownEnvKey(env: map<string, string>, file: map<string, string>, k: string, v: string)
    requires !IsFieldKey(k)
    ensures Merge(env[k := v], file) == Merge(env, file)
  {
  }

  lemma MergeDropsUnknownFileKey(env: map<string, string>, file: map<string, string>, k: string, v: string)
    requires !IsFieldKey(k)
    ensures Merge(env, file[k := v]) == Merge(env, file)
  {
  }

  /** A key that binds no field changes nothing, whether it comes from the environment or the override file. */
  lemma {:induction false} UnknownKeyIgnored(env: map<string, string>, file: map<string, string>, here: Path, c: Coercion,
                                             k: string, v: string)
    requires !IsFieldKey(k)
    ensures Resolve(env[k := v], file, here, c) == Resolve(env, file, here, c)
    ensures Resolve(env, file[k := v], here, c) == Resolve(env, file, here, c)
  {
    MergeDropsUnknownEnvKey(env, file, k, v);
    MergeDropsUnknownFileKey(env, file, k, v);
  }

  /** No field binds from `XLWINGS_STATIC_DIR`. */
  lemma StaticDirKeyUnknown()
    ensures !IsFieldKey("XLWINGS_STATIC_DIR")
  {
    forall f: Field ensures Key(f) != "XLWINGS_STATIC_DIR" {
      KeyLength(f);
      if f == SecretKey {
        SecretKeyIsNotStaticDir();
      } else {
        OnlySecretKeyHasTenLetters(f);
      }
    }
  }

  // Helpers for the lemma above: a key is as long as the prefix and the name together,
  // and among the ten-character names only `secret_key`'s could give that key.
  lemma KeyLength(f: Field)
    ensures |Key(f)| == |Prefix| + |Name(f)|
  {
  }

  lemma OnlySecretKeyHasTenLetters(f: Field)
    ensures |Name(f)| == 10 ==> f == SecretKey
  {
    match f
    case AddSecurityHeaders | AuthProviders | AuthRequiredRoles | AuthEntraidClientId | AuthEntraidTenantId =>
    case AuthEntraidMultitenant | AppPath | BaseDir | ObjectCacheUrl | ObjectCacheExpireAt =>
    case ObjectCacheEnableCompression | CorsAllowOrigins | DateFormat | EnableAlpinejsCsp | EnableBootstrap =>
    case EnableExamples | EnableExcelOnline | EnableHtmx | EnableSocketio | Environment =>
    case FunctionsNamespace | Hostname | LogLevel | ManifestIdDev | ManifestIdQa =>
    case ManifestIdUat | ManifestIdStaging | ManifestIdProd | ProjectName | PublicAddinStore =>
    case SecretKey | SocketioMessageQueueUrl | SocketioServerApp | StaticUrlPath | LicenseKey =>
  }

  lemma SecretKeyIsNotStaticDir()
    ensures Key(SecretKey) != "XLWINGS_STATIC_DIR"
  {
    assert Key(SecretKey)[9] == 'E';
  }

  /** `static_dir` is computed, not a field: setting `XLWINGS_STATIC_DIR` in either source changes nothing. */
  lemma {:induction false} StaticDirNotSettable(env: map<string, string>, file: map<string, string>, here: Path,
                                                c: Coercion, v: string)
    ensures Resolve(env["XLWINGS_STATIC_DIR" := v], file, here, c) == Resolve(env, file, here, c)
    ensures Resolve(env, file["XLWINGS_STATIC_DIR" := v], here, c) == Resolve(env, file, here, c)
  {
    StaticDirKeyUnknown();
    UnknownKeyIgnored(env, file, here, c, "XLWINGS_STATIC_DIR", v);
  }

  /** With no field's key in either source, resolution succeeds and every field holds its default. */
  lemma {:induction false} NoSourcesMeansDefaults(env: map<string, string>, file: map<string, string>, here: Path, c: Coercion)
    requires forall f :: Key(f) !in env && Key(f) !in file
    ensures Resolve(env, file, here, c).Success?
    ensures forall f :: Get(Resolve(env, file, here, c).value, f) == Default(f, here)
  {
    ResolveFollowsLayers(env, file, here, c);
  }

  // Two halves of the defaults named below, each read off the default table.
  lemma CacheAndAuthDefaults(s: Settings, here: Path)
    requires forall f :: Get(s, f) == Default(f, here)
    ensures s.objectCacheExpireAt == Some("0 12 * * sat")
    ensures s.corsAllowOrigins == ["*"]
    ensures s.authProviders == Some([])
  {
    assert Get(s, ObjectCacheExpireAt) == Default(ObjectCacheExpireAt, here);
    assert Get(s, CorsAllowOrigins) == Default(CorsAllowOrigins, here);
    assert Get(s, AuthProviders) == Default(AuthProviders, here);
  }

  lemma DeploymentDefaults(s: Settings, here: Path)
    requires forall f :: Get(s, f) == Default(f, here)
    ensures s.environment == Prod && s.logLevel == "INFO"
    ensures s.licenseKey == Some("") && s.enableHtmx
  {
    assert Get(s, Environment) == Default(Environment, here);
    assert Get(s, LogLevel) == Default(LogLevel, here);
    assert Get(s, LicenseKey) == Default(LicenseKey, here);
    assert Get(s, EnableHtmx) == Default(EnableHtmx, here);
  }

  /** Some declared defaults, as an environment and override file that bind no field leave them. */
  lemma {:induction false} DeclaredDefaults(env: map<string, string>, file: map<string, string>, here: Path, c: Coercion)
    requires forall f :: Key(f) !in env && Key(f) !in file
    ensures Resolve(env, file, here, c).Success?
    ensures var s := Resolve(env, file, here, c).value;
      && s.objectCacheExpireAt == Some("0 12 * * sat")
      && s.corsAllowOrigins == ["*"]
      && s.authProviders == Some([])
      && s.environment == Prod
      && s.logLevel == "INFO"
      && s.licenseKey == Some("")
      && s.enableHtmx
  {
    NoSourcesMeansDefaults(env, file, here, c);
    var s := Resolve(env, file, here, c).value;
    CacheAndAuthDefaults(s, here);
    DeploymentDefaults(s, here);
  }

  /** A text field set in the environment resolves to exactly the text set there. */
  lemma {:induction false} EnvironmentTextIsResolved(env: map<string, string>, file: map<string, string>, here: Path,
                                                     c: Coercion, f: Field)
    requires Resolve(env, file, here, c).Success?
    requires KindOf(f) in {TextKind, OptTextKind} && Key(f) in env
    ensures Get(Resolve(env, file, here, c).value, f) == Text(env[Key(f)])
  {
    ResolvedFieldIsLayered(env, file, here, c, f);
  }

  /** Every text field set in the environment resolves to exactly the text set there. */
  lemma {:induction false} EnvironmentTextsAreResolved(env: map<string, string>, file: map<string, string>, here: Path,
                                                       c: Coercion)
    requires Resolve(env, file, here, c).Success?
    ensures forall f :: KindOf(f) in {TextKind, OptTextKind} && Key(f) in env ==>
      Get(Resolve(env, file, here, c).value, f) == Text(env[Key(f)])
  {
    forall f | KindOf(f) in {TextKind, OptTextKind} && Key(f) in env
      ensures Get(Resolve(env, file, here, c).value, f) == Text(env[Key(f)])
    {
      EnvironmentTextIsResolved(env, file, here, c, f);
    }
  }

  /** Reading `environment` back from a record gives its stage. */
  lemma ReadsStage(s: Settings)
    ensures Get(s, Environment) == Env(s.environment)
  {
  }

  /** Reading `base_dir` back from a record gives its path. */
  lemma ReadsBaseDir(s: Settings)
    ensures Get(s, BaseDir) == Dir(s.baseDir)
  {
  }

  /** The layered `environment`: the supplied text if it names a stage, rejected if it does not, else `prod`. */
  lemma LayeredStage(env: map<string, string>, file: map<string, string>, here: Path, c: Coercion)
    ensures Layered(Environment, env, file, here, c).None? <==>
      (Supplied(Environment, env, file).Some? &&
       Supplied(Environment, env, file).value !in {"dev", "qa", "uat", "staging", "prod"})
    ensures Layered(Environment, env, file, here, c).Some? ==>
      && Layered(Environment, env, file, here, c).value.Env?
      && StageName(Layered(Environment, env, file, here, c).value.stage) ==
           match Supplied(Environment, env, file) case Some(t) => t case None => "prod"
  {
  }

  /** `environment` is reported exactly when the text supplied for it is not one of the five stage names. */
  lemma {:induction false} EnvironmentMustBeAStage(env: map<string, string>, file: map<string, string>, here: Path, c: Coercion)
    ensures (Resolve(env, file, here, c).Failure? && Names(Resolve(env, file, here, c).error, Environment))
      <==> (Supplied(Environment, env, file).Some? &&
            Supplied(Environment, env, file).value !in {"dev", "qa", "uat", "staging", "prod"})
  {
    RejectedIff(env, file, here, c, Environment);
    LayeredStage(env, file, here, c);
  }

  /** After resolution `environment` is the stage the supplied text names, or `prod` when none is supplied. */
  lemma {:induction false} ResolvedStage(env: map<string, string>, file: map<string, string>, here: Path, c: Coercion)
    requires Resolve(env, file, here, c).Success?
    ensures StageName(Resolve(env, file, here, c).value.environment) ==
      match Supplied(Environment, env, file) case Some(t) => t case None => "prod"
  {
    var s := Resolve(env, file, here, c).value;
    ResolvedFieldIsLayered(env, file, here, c, Environment);
    LayeredStage(env, file, here, c);
    ReadsStage(s);
  }

  /** Reading the two optional list fields back from a record gives their lists, or `Null`. */
  lemma ReadsAuthLists(s: Settings)
    ensures Get(s, AuthProviders) == OptItems(s.authProviders)
    ensures Get(s, AuthRequiredRoles) == OptItems(s.authRequiredRoles)
  {
  }

  /** The layered value of an `Optional[List[str]]` field is `Null` exactly when its supplied text is JSON `null`. */
  lemma LayeredNullList(env: map<string, string>, file: map<string, string>, here: Path, c: Coercion, f: Field)
    requires KindOf(f) == OptItemsKind && Layered(f, env, file, here, c).Some?
    ensures Layered(f, env, file, here, c).value.Null? <==>
      (Supplied(f, env, file).Some? && c.items(Supplied(f, env, file).value) == Some(None))
  {
  }

  /**
   * An `Optional[List[str]]` field is `None` after resolution exactly when
   * its supplied text is JSON `null`; its default is the empty list.
   */
  lemma {:induction false} ResolvedNullList(env: map<string, string>, file: map<string, string>, here: Path, c: Coercion)
    requires Resolve(env, file, here, c).Success?
    ensures Resolve(env, file, here, c).value.authProviders.None? <==>
      (Supplied(AuthProviders, env, file).Some? && c.items(Supplied(AuthProviders, env, file).value) == Some(None))
    ensures Resolve(env, file, here, c).value.authRequiredRoles.None? <==>
      (Supplied(AuthRequiredRoles, env, file).Some? && c.items(Supplied(AuthRequiredRoles, env, file).value) == Some(None))
  {
    var s := Resolve(env, file, here, c).value;
    ReadsAuthLists(s);
    ResolvedFieldIsLayered(env, file, here, c, AuthProviders);
    LayeredNullList(env, file, here, c, AuthProviders);
    ResolvedFieldIsLayered(env, file, here, c, AuthRequiredRoles);
    LayeredNullList(env, file, here, c, AuthRequiredRoles);
  }

  /** The layered `cors_allow_origins` is rejected exactly when its supplied text is not a JSON list, `null` included. */
  lemma LayeredCorsOrigins(env: map<string, string>, file: map<string, string>, here: Path, c: Coercion)
    ensures Layered(CorsAllowOrigins, env, file, here, c).None? <==>
      (Supplied(CorsAllowOrigins, env, file).Some? &&
       c.items(Supplied(CorsAllowOrigins, env, file).value) in {None, Some(None)})
  {
  }

  /** `cors_allow_origins`, a `List[str]`, is reported exactly when its supplied text is not a JSON list; `null` is rejected. */
  lemma {:induction false} CorsOriginsMustBeAList(env: map<string, string>, file: map<string, string>, here: Path, c: Coercion)
    ensures (Resolve(env, file, here, c).Failure? && Names(Resolve(env, file, here, c).error, CorsAllowOrigins))
      <==> (Supplied(CorsAllowOrigins, env, file).Some? &&
            c.items(Supplied(CorsAllowOrigins, env, file).value) in {None, Some(None)})
  {
    RejectedIff(env, file, here, c, CorsAllowOrigins);
    LayeredCorsOrigins(env, file, here, c);
  }

  /** When every other field is acceptable, resolution succeeds exactly when `environment` names a stage. */
  lemma {:induction false} StageDecidesResolution(env: map<string, string>, file: map<string, string>, here: Path, c: Coercion)
    requires forall f :: f != Environment ==> Layered(f, env, file, here, c).Some?
    ensures Resolve(env, file, here, c).Success? <==>
      (Supplied(Environment, env, file).None? ||
       Supplied(Environment, env, file).value in {"dev", "qa", "uat", "staging", "prod"})
  {
    ResolveFollowsLayers(env, file, here, c);
    LayeredStage(env, file, here, c);
    if Layered(Environment, env, file, here, c).Some? {
      assert forall f :: Layered(f, env, file, here, c).Some?;
    }
  }

  /**
   * A `manifest_id_*` field is reported exactly when the text supplied for
   * it is not a version-4 UUID; an accepted text becomes the UUID whose
   * canonical rendering is that text in lower case.
   */
  lemma {:induction false} ManifestIdMustBeUuid4(env: map<string, string>, file: map<string, string>, here: Path,
                                                 c: Coercion, f: Field)
    requires KindOf(f) == Uuid4Kind
    ensures (Resolve(env, file, here, c).Failure? && Names(Resolve(env, file, here, c).error, f))
      <==> (Supplied(f, env, file).Some? && ParseUuid4(Supplied(f, env, file).value).None?)
    ensures Resolve(env, file, here, c).Success? ==>
      var v := Get(Resolve(env, file, here, c).value, f);
      && v.Id?
      && IsVersion4(v.id)
      && match Supplied(f, env, file)
         case Some(t) => Format(v.id) == Lowered(t)
         case None => v == Default(f, here)
  {
    RejectedIff(env, file, here, c, f);
    if Resolve(env, file, here, c).Success? {
      ResolvedFieldIsLayered(env, file, here, c, f);
      var v := Get(Resolve(env, file, here, c).value, f);
      match Supplied(f, env, file)
      case Some(t) =>
        ParseThenFormat(t, v.id);
      case None =>
        DefaultManifestIdsAreVersion4();
    }
  }

  /** `static_dir` is `base_dir` with the single segment "static" appended, whatever `base_dir` is. */
  lemma StaticDirUnderBaseDir(s: Settings)
    ensures |s.StaticDir()| == |s.baseDir| + 1
    ensures s.StaticDir()[..|s.baseDir|] == s.baseDir
    ensures s.StaticDir()[|s.baseDir|] == "static"
  {
  }

  /** The layered `base_dir`: the path the supplied text denotes, else the module's own directory. */
  lemma LayeredBaseDir(env: map<string, string>, file: map<string, string>, here: Path, c: Coercion)
    requires Layered(BaseDir, env, file, here, c).Some?
    ensures Layered(BaseDir, env, file, here, c).value.Dir?
    ensures match Supplied(BaseDir, env, file)
      case Some(t) => c.path(t) == Some(Layered(BaseDir, env, file, here, c).value.path)
      case None => Layered(BaseDir, env, file, here, c).value.path == here
  {
  }

  /** After resolution `static_dir` follows the resolved `base_dir`, including one supplied by a source. */
  lemma {:induction false} ResolvedStaticDir(env: map<string, string>, file: map<string, string>, here: Path, c: Coercion)
    requires Resolve(env, file, here, c).Success?
    ensures match Supplied(BaseDir, env, file)
      case Some(t) => c.path(t).Some? && Resolve(env, file, here, c).value.StaticDir() == c.path(t).value + ["static"]
      case None => Resolve(env, file, here, c).value.StaticDir() == here + ["static"]
  {
    var s := Resolve(env, file, here, c).value;
    ResolvedFieldIsLayered(env, file, here, c, BaseDir);
    LayeredBaseDir(env, file, here, c);
    ReadsBaseDir(s);
  }

  /**
   * The override file is the one `DOTENV_PATH` names, else `.env`; a file
   * that does not exist contributes no entries.
   */
  lemma OverrideFileLocation(env: map<string, string>, files: map<string, map<string, string>>, here: Path, c: Coercion)
    ensures "DOTENV_PATH" in env && env["DOTENV_PATH"] in files ==>
      Load(env, files, here, c) == Resolve(env, files[env["DOTENV_PATH"]], here, c)
    ensures "DOTENV_PATH" !in env && ".env" in files ==>
      Load(env, files, here, c) == Resolve(env, files[".env"], here, c)
    ensures OverrideFilePath(env) !in files ==>
      forall f :: Layered(f, env, OverrideFile(env, files), here, c) ==
        if Key(f) in env then Decode(f, env[Key(f)], c) else Some(Default(f, here))
  {
  }
}

