/**
 * The start-up side effect that follows the construction of the
 * configuration: two resolved values are copied into the process
 * environment, for xlwings code that reads these environment variables
 * directly.
 * The process environment is a mutable object, so it is a class whose
 * one field is the variable map.
 */
module Legacy {
  import opened Wrappers
  import opened Config

  /** The variable the licence key is exported to. */
  const LicenseVar := "XLWINGS_LICENSE_KEY"
  /** The variable the date format is exported to. */
  const DateVar := "XLWINGS_DATE_FORMAT"

  /** Python truthiness of an optional string: present and non-empty. */
  predicate Truthy(v: Option<string>) {
    v.Some? && v.value != ""
  }

  /** `os.getenv(name)` over a variable map. */
  function Lookup(vars: map<string, string>, name: string): Option<string> {
    if name in vars then Some(vars[name]) else None
  }

  /**
   * The variable map after propagation: the licence key is written only
   * when it is non-empty and the variable is absent or empty; the date
   * format is written, overwriting any value, whenever it is non-empty.
   */
  function Propagated(vars: map<string, string>, s: Settings): map<string, string> {
    var licensed :=
      if Truthy(s.licenseKey) && !Truthy(Lookup(vars, LicenseVar)) then vars[LicenseVar := s.licenseKey.value]
      else vars;
    if Truthy(s.dateFormat) then licensed[DateVar := s.dateFormat.value] else licensed
  }

  /** The process environment (`os.environ`). */
  class Environ {
    var vars: map<string, string>

    constructor (initial: map<string, string>)
      ensures vars == initial
    {
      vars := initial;
    }

    /** `os.getenv(name)`: the value when the variable is set. */
    function Getenv(name: string): (r: Option<string>)
      reads this
      ensures r.Some? <==> name in vars
      ensures r.Some? ==> r.value == vars[name]
    {
      Lookup(vars, name)
    }

    /** `os.environ[name] = value`. */
    method Setenv(name: string, value: string)
      modifies this
      ensures vars == old(vars)[name := value]
    {
      vars := vars[name := value];
    }
  }

  /** Copies the resolved licence key and date format into the process environment. */
  method PropagateLegacy(s: Settings, environ: Environ)
    modifies environ
    ensures environ.vars == Propagated(old(environ.vars), s)
  {
    if Truthy(s.licenseKey) && !Truthy(environ.Getenv(LicenseVar)) {
      environ.Setenv(LicenseVar, s.licenseKey.value);
    }
    if Truthy(s.dateFormat) {
      environ.Setenv(DateVar, s.dateFormat.value);
    }
  }

  /**
   * Importing the configuration module: the settings are resolved from the
   * process environment and the override file; on success the legacy
   * variables are propagated, and on failure construction raises before
   * anything is written.
   */
  method Startup(environ: Environ, files: map<string, map<string, string>>, here: Path, c: Coercion)
    returns (r: Result<Settings, seq<FieldError>>)
    modifies environ
    ensures r == Load(old(environ.vars), files, here, c)
    ensures r.Success? ==> environ.vars == Propagated(old(environ.vars), r.value)
    ensures r.Failure? ==> environ.vars == old(environ.vars)
  {
    r := Load(environ.vars, files, here, c);
    if r.Success? {
      PropagateLegacy(r.value, environ);
    }
  }

  /** The licence variable changes exactly when the key is non-empty and the variable was absent or empty. */
  lemma LicenseWrittenIff(vars: map<string, string>, s: Settings)
    ensures Lookup(Propagated(vars, s), LicenseVar) != Lookup(vars, LicenseVar)
      <==> Truthy(s.licenseKey) && !Truthy(Lookup(vars, LicenseVar))
    ensures Truthy(s.licenseKey) && !Truthy(Lookup(vars, LicenseVar)) ==> Lookup(Propagated(vars, s), LicenseVar) == s.licenseKey
  {
  }

  /** Afterwards a licence key is available exactly when one was set before or the configuration has one. */
  lemma LicenseAvailable(vars: map<string, string>, s: Settings)
    ensures Truthy(Lookup(Propagated(vars, s), LicenseVar)) <==> Truthy(Lookup(vars, LicenseVar)) || Truthy(s.licenseKey)
    ensures Truthy(Lookup(vars, LicenseVar)) ==> Lookup(Propagated(vars, s), LicenseVar) == Lookup(vars, LicenseVar)
  {
  }

  /** A non-empty date format always wins; an empty or missing one leaves the variable alone. */
  lemma DateFormatExported(vars: map<string, string>, s: Settings)
    ensures Truthy(s.dateFormat) ==> Lookup(Propagated(vars, s), DateVar) == s.dateFormat
    ensures !Truthy(s.dateFormat) ==> Lookup(Propagated(vars, s), DateVar) == Lookup(vars, DateVar)
  {
  }

  /** No variable other than the two legacy ones is added, removed or changed. */
  lemma OnlyLegacyVarsChange(vars: map<string, string>, s: Settings, k: string)
    requires k != LicenseVar && k != DateVar
    ensures Lookup(Propagated(vars, s), k) == Lookup(vars, k)
  {
  }

  /** No variable is ever removed. */
  lemma NothingUnset(vars: map<string, string>, s: Settings)
    ensures vars.Keys <= Propagated(vars, s).Keys
  {
  }

  /** Propagating twice has the effect of propagating once. */
  lemma PropagationIdempotent(vars: map<string, string>, s: Settings)
    ensures Propagated(Propagated(vars, s), s) == Propagated(vars, s)
  {
  }

  /** The legacy licence variable is the one the `license_key` field is read from. */
  lemma LicenseVarIsFieldKey()
    ensures Key(LicenseKey) == LicenseVar
  {
  }

  /** The legacy date variable is the one the `date_format` field is read from. */
  lemma DateVarIsFieldKey()
    ensures Key(DateFormat) == DateVar
  {
  }

  /** Propagation leaves every variable alone when the legacy ones already hold the resolved values. */
  lemma PropagationKeepsAgreeingVars(vars: map<string, string>, s: Settings)
    requires LicenseVar in vars ==> s.licenseKey == Some(vars[LicenseVar])
    requires DateVar in vars ==> s.dateFormat == Some(vars[DateVar])
    ensures forall k :: k in vars ==> k in Propagated(vars, s) && Propagated(vars, s)[k] == vars[k]
  {
  }

  /** A licence key set in the environment is the resolved `license_key` when text fields keep environment values. */
  lemma {:induction false} LicenseFromEnvironment(vars: map<string, string>, s: Settings)
    requires forall f :: KindOf(f) in {TextKind, OptTextKind} && Key(f) in vars ==> Get(s, f) == Text(vars[Key(f)])
    requires LicenseVar in vars
    ensures s.licenseKey == Some(vars[LicenseVar])
  {
    LicenseVarIsFieldKey();
    ReadsLicenseKey(s);
  }

  /** A date format set in the environment is the resolved `date_format` when text fields keep environment values. */
  lemma {:induction false} DateFormatFromEnvironment(vars: map<string, string>, s: Settings)
    requires forall f :: KindOf(f) in {TextKind, OptTextKind} && Key(f) in vars ==> Get(s, f) == Text(vars[Key(f)])
    requires DateVar in vars
    ensures s.dateFormat == Some(vars[DateVar])
  {
    DateVarIsFieldKey();
    ReadsDateFormat(s);
  }

  /**
   * Propagation after a successful start-up never alters a variable that
   * was already set: a legacy variable set in the environment is exactly
   * the value the field was resolved from, so writing it back changes
   * nothing.
   */
  lemma {:induction false} StartupKeepsEnvironment(vars: map<string, string>, files: map<string, map<string, string>>,
                                                   here: Path, c: Coercion, s: Settings)
    requires Load(vars, files, here, c) == Success(s)
    ensures forall k :: k in vars ==> k in Propagated(vars, s) && Propagated(vars, s)[k] == vars[k]
  {
    EnvironmentTextsAreResolved(vars, OverrideFile(vars, files), here, c);
    if LicenseVar in vars {
      LicenseFromEnvironment(vars, s);
    }
    if DateVar in vars {
      DateFormatFromEnvironment(vars, s);
    }
    PropagationKeepsAgreeingVars(vars, s);
  }

  /** Reading `license_key` back from a record gives its value. */
  lemma ReadsLicenseKey(s: Settings)
    ensures Get(s, LicenseKey) == OptText(s.licenseKey)
  {
  }

  /** Reading `date_format` back from a record gives its value. */
  lemma ReadsDateFormat(s: Settings)
    ensures Get(s, DateFormat) == OptText(s.dateFormat)
  {
  }
}
