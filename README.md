# xlwings Server configuration resolver, in Dafny

This project models how xlwings Server builds its `Settings` record at start-up, and proves properties of that model.

- **Resolution.** Every field has a declared default. Each field is read from the environment variable `XLWINGS_<FIELD NAME IN UPPER CASE>` when it is set. Otherwise it is read from the same key in the override file, which is the file `DOTENV_PATH` names, or `.env`. Otherwise the field keeps its default. Keys that name no field are ignored.
- **Validation.** Supplied text is decoded by the field's declared type. `environment` must be one of `dev`, `qa`, `uat`, `staging` and `prod`. Every `manifest_id_*` field must be a version-4 UUID, as defined in section 4.1.3 (version) and section 4.1.1 (variant) of RFC 4122, written in the canonical dashed form of section 3.
- **Derived field.** `static_dir` is computed as `base_dir` followed by the segment `static`. It is never stored.
- **Legacy propagation.** After construction, two settings are copied into the process environment, for xlwings code that reads these environment variables directly:
  - the licence key, only when the key is non-empty and the variable is absent or empty;
  - the date format, whenever it is non-empty, overwriting any previous value. By default it is `None`, so nothing is written.

Modules:

- `wrappers.dfy` (`Wrappers`): `Option` and `Result`.
- `uuid4.dfy` (`Uuid4`): UUID text. It covers parsing, canonical lower-case formatting, and the version-4 check.
- `manifest_ids.dfy` (`ManifestIds`): the five placeholder manifest ids that ship as defaults. Lemmas show that each renders as the text it is declared with and that validating that text gives the id.
- `config.dfy` (`Config`): the pure resolver.
  - Data: the field table, defaults, and per-type decoding.
  - Operations: merging of the two sources, the error list, and `Resolve`/`Load`.
  - Specification: `Layered`, the reference definition of the precedence rule. It is stated field by field, without `Merge`, and lemmas tie `Resolve` to it.
- `legacy.dfy` (`Legacy`): the process environment as a class `Environ` whose map field is updated in place.
  - `PropagateLegacy` and `Startup` are methods proved against the specification function `Propagated`.
  - Lemmas state the write policies, the frame, and idempotence.
  - A lemma shows that a successful start-up never alters a variable that was already set.

## Model

| member | source | states |
|---|---|---|
| Uuid4.Parse | app/config.py:39-43 | a text parses exactly when it has the canonical 8-4-4-4-12 dashed hex layout, and the parsed digits are the text's hex digits in order |
| Uuid4.ParseUuid4 | app/config.py:39-43 | a text is accepted exactly when it is canonical, its version digit (index 14) is `4`, and its variant digit (index 19) is one of `89abAB`; every accepted UUID is version 4 |
| Uuid4.Format | app/config.py:39-43 | rendering gives canonical text with no upper-case letters |
| Uuid4.FormatThenParse | app/config.py:39-43 | parsing the rendering of any version-4 UUID gives that UUID back |
| Uuid4.ParseThenFormat | app/config.py:39-43 | rendering an accepted UUID gives the input text in lower case |
| ManifestIds.DefaultManifestIdsAreVersion4 | app/config.py:39-43 | the five shipped placeholder ids are version-4 UUIDs |
| ManifestIds.DevManifestIdRendering | app/config.py:39 | the `manifest_id_dev` default renders as `dcc4d25f-3fb0-4a65-84a7-a09178f1c89d` |
| ManifestIds.QaManifestIdRendering | app/config.py:40 | the `manifest_id_qa` default renders as `52d6620d-f445-428b-b7d8-e4a6b40d4614` |
| ManifestIds.UatManifestIdRendering | app/config.py:41 | the `manifest_id_uat` default renders as `1a421e95-576f-4ab2-9bfc-bb974d43a3e1` |
| ManifestIds.StagingManifestIdRendering | app/config.py:42 | the `manifest_id_staging` default renders as `96eb657a-b8b4-49a3-83a1-5e5357f6d9e1` |
| ManifestIds.ProdManifestIdRendering | app/config.py:43 | the `manifest_id_prod` default renders as `81513a27-f17b-4c2d-a5ae-585a2b48d73c` |
| ManifestIds.RenderingDenotes | app/config.py:39-43 | validating the rendering of a version-4 id gives that id |
| ManifestIds.DeclaredTextsDenoteDefaults | app/config.py:39-43 | validating each declared text gives exactly the corresponding default id |
| Config.ParseStage | app/config.py:34 | a text is accepted exactly when it is one of the five stage names, and the stage's name is that text |
| Config.Decode | app/config.py:15-50 | a decoded value has the field's declared type; `environment` decodes exactly when the text is a stage name; a `manifest_id_*` field decodes exactly when the text is a version-4 UUID; a string field keeps the text unchanged; a `List[str]` field decodes exactly when the text is a JSON list, to that list; an `Optional[List[str]]` field also accepts JSON `null`, as `None` |
| Config.Default | app/config.py:15-50 | every declared default has its field's declared type; the `manifest_id_*` defaults are the ids of `ManifestIds`, whose declared texts are proved below |
| Config.Chosen | app/config.py:12-14 | the value taken from the merged sources always has the field's declared type |
| Config.Rejected | app/config.py:9-50 | the error list holds exactly the fields whose merged entry fails to decode, each with its text (sound and complete) |
| Config.Name | app/config.py:15-50 | the table of the 35 declared field names; `KeyLength`, `OnlySecretKeyHasTenLetters` and `StaticDirKeyUnknown` rely on it |
| Config.KindOf | app/config.py:15-50 | the table of the 35 declared field types; `Decode`, `Fits` and `Default` are stated against it |
| Config.Key | app/config.py:13 | a field binds from `XLWINGS_` followed by its name in upper case; `OnlySecretKeyHasTenLetters` and `StaticDirKeyUnknown` state consequences |
| Config.IsFieldKey | app/config.py:13 | a key is kept exactly when some field binds from it; `MergeDropsUnknownEnvKey` and `UnknownKeyIgnored` state its effect |
| Config.Merge | app/config.py:12-14 | the environment's entries over the override file's, restricted to field keys; `MergeSupplies` states what it holds per field |
| Config.Supplied | app/config.py:12-14 | the text for a field: the environment's if set, else the override file's; used by `Layered` |
| Config.Layered | app/config.py:12-14 | the reference definition of the precedence rule, field by field: the supplied text decoded by the field's type, or the default; `ResolveFollowsLayers` and `RejectedIff` tie `Resolve` to it |
| Config.Resolve | app/config.py:9-58 | constructing `Settings` from an environment and an override file; its meaning is stated by `ResolveFollowsLayers`, `ResolveReportsRejectedFields`, `RejectedIff` and the lemmas after them |
| Config.RejectedInOrder | app/config.py:15-50 | the error list names fields in the order they are checked, which for `Resolve` is declaration order |
| Config.MergeSupplies | app/config.py:12-14 | the merged sources hold a field's key exactly when the environment or the override file supplies it, with the environment's text taking precedence |
| Config.BuildReadsBack | app/config.py:15-50 | each slot of the built record holds the value chosen for its field, whenever that value has the field's type |
| Config.ChosenIsLayered | app/config.py:12-14 | when nothing is rejected, the value chosen for a field is its layered value |
| Config.ResolvedFieldIsLayered | app/config.py:12-14 | after a successful resolution, every field holds its layered value: environment, then override file, then default |
| Config.ResolveFollowsLayers | app/config.py:12-14 | resolution succeeds exactly when every field's layered value is accepted, and then each field equals its layered value |
| Config.RejectedEntryIsInvalid | app/config.py:9-50 | every reported field was supplied with exactly the reported text, and that text is rejected |
| Config.InvalidFieldIsRejected | app/config.py:9-50 | every field whose supplied text is rejected is reported, with that text |
| Config.ResolveReportsRejectedFields | app/config.py:9-50 | a failed resolution reports a non-empty list naming every rejected field and no other, in declaration order |
| Config.RejectedIff | app/config.py:9-50 | a field is named in the failure exactly when its layered value is rejected |
| Config.MergeDropsUnknownEnvKey | app/config.py:13 | adding an environment variable that binds no field leaves the merged sources unchanged |
| Config.MergeDropsUnknownFileKey | app/config.py:13 | adding an override-file entry that binds no field leaves the merged sources unchanged |
| Config.UnknownKeyIgnored | app/config.py:13 | a key that binds no field changes neither success nor the result, whichever source it comes from |
| Config.StaticDirKeyUnknown | app/config.py:52-55 | no field binds from `XLWINGS_STATIC_DIR` |
| Config.StaticDirNotSettable | app/config.py:52-55 | setting `XLWINGS_STATIC_DIR` in either source changes nothing, because `static_dir` is computed |
| Config.NoSourcesMeansDefaults | app/config.py:15-50 | when neither source binds any field, resolution succeeds and every field holds its declared default |
| Config.CacheAndAuthDefaults | app/config.py:15-50 | a record holding the defaults has `object_cache_expire_at = "0 12 * * sat"`, `cors_allow_origins = ["*"]` and `auth_providers = []` |
| Config.DeploymentDefaults | app/config.py:15-50 | a record holding the defaults has `environment = prod`, `log_level = "INFO"`, `license_key = ""` and `enable_htmx` set |
| Config.DeclaredDefaults | app/config.py:15-50 | when no field is bound, resolution succeeds with those example defaults |
| Config.EnvironmentTextIsResolved | app/config.py:12-14 | a string field set in the environment resolves to exactly the text set there |
| Config.EnvironmentTextsAreResolved | app/config.py:12-14 | the same, for every string field at once |
| Config.LayeredStage | app/config.py:34 | the layered `environment` is rejected exactly when the supplied text is not a stage name; otherwise it is the named stage, or `prod` when nothing is supplied |
| Config.EnvironmentMustBeAStage | app/config.py:34 | the failure names `environment` exactly when the supplied text is not one of the five stage names |
| Config.ResolvedStage | app/config.py:34 | after resolution, `environment` is the stage the supplied text names, or `prod` when nothing is supplied |
| Config.StageDecidesResolution | app/config.py:34 | when every other field is acceptable, resolution succeeds exactly when `environment` is absent or names a stage |
| Config.LayeredNullList | app/config.py:16-17 | the layered value of an `Optional[List[str]]` field is `None` exactly when its supplied text is JSON `null` |
| Config.ResolvedNullList | app/config.py:16-17 | after resolution, `auth_providers` and `auth_required_roles` are `None` exactly when their supplied text is JSON `null`; by default they are the empty list |
| Config.LayeredCorsOrigins | app/config.py:26 | the layered `cors_allow_origins` is rejected exactly when its supplied text is not a JSON list, `null` included |
| Config.CorsOriginsMustBeAList | app/config.py:26 | the failure names `cors_allow_origins` exactly when its supplied text is not a JSON list; `null` is rejected |
| Config.ManifestIdMustBeUuid4 | app/config.py:39-43 | the failure names a `manifest_id_*` field exactly when its supplied text is not a version-4 UUID; on success the field holds a version-4 UUID whose rendering is the supplied text in lower case, or the default |
| Config.StaticDirUnderBaseDir | app/config.py:52-55 | for every record, `static_dir` is `base_dir` followed by exactly one segment, `static` |
| Config.LayeredBaseDir | app/config.py:22 | the layered `base_dir` is the path the supplied text denotes, or the module's own directory when nothing is supplied |
| Config.ResolvedStaticDir | app/config.py:52-55 | after resolution, `static_dir` is the supplied `base_dir` path plus `static`, or the module directory plus `static` |
| Config.OverrideFilePath | app/config.py:13 | the override file's path: `DOTENV_PATH` when set, else `.env`; stated by `OverrideFileLocation` |
| Config.OverrideFile | app/config.py:13 | the override file's entries, or none when the file does not exist; stated by `OverrideFileLocation` |
| Config.Load | app/config.py:13 | `Resolve` of the environment and the override file it selects; stated by `OverrideFileLocation` and `Legacy.Startup` |
| Config.Settings.StaticDir | app/config.py:52-55 | `static_dir` as a computed member; stated by `StaticDirUnderBaseDir` and `ResolvedStaticDir` |
| Config.OverrideFileLocation | app/config.py:13 | the override file is the one `DOTENV_PATH` names, else `.env`; when that file does not exist, fields come from the environment or their defaults |
| Legacy.Propagated | app/config.py:61-65 | the reference definition of the environment after propagation; stated by the `Legacy` lemmas below and used as the specification of `PropagateLegacy` |
| Legacy.Environ.Getenv | app/config.py:61 | a variable's value is returned exactly when the variable is set |
| Legacy.Environ.Setenv | app/config.py:62 | the variable is bound to the value and nothing else changes |
| Legacy.PropagateLegacy | app/config.py:60-65 | the environment afterwards is `Propagated` of the environment before |
| Legacy.Startup | app/config.py:58-65 | the result is the resolution of the current environment and its override file; on success the environment becomes `Propagated`, and on failure it is unchanged |
| Legacy.LicenseWrittenIff | app/config.py:61-62 | the licence variable changes exactly when the key is non-empty and the variable was absent or empty, and then it holds the key |
| Legacy.LicenseAvailable | app/config.py:61-62 | afterwards a non-empty licence variable exists exactly when one existed before or the key is non-empty; a non-empty variable is never overwritten |
| Legacy.DateFormatExported | app/config.py:64-65 | a non-empty date format is written whatever the variable held before; otherwise the variable is left as it was |
| Legacy.OnlyLegacyVarsChange | app/config.py:60-65 | no variable other than the two legacy ones is added, removed or changed |
| Legacy.NothingUnset | app/config.py:60-65 | no variable is removed |
| Legacy.PropagationIdempotent | app/config.py:60-65 | propagating a second time leaves the environment as the first time left it |
| Legacy.LicenseVarIsFieldKey | app/config.py:61-62 | `XLWINGS_LICENSE_KEY` is the variable `license_key` binds from |
| Legacy.DateVarIsFieldKey | app/config.py:64-65 | `XLWINGS_DATE_FORMAT` is the variable `date_format` binds from |
| Legacy.PropagationKeepsAgreeingVars | app/config.py:60-65 | when the legacy variables that are set already hold the resolved values, propagation alters no variable that was set |
| Legacy.LicenseFromEnvironment | app/config.py:61-62 | a licence key set in the environment is the resolved `license_key` |
| Legacy.DateFormatFromEnvironment | app/config.py:64-65 | a date format set in the environment is the resolved `date_format` |
| Legacy.StartupKeepsEnvironment | app/config.py:58-65 | after a successful resolution, propagation never alters a variable that was already set; it only adds variables |

## Left out

- Coercion of text to `bool`, `List[str]` and `Path` is done by pydantic. That code is not part of this model. It is a `Coercion` parameter: a triple of functions that may reject the text. The list coercion stands for JSON decoding and can also report JSON `null`, which the model then turns into `None` for the two `Optional[List[str]]` fields and rejects for `cors_allow_origins`.
- Environment-variable names are matched exactly, on the upper-cased key. pydantic-settings matches them case-insensitively by default, so a lower-case spelling of a key is not modelled.
- Uuid4.ParseUuid4: accepts only the canonical 36-character dashed text, in either case. Python's `UUID` also accepts braces, a `urn:uuid:` prefix and the 32-digit undashed form.
- The `.env` file is not modelled: neither its syntax (quoting, comments, `export`) nor reading it. Each file is an already-parsed map. The `files` map holds only files that exist.
- `Path(__file__).resolve()` is not modelled. The module's directory is the parameter `here`, and a path is an opaque sequence of segments.
- pydantic-settings validates defaults (`validate_default=True` on `BaseSettings`), for example turning the `manifest_id_*` strings into `UUID` values. The model stores the validated values directly. It proves that each default fits its field, that each shipped manifest id renders as its declared text, and that the id is version 4, so validating them again would change nothing.
- Config.Resolve: the error carries the field and the supplied text, not pydantic's message or error type.
- The module-level singleton and import-time execution are not modelled. `Startup` is an explicit call, and a failed resolution is a `Failure` result rather than an exception.
- The `run.py init` tool that rewrites the placeholder manifest ids is not modelled, nor is any code that reads `settings`.
