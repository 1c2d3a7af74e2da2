# Bosh director job record (`Bosh::Director::Models::Template`) in Dafny

The bosh director keeps one row per job of an uploaded release in its
`templates` table. The record stores the job's structured metadata (package
names, logs, properties, consumes, provides, templates) as JSON text in
`*_json` columns. A nil value is written as the text `null`, and reading
either SQL NULL or `null` gives nil back. `properties` reads as an empty Hash
instead of nil. `runs_as_errand?` tells whether the job's templates install
a `bin/run` or `bin/run.ps1` script. `parse_package_names` checks the `packages`
entry of a job manifest. `find_or_init_from_release_meta` looks a job up by
name, release, fingerprint and version. On a hit it refreshes the sha1, on a
miss it builds a new unsaved record, and in both cases it then copies the
manifest's fields in.

The project has six modules, one per file:

- `Wrappers` (`wrappers.dfy`): `Option` and `Result`.
- `RubyValue` (`ruby_value.dfy`): the Ruby objects that go into the columns.
  These are nil, booleans, integers, strings, symbols, arrays and ordered
  hashes with String or Symbol keys. The module also has `Hash#[]` (`Fetch`),
  `Hash#[]=` (`Put`), Ruby truthiness, and `Normalize`. `Normalize` gives what
  a value reads back as: symbols become strings, and keys that share a name fold
  into one as `Hash#[]=` folds them.
- `JsonText` (`json_text.dfy`): the JSON text of the columns. It has a
  generator for `JSON.generate` and a parser for `JSON.parse`, over the JSON
  subset these values need.
- `JsonRoundTrip` (`json_roundtrip.dfy`): the proof that parsing generated
  text gives back the normalized value. Also, only nil is written as `null`.
- `Models` (`template.dfy`): the record. It contains the following:
  - A stored row is the datatype `Row`, whose getters decode its columns.
  - The record object the director changes in place is the class `Template`.
    Its setters are methods.
  - The table is the class `TemplateTable`, which holds a sequence of rows.
  - `FindOrInit` is the functional specification that the method
    `FindOrInitFromReleaseMeta` is proved against.
- `TemplateFacts` (`template_facts.dfy`): lemmas about the record, the lookup
  and validation.

`runs_as_errand?` raises `NoMethodError` when `templates` holds a value that
is neither nil nor a Hash, such as an array, because it calls `values` on it
(template.rb:90). `RunsAsErrand` returns `Err(NoMethodError)` there.

## Model

| member | source | states |
|---|---|---|
| `JsonRoundTrip.ParseGenerate` | src/bosh-director/lib/bosh/director/models/template.rb:96-106 | `JSON.parse(JSON.generate(v))` gives back `v`, with symbols as strings and keys of the same name folded |
| `JsonRoundTrip.GenerateNotNull` | src/bosh-director/lib/bosh/director/models/template.rb:97-105 | the JSON text of a value other than nil is never the `null` sentinel |
| `Models.JsonEncode` | src/bosh-director/lib/bosh/director/models/template.rb:104-106 | the stored text is `null` exactly when the value is nil |
| `Models.ColumnRoundTrip` | src/bosh-director/lib/bosh/director/models/template.rb:96-106 | `object_or_nil(json_encode(v))` is `v` normalized; nil goes through the `null` sentinel and comes back as nil |
| `RubyValue.NormalizeIsPlain` | src/bosh-director/lib/bosh/director/models/template.rb:96-102 | a value read back from a column has no symbols, only String keys, and no key twice |
| `RubyValue.NormalizePlain` | src/bosh-director/lib/bosh/director/models/template.rb:96-106 | a value with String keys only, each key once, and no symbols reads back unchanged |
| `RubyValue.NormalizeIdempotent` | src/bosh-director/lib/bosh/director/models/template.rb:96-106 | normalizing twice is normalizing once |
| `RubyValue.NormalizeDistinctHash` | src/bosh-director/lib/bosh/director/models/template.rb:96-106 | a Hash whose key names are distinct reads back entry by entry, in order, with String keys |
| `TemplateFacts.RereadIsStable` | src/bosh-director/lib/bosh/director/models/template.rb:96-106 | storing a value that was read from a column and reading it again gives the same value |
| `TemplateFacts.PlainRoundTrip` | src/bosh-director/lib/bosh/director/models/template.rb:96-106 | a value with String keys and no symbols reads back exactly as it was stored |
| `TemplateFacts.NullColumns` | src/bosh-director/lib/bosh/director/models/template.rb:36-102 | NULL or `null` columns read as nil, except `properties`, which reads as `{}`; such a job is not an errand |
| `Models.ObjectOrNil` | src/bosh-director/lib/bosh/director/models/template.rb:96-102 | SQL NULL and the text `null` read as nil; any value parsed from a column has String keys only, no key twice and no symbols |
| `JsonRoundTrip.ParsePlain` | src/bosh-director/lib/bosh/director/models/template.rb:96-102 | whatever `JSON.parse` returns has String keys only, no key twice and no symbols |
| `Models.Row.PackageNames` | src/bosh-director/lib/bosh/director/models/template.rb:36-38 | a NULL `package_names_json` reads as nil; a value read has String keys only and no symbols |
| `Models.Row.Logs` | src/bosh-director/lib/bosh/director/models/template.rb:48-50 | a NULL `logs_json` reads as nil; a value read has String keys only and no symbols |
| `Models.Row.Consumes` | src/bosh-director/lib/bosh/director/models/template.rb:67-69 | a NULL `consumes_json` reads as nil; a value read has String keys only and no symbols |
| `Models.Row.Provides` | src/bosh-director/lib/bosh/director/models/template.rb:75-77 | a NULL `provides_json` reads as nil; a value read has String keys only and no symbols |
| `Models.Row.Templates` | src/bosh-director/lib/bosh/director/models/template.rb:83-85 | a NULL `templates_json` reads as nil; a value read has String keys only and no symbols |
| `Models.Row.Properties` | src/bosh-director/lib/bosh/director/models/template.rb:59-61 | `properties` never returns nil or false and reads a NULL column as `{}`; a value read has String keys only and no symbols; a column that cannot be parsed raises as `object_or_nil` does |
| `TemplateFacts.PropertiesAfterSet` | src/bosh-director/lib/bosh/director/models/template.rb:53-61 | after `properties=`, `properties` is the stored value, or `{}` when nil or false was stored |
| `TemplateFacts.SymbolKeyReadsAsString` | src/bosh-director/spec/unit/models/template_spec.rb:100-108 | `properties = {key: 'value'}` reads back as `{'key' => 'value'}` |
| `Models.Template.SetPackageNames` | src/bosh-director/lib/bosh/director/models/template.rb:36-42 | `package_names=` stores `json_encode` of the value, changes only that column, and `package_names` then reads the value back |
| `Models.Template.SetLogs` | src/bosh-director/lib/bosh/director/models/template.rb:44-50 | `logs=` changes only `logs_json`, and `logs` then reads the value back |
| `Models.Template.SetProperties` | src/bosh-director/lib/bosh/director/models/template.rb:52-61 | `properties=` changes only `properties_json`, and `properties` then reads the value back, or `{}` for nil and false |
| `Models.Template.SetConsumes` | src/bosh-director/lib/bosh/director/models/template.rb:63-69 | `consumes=` changes only `consumes_json`, and `consumes` then reads the value back |
| `Models.Template.SetProvides` | src/bosh-director/lib/bosh/director/models/template.rb:71-77 | `provides=` changes only `provides_json`, and `provides` then reads the value back |
| `Models.Template.SetTemplates` | src/bosh-director/lib/bosh/director/models/template.rb:79-85 | `templates=` changes only `templates_json`, and `templates` then reads the value back |
| `Models.Row.RunsAsErrand` | src/bosh-director/lib/bosh/director/models/template.rb:87-92 | true exactly when `templates` is a Hash with a value equal to `bin/run` or `bin/run.ps1`; false when `templates` is nil; raises when it is neither nil nor a Hash, or cannot be parsed |
| `TemplateFacts.RunsAsErrandAfterSet` | src/bosh-director/lib/bosh/director/models/template.rb:79-92 | after `templates=`: false for nil; for a Hash, whether some value of the Hash as read back (keys of the same name folded, the later value winning) is `bin/run` or `bin/run.ps1`; any other value raises |
| `TemplateFacts.RunsAsErrandDistinctNames` | src/bosh-director/lib/bosh/director/models/template.rb:79-92 | after `templates=` with a Hash whose key names are distinct: an errand exactly when some value of that Hash is `bin/run` or `bin/run.ps1` |
| `TemplateFacts.FoldedKeyReadBack` | src/bosh-director/lib/bosh/director/models/template.rb:96-106 | `{run: 'bin/run', 'run' => 'x'}` reads back as `{'run' => 'x'}` |
| `TemplateFacts.FoldedKeyHidesRunScript` | src/bosh-director/lib/bosh/director/models/template.rb:79-92 | templates `{run: 'bin/run', 'run' => 'x'}` do not make the job an errand, because the later value wins on the way through JSON |
| `TemplateFacts.ErrandByRunScript` | src/bosh-director/spec/unit/models/template_spec.rb:146-151 | templates `{'path_key' => 'bin/run.ps1'}` make the job an errand |
| `TemplateFacts.NoErrandWithoutRunScript` | src/bosh-director/spec/unit/models/template_spec.rb:139-144 | templates `{key: 'value'}` do not make the job an errand |
| `Models.ParsePackageNames` | src/bosh-director/lib/bosh/director/models/template.rb:108-113 | raises `JobInvalidPackageSpec` exactly when `packages` is truthy and not an Array; otherwise returns an Array: the given one, or `[]` when `packages` is absent, nil or false |
| `Models.FindOrInit` | src/bosh-director/lib/bosh/director/models/template.rb:12-34 | raises exactly when `parse_package_names` raises, and then `JobInvalidPackageSpec`; a record returned always matches the lookup's name, release, fingerprint and version and carries the metadata's sha1 |
| `Models.Template.SetManifestFields` | src/bosh-director/lib/bosh/director/models/template.rb:26-31 | the setters run in order: package names, logs, properties and templates always, provides and consumes only when truthy; the new columns are those `ApplyManifest` specifies |
| `Models.FirstMatch` | src/bosh-director/lib/bosh/director/models/template.rb:13-18 | the lookup finds the first row with the same name, release id, fingerprint and version (nil matching NULL), or reports that none matches |
| `Models.NewRow` | src/bosh-director/lib/bosh/director/models/template.rb:22-24 | a new record has no id and no blobstore id, the release's id, and the metadata's name, version, fingerprint and sha1 |
| `Models.Template.Init` | src/bosh-director/lib/bosh/director/models/template.rb:23 | `new(release_id:, **job_meta)` builds an object holding exactly those columns |
| `Models.TemplateTable.FindOrInitFromReleaseMeta` | src/bosh-director/lib/bosh/director/models/template.rb:12-34 | returns a fresh record whose columns are those `FindOrInit` specifies, or the error it specifies; the table is not changed, so the record count stays the same (template_spec.rb:35-37, 72-75) |
| `TemplateFacts.FindOrInitHit` | src/bosh-director/lib/bosh/director/models/template.rb:13-21 | on a hit, the record is the first matching row, with the same id, release, name, fingerprint, version and blobstore id, and the metadata's sha1 |
| `TemplateFacts.FindOrInitMiss` | src/bosh-director/lib/bosh/director/models/template.rb:22-24 | on a miss, the record has no id, the release's id, and the metadata's name, fingerprint, sha1 and version |
| `TemplateFacts.ApplyManifestReads` | src/bosh-director/lib/bosh/director/models/template.rb:26-31 | after the manifest's fields are stored into a record, package names, logs and templates read back as the values stored, properties as stored or `{}`, and provides and consumes as stored when truthy, otherwise as the record's earlier values |
| `TemplateFacts.FindOrInitReadsManifest` | src/bosh-director/lib/bosh/director/models/template.rb:26-31 | raises exactly when `packages` is invalid; otherwise package names, logs, properties and templates read back from the manifest, while provides and consumes do so only when truthy and otherwise keep the record's earlier values |
| `Models.Present` | src/bosh-director/lib/bosh/director/models/template.rb:7 | a record that passes the presence check has a release id, name, version, blobstore id and sha1 |
| `Models.Unique` | src/bosh-director/lib/bosh/director/models/template.rb:8 | an empty table never conflicts; a new record whose release, name and version equal a stored row's is not unique |
| `Models.Validate` | src/bosh-director/lib/bosh/director/models/template.rb:6-10 | a valid record shares its release, name and version only with its own stored row (the same id) |
| `TemplateFacts.FindOrInitMissNotValid` | src/bosh-director/lib/bosh/director/models/template.rb:6-8 | a record built on a miss fails the presence validation until a blobstore id is set |
| `TemplateFacts.StoredMatchIsFirst` | src/bosh-director/lib/bosh/director/models/template.rb:6-18 | in a table of saved records that pass validation, at most one row matches a lookup, so the lookup's result does not depend on row order |

## Left out

- Sequel's machinery is not modelled: the `Config.db` binding, `save`, and the `release` and `release_versions` associations. The table is an in-memory sequence of rows. `first(...)` is the first matching row in that sequence, while the real query has no `ORDER BY`; `StoredMatchIsFirst` shows the order does not matter for a table of valid records.
- Models.Validate: the `validates_format VALID_ID` check on name and version is not modelled, because the pattern is defined outside template.rb. The predicate is therefore weaker than `validate`.
- Sequel's blank test is modelled as the characters that Ruby's `String#strip` removes. The verdicts of `validates_presence` and `validates_unique` are modelled; their implementation inside Sequel and their error messages are not.
- `validate` reports a verdict only. Its error messages are not modelled.
- `JsonText` covers null, booleans, integers, strings, arrays and objects. Floats and `\u` surrogate escapes parse as `Unsupported`. Several parts of the json gem are not modelled:
  - the nesting limit of 100;
  - invalid UTF-8;
  - NaN;
  - the generation of other Ruby objects;
  - the generator's exact escaping style.

  The promises are the round trip and the `null` sentinel, not byte equality with the gem's output.
- Hash keys other than Strings and Symbols (such as Integers) are not modelled.
- The job metadata is reduced to its `name`, `fingerprint`, `sha1` and `version` strings, and the release to its id. Other metadata keys, which `new` would reject, and non-string values are not modelled.
- Error message text is not modelled. The message raised at template.rb:110 interpolates `name` inside a class method, which is the class's name rather than the job's.
- src/spec/gocli/integration/release/create_release_spec.rb is not part of this model. It drives the bosh CLI, `tar` and `git` end to end, and the code it exercises is not in template.rb.
