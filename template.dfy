/**
 * The director's record of one job of a release (`Bosh::Director::Models::Template`):
 * its JSON columns with their getters and setters, `runs_as_errand?`,
 * `parse_package_names`, `find_or_init_from_release_meta` and `validate`.
 *
 * A stored row is a `Row` value; the record object that the director changes in
 * place is the class `Template`; the `templates` table is the class
 * `TemplateTable`, an ordered sequence of rows.
 */
module Models {
  import opened Wrappers
  import opened RubyValue
  import opened JsonText
  import opened JsonRoundTrip

  // ---------------------------------------------------------------- JSON columns

  /** `json_encode`: nil is stored as the text `null`, any other value as its JSON text. */
  function JsonEncode(v: Value): (r: string)
    ensures r == "null" <==> v.Nil?
  {
    if v.Nil? then "null"
    else
      GenerateNotNull(v);
      Generate(v)
  }

  /** `object_or_nil`: SQL NULL and the text `null` read as nil; other text is parsed. */
  function ObjectOrNil(column: Option<string>): (r: Outcome<Value>)
    ensures column.None? || column == Some("null") ==> r == Ok(Nil)
    ensures r.Ok? ==> Plain(r.value)
  {
    match column
    case None => Ok(Nil)
    case Some(text) =>
      if text == "null" then Ok(Nil)
      else
        ParsePlain(text);
        Parse(text)
  }

  /** What a setter stores is what the getter reads back, with symbols turned into strings. */
  lemma ColumnRoundTrip(v: Value)
    ensures ObjectOrNil(Some(JsonEncode(v))) == Ok(Normalize(v))
  {
    if !v.Nil? {
      ParseGenerate(v);
    }
  }

  // ---------------------------------------------------------------- rows

  /** An entry of `templates` that makes the job an errand. */
  predicate IsRunScript(x: Value) {
    x == Str("bin/run") || x == Str("bin/run.ps1")
  }

  /** `Hash#values`. */
  function Values(es: seq<(Key, Value)>): (r: seq<Value>)
    ensures |r| == |es|
  {
    seq(|es|, i requires 0 <= i < |es| => es[i].1)
  }

  /** The columns of one row of the `templates` table; `None` is SQL NULL. */
  datatype Row = Row(
    id: Option<nat>,
    releaseId: Option<nat>,
    name: Option<string>,
    version: Option<string>,
    fingerprint: Option<string>,
    sha1: Option<string>,
    blobstoreId: Option<string>,
    packageNamesJson: Option<string>,
    logsJson: Option<string>,
    propertiesJson: Option<string>,
    consumesJson: Option<string>,
    providesJson: Option<string>,
    templatesJson: Option<string>)
  {
    function PackageNames(): (r: Outcome<Value>)
      ensures packageNamesJson.None? ==> r == Ok(Nil)
      ensures r.Ok? ==> Plain(r.value)
    {
      ObjectOrNil(packageNamesJson)
    }

    function Logs(): (r: Outcome<Value>)
      ensures logsJson.None? ==> r == Ok(Nil)
      ensures r.Ok? ==> Plain(r.value)
    {
      ObjectOrNil(logsJson)
    }

    /** The job's properties; where the column holds nil or false, an empty Hash. */
    function Properties(): (r: Outcome<Value>)
      ensures r.Ok? ==> Truthy(r.value) && Plain(r.value)
      ensures propertiesJson.None? ==> r == Ok(Hash([]))
      ensures ObjectOrNil(propertiesJson).Err? ==> r == ObjectOrNil(propertiesJson)
    {
      match ObjectOrNil(propertiesJson)
      case Err(e) => Err(e)
      case Ok(v) => Ok(if Truthy(v) then v else Hash([]))
    }

    function Consumes(): (r: Outcome<Value>)
      ensures consumesJson.None? ==> r == Ok(Nil)
      ensures r.Ok? ==> Plain(r.value)
    {
      ObjectOrNil(consumesJson)
    }

    function Provides(): (r: Outcome<Value>)
      ensures providesJson.None? ==> r == Ok(Nil)
      ensures r.Ok? ==> Plain(r.value)
    {
      ObjectOrNil(providesJson)
    }

    function Templates(): (r: Outcome<Value>)
      ensures templatesJson.None? ==> r == Ok(Nil)
      ensures r.Ok? ==> Plain(r.value)
    {
      ObjectOrNil(templatesJson)
    }

    /**
     * `runs_as_errand?`: false when `templates` is nil, otherwise whether one of
     * its values is `bin/run` or `bin/run.ps1`. A `templates` value that is
     * neither nil nor a Hash has no `values`, and the call raises.
     */
    function RunsAsErrand(): (r: Outcome<bool>)
      ensures r == Ok(true) <==>
        Templates().Ok? && Templates().value.Hash? &&
        exists i :: 0 <= i < |Templates().value.entries| && IsRunScript(Templates().value.entries[i].1)
      ensures Templates() == Ok(Nil) ==> r == Ok(false)
      ensures r.Err? <==> Templates().Err? || !(Templates().value.Nil? || Templates().value.Hash?)
    {
      match Templates()
      case Err(e) => Err(e)
      case Ok(Nil) => Ok(false)
      case Ok(Hash(es)) =>
        var vs := Values(es);
        assert forall i :: 0 <= i < |es| ==> vs[i] == es[i].1;
        Ok(Str("bin/run") in vs || Str("bin/run.ps1") in vs)
      case Ok(_) => Err(NoMethodError)
    }
  }

  /** The job metadata of a release: the job's name, fingerprint, sha1 and version. */
  datatype JobMeta = JobMeta(
    name: Option<string>,
    fingerprint: Option<string>,
    sha1: Option<string>,
    version: Option<string>)

  /** `new(release_id: release.id, **job_meta.symbolize_keys)`: the columns of a new, unsaved record. */
  function NewRow(releaseId: Option<nat>, meta: JobMeta): (r: Row)
    ensures r.id.None? && r.blobstoreId.None?
    ensures r.releaseId == releaseId && r.name == meta.name && r.version == meta.version
    ensures r.fingerprint == meta.fingerprint && r.sha1 == meta.sha1
  {
    Row(None, releaseId, meta.name, meta.version, meta.fingerprint, meta.sha1, None,
        None, None, None, None, None, None)
  }

  // ---------------------------------------------------------------- the record object

  class Template {
    var id: Option<nat>
    var releaseId: Option<nat>
    var name: Option<string>
    var version: Option<string>
    var fingerprint: Option<string>
    var sha1: Option<string>
    var blobstoreId: Option<string>
    var packageNamesJson: Option<string>
    var logsJson: Option<string>
    var propertiesJson: Option<string>
    var consumesJson: Option<string>
    var providesJson: Option<string>
    var templatesJson: Option<string>

    /** The record's current column values. */
    function Columns(): Row
      reads this
    {
      Row(id, releaseId, name, version, fingerprint, sha1, blobstoreId,
          packageNamesJson, logsJson, propertiesJson, consumesJson, providesJson, templatesJson)
    }

    /** A record loaded from a stored row. */
    constructor Load(row: Row)
      ensures Columns() == row
    {
      id, releaseId, name, version := row.id, row.releaseId, row.name, row.version;
      fingerprint, sha1, blobstoreId := row.fingerprint, row.sha1, row.blobstoreId;
      packageNamesJson, logsJson, propertiesJson := row.packageNamesJson, row.logsJson, row.propertiesJson;
      consumesJson, providesJson, templatesJson := row.consumesJson, row.providesJson, row.templatesJson;
    }

    /** A new record that is not yet saved: no id, columns from the release and the job metadata. */
    constructor Init(releaseId: Option<nat>, meta: JobMeta)
      ensures Columns() == NewRow(releaseId, meta)
    {
      this.id, this.releaseId, this.blobstoreId := None, releaseId, None;
      this.name, this.version, this.fingerprint, this.sha1 := meta.name, meta.version, meta.fingerprint, meta.sha1;
      packageNamesJson, logsJson, propertiesJson := None, None, None;
      consumesJson, providesJson, templatesJson := None, None, None;
    }

    /** `package_names=` */
    method SetPackageNames(packages: Value)
      modifies this
      ensures Columns() == old(Columns()).(packageNamesJson := Some(JsonEncode(packages)))
      ensures Columns().PackageNames() == Ok(Normalize(packages))
    {
      packageNamesJson := Some(JsonEncode(packages));
      ColumnRoundTrip(packages);
    }

    /** `logs=` */
    method SetLogs(logsSpec: Value)
      modifies this
      ensures Columns() == old(Columns()).(logsJson := Some(JsonEncode(logsSpec)))
      ensures Columns().Logs() == Ok(Normalize(logsSpec))
    {
      logsJson := Some(JsonEncode(logsSpec));
      ColumnRoundTrip(logsSpec);
    }

    /** `properties=`; nil and false read back as an empty Hash. */
    method SetProperties(propertySpec: Value)
      modifies this
      ensures Columns() == old(Columns()).(propertiesJson := Some(JsonEncode(propertySpec)))
      ensures Columns().Properties() == Ok(if Truthy(propertySpec) then Normalize(propertySpec) else Hash([]))
    {
      propertiesJson := Some(JsonEncode(propertySpec));
      ColumnRoundTrip(propertySpec);
    }

    /** `consumes=` */
    method SetConsumes(consumesSpec: Value)
      modifies this
      ensures Columns() == old(Columns()).(consumesJson := Some(JsonEncode(consumesSpec)))
      ensures Columns().Consumes() == Ok(Normalize(consumesSpec))
    {
      consumesJson := Some(JsonEncode(consumesSpec));
      ColumnRoundTrip(consumesSpec);
    }

    /** `provides=` */
    method SetProvides(providesSpec: Value)
      modifies this
      ensures Columns() == old(Columns()).(providesJson := Some(JsonEncode(providesSpec)))
      ensures Columns().Provides() == Ok(Normalize(providesSpec))
    {
      providesJson := Some(JsonEncode(providesSpec));
      ColumnRoundTrip(providesSpec);
    }

    /** `templates=` */
    method SetTemplates(templatesSpec: Value)
      modifies this
      ensures Columns() == old(Columns()).(templatesJson := Some(JsonEncode(templatesSpec)))
      ensures Columns().Templates() == Ok(Normalize(templatesSpec))
    {
      templatesJson := Some(JsonEncode(templatesSpec));
      ColumnRoundTrip(templatesSpec);
    }

    /**
     * Lines 26-31 of `find_or_init_from_release_meta`: the manifest's fields set
     * one by one, `provides` and `consumes` only when they are truthy.
     */
    method SetManifestFields(packages: Value, manifest: seq<(Key, Value)>)
      modifies this
      ensures Columns() == ApplyManifest(old(Columns()), packages, manifest)
    {
      SetPackageNames(packages);
      SetLogs(Fetch(manifest, StrKey("logs")));
      SetProperties(Fetch(manifest, StrKey("properties")));
      var providesSpec := Fetch(manifest, StrKey("provides"));
      if Truthy(providesSpec) {
        SetProvides(providesSpec);
      }
      var consumesSpec := Fetch(manifest, StrKey("consumes"));
      if Truthy(consumesSpec) {
        SetConsumes(consumesSpec);
      }
      SetTemplates(Fetch(manifest, StrKey("templates")));
    }
  }

  // ---------------------------------------------------------------- parse_package_names

  /** `parse_package_names`: the manifest's `packages`, `[]` when it is nil or false, an error when it is not an Array. */
  function ParsePackageNames(manifest: seq<(Key, Value)>): (r: Outcome<Value>)
    ensures var packages := Fetch(manifest, StrKey("packages"));
      && (r.Err? <==> Truthy(packages) && !packages.Arr?)
      && (r.Err? ==> r.error == JobInvalidPackageSpec)
      && (r.Ok? ==> r.value.Arr?)
      && (packages.Arr? ==> r == Ok(packages))
      && (!Truthy(packages) ==> r == Ok(Arr([])))
  {
    var packages := Fetch(manifest, StrKey("packages"));
    if Truthy(packages) && !packages.Arr? then Err(JobInvalidPackageSpec)
    else if Truthy(packages) then Ok(packages)
    else Ok(Arr([]))
  }

  // ---------------------------------------------------------------- find_or_init_from_release_meta

  /** The lookup of `find_or_init_from_release_meta`: same name, release, fingerprint and version (nil matches NULL). */
  predicate Matches(row: Row, releaseId: Option<nat>, meta: JobMeta) {
    row.name == meta.name && row.releaseId == releaseId
    && row.fingerprint == meta.fingerprint && row.version == meta.version
  }

  /** `first(...)`: the position of the first matching row, or `|rows|` when none matches. */
  function FirstMatch(rows: seq<Row>, releaseId: Option<nat>, meta: JobMeta): (i: nat)
    ensures i <= |rows|
    ensures i < |rows| ==> Matches(rows[i], releaseId, meta)
    ensures forall j :: 0 <= j < i ==> !Matches(rows[j], releaseId, meta)
  {
    if rows == [] then 0
    else if Matches(rows[0], releaseId, meta) then 0
    else 1 + FirstMatch(rows[1..], releaseId, meta)
  }

  /** The record before the manifest is applied: the match with the metadata's sha1, or a new record. */
  function Located(rows: seq<Row>, releaseId: Option<nat>, meta: JobMeta): Row {
    var i := FirstMatch(rows, releaseId, meta);
    if i < |rows| then rows[i].(sha1 := meta.sha1) else NewRow(releaseId, meta)
  }

  /** The manifest's fields stored into `row`; `provides` and `consumes` only when they are truthy. */
  function ApplyManifest(row: Row, packages: Value, manifest: seq<(Key, Value)>): Row {
    var providesSpec := Fetch(manifest, StrKey("provides"));
    var consumesSpec := Fetch(manifest, StrKey("consumes"));
    row.(packageNamesJson := Some(JsonEncode(packages)),
         logsJson := Some(JsonEncode(Fetch(manifest, StrKey("logs")))),
         propertiesJson := Some(JsonEncode(Fetch(manifest, StrKey("properties")))),
         providesJson := if Truthy(providesSpec) then Some(JsonEncode(providesSpec)) else row.providesJson,
         consumesJson := if Truthy(consumesSpec) then Some(JsonEncode(consumesSpec)) else row.consumesJson,
         templatesJson := Some(JsonEncode(Fetch(manifest, StrKey("templates")))))
  }

  /** The columns of the record that `find_or_init_from_release_meta` returns, or the error it raises. */
  function FindOrInit(rows: seq<Row>, releaseId: Option<nat>, meta: JobMeta, manifest: seq<(Key, Value)>): (r: Outcome<Row>)
    ensures r.Err? <==> ParsePackageNames(manifest).Err?
    ensures r.Err? ==> r.error == JobInvalidPackageSpec
    ensures r.Ok? ==> Matches(r.value, releaseId, meta) && r.value.sha1 == meta.sha1
  {
    match ParsePackageNames(manifest)
    case Err(e) => Err(e)
    case Ok(packages) => Ok(ApplyManifest(Located(rows, releaseId, meta), packages, manifest))
  }

  /** The `templates` table. */
  class TemplateTable {
    var rows: seq<Row>

    constructor (rows: seq<Row>)
      ensures this.rows == rows
    {
      this.rows := rows;
    }

    /**
     * `find_or_init_from_release_meta`: the matching record with its sha1 replaced,
     * or a new unsaved record, with the manifest's fields set. Nothing is saved.
     */
    method FindOrInitFromReleaseMeta(releaseId: Option<nat>, meta: JobMeta, manifest: seq<(Key, Value)>)
      returns (r: Outcome<Template>)
      ensures rows == old(rows)
      ensures r.Err? ==> FindOrInit(rows, releaseId, meta, manifest) == Err(r.error)
      ensures r.Ok? ==> fresh(r.value) && FindOrInit(rows, releaseId, meta, manifest) == Ok(r.value.Columns())
    {
      var i := FirstMatch(rows, releaseId, meta);
      var template: Template;
      if i < |rows| {
        template := new Template.Load(rows[i]);
        template.sha1 := meta.sha1;
      } else {
        template := new Template.Init(releaseId, meta);
      }
      ghost var before := Located(rows, releaseId, meta);
      assert template.Columns() == before;
      var packages := ParsePackageNames(manifest);
      if packages.Err? {
        return Err(packages.error);
      }
      template.SetManifestFields(packages.value, manifest);
      return Ok(template);
    }
  }

  // ---------------------------------------------------------------- validate

  /** Characters that `String#strip` removes, so that a string made only of them is blank. */
  predicate IsBlankChar(c: char) {
    c == ' ' || c == '\t' || c == '\n' || c == '\r' || c == '\0' || c as int == 11 || c as int == 12
  }

  /** Sequel's presence test fails for nil and for a string of white space only. */
  predicate Blank(column: Option<string>) {
    column.None? || forall i :: 0 <= i < |column.value| ==> IsBlankChar(column.value[i])
  }

  /** `validates_presence [:release_id, :name, :version, :blobstore_id, :sha1]` */
  predicate Present(row: Row)
    ensures Present(row) ==>
      row.releaseId.Some? && row.name.Some? && row.version.Some? && row.blobstoreId.Some? && row.sha1.Some?
  {
    row.releaseId.Some? && !Blank(row.name) && !Blank(row.version) && !Blank(row.blobstoreId) && !Blank(row.sha1)
  }

  predicate SameIdentity(a: Row, b: Row) {
    a.releaseId == b.releaseId && a.name == b.name && a.version == b.version
  }

  /**
   * `validates_unique [:release_id, :name, :version]`: skipped when one of the three
   * is nil; a saved record is not compared with its own row.
   */
  predicate Unique(rows: seq<Row>, row: Row)
    ensures rows == [] ==> Unique(rows, row)
    ensures (row.id.None? && row.releaseId.Some? && row.name.Some? && row.version.Some?
             && exists j :: 0 <= j < |rows| && SameIdentity(rows[j], row)) ==> !Unique(rows, row)
  {
    row.releaseId.None? || row.name.None? || row.version.None?
    || forall j :: 0 <= j < |rows| && (row.id.None? || rows[j].id != row.id) ==> !SameIdentity(rows[j], row)
  }

  /** `validate`, without the format check on name and version. */
  predicate Validate(rows: seq<Row>, row: Row)
    ensures Validate(rows, row) ==>
      forall j :: 0 <= j < |rows| && SameIdentity(rows[j], row) ==> row.id.Some? && rows[j].id == row.id
  {
    Present(row) && Unique(rows, row)
  }

  /** A table of saved records: each has its own id and passes validation. */
  predicate StoredTable(rows: seq<Row>) {
    && (forall j :: 0 <= j < |rows| ==> rows[j].id.Some? && Validate(rows, rows[j]))
    && (forall j, k :: 0 <= j < k < |rows| ==> rows[j].id != rows[k].id)
  }
}
