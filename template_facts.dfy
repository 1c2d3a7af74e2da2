/**
 * What the director relies on about a job's record: values stored in its JSON
 * columns read back, `properties` is never nil, when a job is an errand, what
 * `find_or_init_from_release_meta` returns on a hit and on a miss, and how
 * validation makes the lookup's answer unique.
 */
module TemplateFacts {
  import opened Wrappers
  import opened RubyValue
  import opened Models

  // ---------------------------------------------------------------- JSON columns

  /** Columns that are NULL or hold `null` read as nil, except `properties`, which reads as an empty Hash. */
  lemma NullColumns(row: Row)
    requires row.packageNamesJson in {None, Some("null")} && row.logsJson in {None, Some("null")}
    requires row.propertiesJson in {None, Some("null")} && row.consumesJson in {None, Some("null")}
    requires row.providesJson in {None, Some("null")} && row.templatesJson in {None, Some("null")}
    ensures row.PackageNames() == Ok(Nil) && row.Logs() == Ok(Nil) && row.Consumes() == Ok(Nil)
    ensures row.Provides() == Ok(Nil) && row.Templates() == Ok(Nil)
    ensures row.Properties() == Ok(Hash([]))
    ensures row.RunsAsErrand() == Ok(false)
  {
  }

  /** A value read from a column is stored again unchanged: writing back what was read is a fixed point. */
  lemma RereadIsStable(v: Value)
    ensures var w := Normalize(v);
      Plain(w) && ObjectOrNil(Some(JsonEncode(w))) == Ok(w)
  {
    NormalizeIsPlain(v);
    NormalizeIdempotent(v);
    ColumnRoundTrip(Normalize(v));
  }

  /** A plain value (String keys, no symbols) stored in a column reads back exactly. */
  lemma PlainRoundTrip(v: Value)
    requires Plain(v)
    ensures ObjectOrNil(Some(JsonEncode(v))) == Ok(v)
  {
    NormalizePlain(v);
    ColumnRoundTrip(v);
  }

  /** `properties` after `properties=`: the value as stored, or an empty Hash for nil and false. */
  lemma PropertiesAfterSet(row: Row, v: Value)
    ensures row.(propertiesJson := Some(JsonEncode(v))).Properties()
         == Ok(if Truthy(v) then Normalize(v) else Hash([]))
  {
    ColumnRoundTrip(v);
  }

  /** `properties = {key: 'value'}` reads back as `{'key' => 'value'}`. */
  lemma SymbolKeyReadsAsString(row: Row)
    ensures row.(propertiesJson := Some(JsonEncode(Hash([(SymKey("key"), Str("value"))])))).Properties()
         == Ok(Hash([(StrKey("key"), Str("value"))]))
  {
    var v := Hash([(SymKey("key"), Str("value"))]);
    PropertiesAfterSet(row, v);
    NormalizeDistinctHash(v.entries);
    assert NormalizedEntries(v.entries) == [(StrKey("key"), Str("value"))];
  }

  // ---------------------------------------------------------------- runs_as_errand?

  /**
   * `runs_as_errand?` after `templates=`: false for nil; for a Hash, whether some
   * value of the Hash as read back is `bin/run` or `bin/run.ps1` (where a String
   * key and a Symbol key share a name, the later value wins); any other value raises.
   */
  lemma RunsAsErrandAfterSet(row: Row, v: Value)
    ensures var r := row.(templatesJson := Some(JsonEncode(v))).RunsAsErrand();
      var w := Normalize(v);
      && (v.Nil? ==> r == Ok(false))
      && (v.Hash? ==> r == Ok(exists i :: 0 <= i < |w.entries| && IsRunScript(w.entries[i].1)))
      && (!v.Nil? && !v.Hash? ==> r == Err(NoMethodError))
  {
    ColumnRoundTrip(v);
  }

  /** With distinct key names, that is whether some value of the Hash itself names a run script. */
  lemma RunsAsErrandDistinctNames(row: Row, es: seq<(Key, Value)>)
    requires DistinctNames(es)
    ensures row.(templatesJson := Some(JsonEncode(Hash(es)))).RunsAsErrand()
         == Ok(exists i :: 0 <= i < |es| && IsRunScript(Normalize(es[i].1)))
  {
    RunsAsErrandAfterSet(row, Hash(es));
    NormalizeDistinctHash(es);
    var ne := NormalizedEntries(es);
    assert forall i :: 0 <= i < |ne| ==> ne[i].1 == Normalize(es[i].1);
  }

  /** A templates Hash mapping a path to `bin/run.ps1` makes the job an errand. */
  lemma ErrandByRunScript(row: Row)
    ensures row.(templatesJson := Some(JsonEncode(Hash([(StrKey("path_key"), Str("bin/run.ps1"))])))).RunsAsErrand()
         == Ok(true)
  {
    var es := [(StrKey("path_key"), Str("bin/run.ps1"))];
    RunsAsErrandDistinctNames(row, es);
    assert IsRunScript(Normalize(es[0].1));
  }

  /** A templates Hash without a run script does not make the job an errand. */
  lemma NoErrandWithoutRunScript(row: Row)
    ensures row.(templatesJson := Some(JsonEncode(Hash([(SymKey("key"), Str("value"))])))).RunsAsErrand()
         == Ok(false)
  {
    RunsAsErrandDistinctNames(row, [(SymKey("key"), Str("value"))]);
  }

  /** `{run: 'bin/run', 'run' => 'x'}` reads back as `{'run' => 'x'}`: the later value wins. */
  lemma FoldedKeyReadBack()
    ensures Normalize(Hash([(SymKey("run"), Str("bin/run")), (StrKey("run"), Str("x"))]))
         == Hash([(StrKey("run"), Str("x"))])
  {
    var es := [(SymKey("run"), Str("bin/run")), (StrKey("run"), Str("x"))];
    var ne := NormalizedEntries(es);
    var h1 := [(StrKey("run"), Str("bin/run"))];
    var h2 := [(StrKey("run"), Str("x"))];
    assert ne == [(StrKey("run"), Str("bin/run")), (StrKey("run"), Str("x"))];
    assert Put([], StrKey("run"), Str("bin/run")) == h1 by {
      assert !HasKey([], StrKey("run"));
    }
    assert Put(h1, StrKey("run"), Str("x")) == h2 by {
      assert IndexOf(h1, StrKey("run")) == 0;
    }
    assert PutAll([], ne) == h2 by {
      assert PutAll([], ne) == PutAll(h1, ne[1..]);
      assert PutAll(h1, ne[1..]) == PutAll(h2, []);
    }
  }

  /** So those templates do not make the job an errand, although `bin/run` was among the values set. */
  lemma FoldedKeyHidesRunScript(row: Row)
    ensures var v := Hash([(SymKey("run"), Str("bin/run")), (StrKey("run"), Str("x"))]);
      row.(templatesJson := Some(JsonEncode(v))).RunsAsErrand() == Ok(false)
  {
    var v := Hash([(SymKey("run"), Str("bin/run")), (StrKey("run"), Str("x"))]);
    RunsAsErrandAfterSet(row, v);
    FoldedKeyReadBack();
  }

  // ---------------------------------------------------------------- find_or_init_from_release_meta

  /**
   * On a hit, the first matching row comes back with the metadata's sha1:
   * the same id, release, name, fingerprint, version and blobstore id.
   */
  lemma FindOrInitHit(rows: seq<Row>, releaseId: Option<nat>, meta: JobMeta, manifest: seq<(Key, Value)>, k: nat)
    requires k < |rows| && Matches(rows[k], releaseId, meta)
    requires forall j :: 0 <= j < k ==> !Matches(rows[j], releaseId, meta)
    ensures var r := FindOrInit(rows, releaseId, meta, manifest);
      r.Ok? ==>
        && r.value.id == rows[k].id && r.value.blobstoreId == rows[k].blobstoreId
        && r.value.releaseId == releaseId && r.value.name == meta.name
        && r.value.fingerprint == meta.fingerprint && r.value.version == meta.version
        && r.value.sha1 == meta.sha1
  {
    assert FirstMatch(rows, releaseId, meta) == k;
  }

  /**
   * On a miss, a new record that is not saved: no id, the release's id, and the
   * metadata's name, fingerprint, sha1 and version.
   */
  lemma FindOrInitMiss(rows: seq<Row>, releaseId: Option<nat>, meta: JobMeta, manifest: seq<(Key, Value)>)
    requires forall j :: 0 <= j < |rows| ==> !Matches(rows[j], releaseId, meta)
    ensures var r := FindOrInit(rows, releaseId, meta, manifest);
      r.Ok? ==>
        && r.value.id.None? && r.value.blobstoreId.None?
        && r.value.releaseId == releaseId && r.value.name == meta.name
        && r.value.fingerprint == meta.fingerprint && r.value.version == meta.version
        && r.value.sha1 == meta.sha1
  {
    assert FirstMatch(rows, releaseId, meta) == |rows|;
  }

  /** The record from a miss fails validation until a blobstore id is set. */
  lemma FindOrInitMissNotValid(rows: seq<Row>, releaseId: Option<nat>, meta: JobMeta, manifest: seq<(Key, Value)>)
    requires forall j :: 0 <= j < |rows| ==> !Matches(rows[j], releaseId, meta)
    ensures var r := FindOrInit(rows, releaseId, meta, manifest);
      r.Ok? ==> !Validate(rows, r.value)
  {
    FindOrInitMiss(rows, releaseId, meta, manifest);
  }

  /** What a record reads back after the manifest's fields have been stored into it. */
  lemma ApplyManifestReads(row: Row, packages: Value, manifest: seq<(Key, Value)>)
    ensures var r := ApplyManifest(row, packages, manifest);
      var properties := Fetch(manifest, StrKey("properties"));
      var providesSpec := Fetch(manifest, StrKey("provides"));
      var consumesSpec := Fetch(manifest, StrKey("consumes"));
      && r.PackageNames() == Ok(Normalize(packages))
      && r.Logs() == Ok(Normalize(Fetch(manifest, StrKey("logs"))))
      && r.Properties() == Ok(if Truthy(properties) then Normalize(properties) else Hash([]))
      && r.Templates() == Ok(Normalize(Fetch(manifest, StrKey("templates"))))
      && r.Provides() == (if Truthy(providesSpec) then Ok(Normalize(providesSpec)) else row.Provides())
      && r.Consumes() == (if Truthy(consumesSpec) then Ok(Normalize(consumesSpec)) else row.Consumes())
  {
    var r := ApplyManifest(row, packages, manifest);
    var properties := Fetch(manifest, StrKey("properties"));
    var providesSpec := Fetch(manifest, StrKey("provides"));
    var consumesSpec := Fetch(manifest, StrKey("consumes"));
    assert r.PackageNames() == Ok(Normalize(packages)) by {
      ColumnRoundTrip(packages);
    }
    assert r.Logs() == Ok(Normalize(Fetch(manifest, StrKey("logs")))) by {
      ColumnRoundTrip(Fetch(manifest, StrKey("logs")));
    }
    assert r.Properties() == Ok(if Truthy(properties) then Normalize(properties) else Hash([])) by {
      ColumnRoundTrip(properties);
    }
    assert r.Templates() == Ok(Normalize(Fetch(manifest, StrKey("templates")))) by {
      ColumnRoundTrip(Fetch(manifest, StrKey("templates")));
    }
    assert r.Provides() == (if Truthy(providesSpec) then Ok(Normalize(providesSpec)) else row.Provides()) by {
      ColumnRoundTrip(providesSpec);
    }
    assert r.Consumes() == (if Truthy(consumesSpec) then Ok(Normalize(consumesSpec)) else row.Consumes()) by {
      ColumnRoundTrip(consumesSpec);
    }
  }

  /**
   * The manifest's fields as the returned record reads them: packages, logs,
   * properties and templates always; provides and consumes only when truthy,
   * otherwise the record keeps what it had. The call raises exactly when
   * `packages` is truthy and not an Array.
   */
  lemma FindOrInitReadsManifest(rows: seq<Row>, releaseId: Option<nat>, meta: JobMeta, manifest: seq<(Key, Value)>)
    ensures var r := FindOrInit(rows, releaseId, meta, manifest);
      var packages := Fetch(manifest, StrKey("packages"));
      var properties := Fetch(manifest, StrKey("properties"));
      var providesSpec := Fetch(manifest, StrKey("provides"));
      var consumesSpec := Fetch(manifest, StrKey("consumes"));
      var before := Located(rows, releaseId, meta);
      && (r.Err? <==> Truthy(packages) && !packages.Arr?)
      && (r.Err? ==> r.error == JobInvalidPackageSpec)
      && (r.Ok? ==>
        && r.value.PackageNames() == Ok(if Truthy(packages) then Normalize(packages) else Arr([]))
        && r.value.Logs() == Ok(Normalize(Fetch(manifest, StrKey("logs"))))
        && r.value.Properties() == Ok(if Truthy(properties) then Normalize(properties) else Hash([]))
        && r.value.Templates() == Ok(Normalize(Fetch(manifest, StrKey("templates"))))
        && r.value.Provides() == (if Truthy(providesSpec) then Ok(Normalize(providesSpec)) else before.Provides())
        && r.value.Consumes() == (if Truthy(consumesSpec) then Ok(Normalize(consumesSpec)) else before.Consumes()))
  {
    var parsed := ParsePackageNames(manifest);
    if parsed.Ok? {
      ApplyManifestReads(Located(rows, releaseId, meta), parsed.value, manifest);
      assert Normalize(Arr([])) == Arr([]);
    }
  }

  // ---------------------------------------------------------------- validate

  /**
   * In a table of saved, valid records at most one row has a given release,
   * name and version, so any matching row is the one the lookup finds.
   */
  lemma StoredMatchIsFirst(rows: seq<Row>, releaseId: Option<nat>, meta: JobMeta, k: nat)
    requires StoredTable(rows)
    requires k < |rows| && Matches(rows[k], releaseId, meta)
    ensures FirstMatch(rows, releaseId, meta) == k
  {
    var i := FirstMatch(rows, releaseId, meta);
    assert i <= k && SameIdentity(rows[i], rows[k]);
    assert Present(rows[k]) && Unique(rows, rows[k]);
    assert rows[i].id == rows[k].id;
  }
}
