/**
 * The Ruby objects that flow through the director's JSON columns: nil, booleans,
 * integers, strings, symbols, arrays and hashes. A Hash is kept as its ordered
 * list of entries, because Ruby hashes (and JSON objects) keep insertion order.
 */
module RubyValue {
  import opened Wrappers

  /** A hash key: a String (`'key'`) or a Symbol (`:key`), both spelled `name`. */
  datatype Key = StrKey(name: string) | SymKey(name: string)

  datatype Value =
    | Nil
    | Bool(b: bool)
    | Int(i: int)
    | Str(s: string)
    | Sym(s: string)
    | Arr(items: seq<Value>)
    | Hash(entries: seq<(Key, Value)>)

  /** The exceptions the modelled code can raise. */
  datatype Exception =
    | ParserError             // JSON::ParserError: malformed column text
    | Unsupported             // well-formed JSON outside the modelled subset (floats, surrogate escapes)
    | NoMethodError           // a method called on an object that lacks it
    | JobInvalidPackageSpec   // Bosh::Director::JobInvalidPackageSpec

  type Outcome<T> = Result<T, Exception>

  /** Ruby truthiness: everything except nil and false. */
  predicate Truthy(v: Value) {
    !(v.Nil? || v == Bool(false))
  }

  predicate DistinctKeys(h: seq<(Key, Value)>) {
    forall i, j :: 0 <= i < j < |h| ==> h[i].0 != h[j].0
  }

  /** No two keys share a name, so that a String key and a Symbol key never fold into one. */
  predicate DistinctNames(h: seq<(Key, Value)>) {
    forall i, j :: 0 <= i < j < |h| ==> h[i].0.name != h[j].0.name
  }

  predicate HasKey(h: seq<(Key, Value)>, k: Key) {
    exists i :: 0 <= i < |h| && h[i].0 == k
  }

  /** The position of the first entry under `k`, or `|h|` when there is none. */
  function IndexOf(h: seq<(Key, Value)>, k: Key): (r: nat)
    ensures r <= |h|
    ensures r < |h| <==> HasKey(h, k)
    ensures r < |h| ==> h[r].0 == k
    ensures forall j :: 0 <= j < r ==> h[j].0 != k
  {
    if h == [] then 0
    else if h[0].0 == k then 0
    else 1 + IndexOf(h[1..], k)
  }

  /** `h[k]`: the value stored under `k`, or nil when there is none. */
  function Fetch(h: seq<(Key, Value)>, k: Key): (r: Value)
    ensures !HasKey(h, k) ==> r == Nil
    ensures forall i :: 0 <= i < |h| && h[i].0 == k && (forall j :: 0 <= j < i ==> h[j].0 != k) ==> r == h[i].1
  {
    var i := IndexOf(h, k);
    if i < |h| then h[i].1 else Nil
  }

  /**
   * `h[k] = v`: an existing key keeps its position and takes the new value,
   * a new key is appended.
   */
  function Put(h: seq<(Key, Value)>, k: Key, v: Value): (r: seq<(Key, Value)>)
    ensures HasKey(r, k) && Fetch(r, k) == v
    ensures !HasKey(h, k) ==> r == h + [(k, v)]
  {
    var i := IndexOf(h, k);
    var r := if i < |h| then h[i := (k, v)] else h + [(k, v)];
    assert r[i] == (k, v) && forall j :: 0 <= j < i ==> r[j] == h[j];
    r
  }

  /** Storing the pairs `ps` one after another into `h`, as a parser building a Hash does. */
  function PutAll(h: seq<(Key, Value)>, ps: seq<(Key, Value)>): (r: seq<(Key, Value)>)
    decreases |ps|
  {
    if ps == [] then h else PutAll(Put(h, ps[0].0, ps[0].1), ps[1..])
  }

  /**
   * The value that comes back after a value is written out as JSON and read in
   * again: symbols become strings, every hash key becomes a String key, and
   * entries whose keys share a name fold into one, as `Hash#[]=` does.
   */
  function Normalize(v: Value): Value
    decreases v, 1
  {
    match v
    case Sym(s) => Str(s)
    case Arr(xs) => Arr(NormalizedItems(xs))
    case Hash(es) => Hash(PutAll([], NormalizedEntries(es)))
    case _ => v
  }

  function NormalizedItems(xs: seq<Value>): (r: seq<Value>)
    ensures |r| == |xs|
    decreases Arr(xs), 0
  {
    seq(|xs|, i requires 0 <= i < |xs| => Normalize(xs[i]))
  }

  /** Each entry with its key turned into a String key and its value normalized, before folding. */
  function NormalizedEntries(es: seq<(Key, Value)>): (r: seq<(Key, Value)>)
    ensures |r| == |es|
    decreases Hash(es), 0
  {
    seq(|es|, i requires 0 <= i < |es| => (StrKey(es[i].0.name), Normalize(es[i].1)))
  }

  /** Values that a JSON parser can return: no symbols, String keys only, no key twice. */
  predicate Plain(v: Value) {
    match v
    case Sym(_) => false
    case Arr(xs) => forall i :: 0 <= i < |xs| ==> Plain(xs[i])
    case Hash(es) =>
      DistinctKeys(es) && forall i :: 0 <= i < |es| ==> es[i].0.StrKey? && Plain(es[i].1)
    case _ => true
  }
  // ---------------------------------------------------------------- facts about storing into a Hash

  /** `h[k] = v` adds no entry other than `(k, v)`, and keeps the keys distinct. */
  lemma PutEntries(h: seq<(Key, Value)>, k: Key, v: Value)
    ensures forall e :: e in Put(h, k, v) ==> e in h || e == (k, v)
    ensures DistinctKeys(h) ==> DistinctKeys(Put(h, k, v))
  {
    var i := IndexOf(h, k);
    var r := Put(h, k, v);
    if i < |h| {
      assert r == h[i := (k, v)];
      assert forall j :: 0 <= j < |r| ==> r[j].0 == h[j].0;
      forall e | e in r
        ensures e in h || e == (k, v)
      {
        var j :| 0 <= j < |r| && r[j] == e;
        if j != i {
          assert r[j] == h[j];
        }
      }
    }
  }

  /** Storing pairs one by one adds no entry other than theirs, and keeps the keys distinct. */
  lemma {:induction false} PutAllEntries(h: seq<(Key, Value)>, ps: seq<(Key, Value)>)
    ensures forall e :: e in PutAll(h, ps) ==> e in h || e in ps
    ensures DistinctKeys(h) ==> DistinctKeys(PutAll(h, ps))
    decreases |ps|
  {
    if ps != [] {
      var h' := Put(h, ps[0].0, ps[0].1);
      PutEntries(h, ps[0].0, ps[0].1);
      PutAllEntries(h', ps[1..]);
      forall e | e in PutAll(h, ps)
        ensures e in h || e in ps
      {
        if e !in h' {
          assert e in ps[1..];
        }
      }
    }
  }

  /** When no key repeats, storing the pairs one by one appends them in order. */
  lemma {:induction false} PutAllFresh(h: seq<(Key, Value)>, ps: seq<(Key, Value)>)
    requires DistinctKeys(h + ps)
    ensures PutAll(h, ps) == h + ps
    decreases |ps|
  {
    if ps != [] {
      var hp := h + ps;
      forall j | 0 <= j < |h|
        ensures h[j].0 != ps[0].0
      {
        assert hp[j] == h[j] && hp[|h|] == ps[0];
      }
      var h' := h + [ps[0]];
      assert h' + ps[1..] == hp;
      PutAllFresh(h', ps[1..]);
    }
  }

  // ---------------------------------------------------------------- facts about Normalize

  /** What comes back from a JSON column is plain: no symbols, String keys only, no key twice. */
  lemma {:induction false} NormalizeIsPlain(v: Value)
    ensures Plain(Normalize(v))
    decreases v
  {
    match v
    case Arr(xs) =>
      var ns := NormalizedItems(xs);
      forall i | 0 <= i < |ns|
        ensures Plain(ns[i])
      {
        NormalizeIsPlain(xs[i]);
      }
    case Hash(es) =>
      var ne := NormalizedEntries(es);
      var r := PutAll([], ne);
      PutAllEntries([], ne);
      forall i | 0 <= i < |r|
        ensures r[i].0.StrKey? && Plain(r[i].1)
      {
        assert r[i] in ne;
        var j :| 0 <= j < |ne| && ne[j] == r[i];
        NormalizeIsPlain(es[j].1);
      }
    case _ =>
  }

  /** A plain value comes back unchanged. */
  lemma {:induction false} NormalizePlain(v: Value)
    requires Plain(v)
    ensures Normalize(v) == v
    decreases v
  {
    match v
    case Arr(xs) =>
      forall i | 0 <= i < |xs|
        ensures NormalizedItems(xs)[i] == xs[i]
      {
        NormalizePlain(xs[i]);
      }
      assert NormalizedItems(xs) == xs;
    case Hash(es) =>
      forall i | 0 <= i < |es|
        ensures NormalizedEntries(es)[i] == es[i]
      {
        NormalizePlain(es[i].1);
      }
      assert NormalizedEntries(es) == es;
      assert [] + es == es;
      PutAllFresh([], es);
    case _ =>
  }

  /** Writing back a value that was read from a column and reading it again changes nothing. */
  lemma NormalizeIdempotent(v: Value)
    ensures Normalize(Normalize(v)) == Normalize(v)
  {
    NormalizeIsPlain(v);
    NormalizePlain(Normalize(v));
  }
  /** Distinct key names stay distinct once every key is a String key. */
  lemma NormalizedDistinct(es: seq<(Key, Value)>)
    requires DistinctNames(es)
    ensures DistinctKeys(NormalizedEntries(es))
  {
    var ne := NormalizedEntries(es);
    forall i, j | 0 <= i < j < |ne|
      ensures ne[i].0 != ne[j].0
    {
      assert ne[i].0.name == es[i].0.name && ne[j].0.name == es[j].0.name;
    }
  }

  /** A Hash whose key names are distinct comes back entry by entry, in the same order. */
  lemma NormalizeDistinctHash(es: seq<(Key, Value)>)
    requires DistinctNames(es)
    ensures Normalize(Hash(es)) == Hash(NormalizedEntries(es))
  {
    var ne := NormalizedEntries(es);
    NormalizedDistinct(es);
    assert [] + ne == ne;
    PutAllFresh([], ne);
  }
}
