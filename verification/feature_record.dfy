/**
 * The feature record built for one request: a Python dict from feature name
 * to value, filled by a comprehension over the feature schema, and the single
 * DataFrame row made from it.
 *
 * A dict keeps its keys in insertion order, and assigning to a key that is
 * already present replaces its value in place. The record is therefore
 * modelled as a sequence of (name, value) entries.
 */
module FeatureRecord {
  import opened Json

  type Record = seq<(string, Value)>

  /** The values of a one-row frame, in column order. */
  type Row = seq<Value>

  /** A one-row DataFrame: its column names and the values of its single row. */
  datatype Frame = Frame(columns: seq<string>, row: Row)

  /** The value a feature missing from the request body takes. */
  const Missing := Int(0)

  function Keys(r: Record): (ks: seq<string>)
    ensures |ks| == |r|
    ensures forall i :: 0 <= i < |r| ==> ks[i] == r[i].0
  {
    seq(|r|, i requires 0 <= i < |r| => r[i].0)
  }

  /** The DataFrame row built from a one-record list: one column per key, in key order. */
  function RowOf(r: Record): (row: Row)
    ensures |row| == |r|
    ensures forall i :: 0 <= i < |r| ==> row[i] == r[i].1
  {
    seq(|r|, i requires 0 <= i < |r| => r[i].1)
  }

  /** `pd.DataFrame([r])`: one column per entry of the record, named by its key, in record order. */
  function ToFrame(r: Record): (f: Frame)
    ensures |f.columns| == |f.row| == |r|
    ensures forall i :: 0 <= i < |r| ==> (f.columns[i], f.row[i]) == r[i]
  {
    Frame(Keys(r), RowOf(r))
  }

  predicate Distinct(s: seq<string>)
  {
    forall i, j :: 0 <= i < j < |s| ==> s[i] != s[j]
  }

  /** `d[key] = v`: replace the entry for key where it stands, or append one. */
  function Insert(r: Record, key: string, v: Value): (r': Record)
    ensures Keys(r') == if key in Keys(r) then Keys(r) else Keys(r) + [key]
    ensures forall i :: 0 <= i < |r| ==> r'[i] == if r[i].0 == key then (key, v) else r[i]
    ensures key !in Keys(r) ==> r'[|r|] == (key, v)
  {
    if key in Keys(r) then
      seq(|r|, i requires 0 <= i < |r| => if r[i].0 == key then (key, v) else r[i])
    else
      r + [(key, v)]
  }

  /** The position of the first occurrence of x in s. */
  function FirstIndex(s: seq<string>, x: string): (i: nat)
    requires x in s
    ensures i < |s| && s[i] == x && x !in s[..i]
  {
    if s[0] == x then 0
    else
      var i := FirstIndex(s[1..], x);
      assert s[..i + 1] == [s[0]] + s[1..][..i];
      i + 1
  }

  /** Appending a name to a sequence moves no first occurrence, and a new name first occurs at the end. */
  lemma FirstIndexAfterAppend(init: seq<string>, last: string, x: string)
    requires x in init || x == last
    ensures x in init ==> FirstIndex(init + [last], x) == FirstIndex(init, x)
    ensures x !in init ==> FirstIndex(init + [last], x) == |init|
  {
    var s := init + [last];
    var i := FirstIndex(s, x);
    if x in init {
      var k := FirstIndex(init, x);
      assert forall j :: 0 <= j < |init| ==> s[j] == init[j];
      assert forall j :: 0 <= j < k ==> init[j] != x by {
        assert forall j :: 0 <= j < k ==> init[j] == init[..k][j];
      }
      assert forall j :: 0 <= j < i ==> s[j] != x by {
        assert forall j :: 0 <= j < i ==> s[j] == s[..i][j];
      }
    }
  }

  /** The names of s in order of first occurrence, each once. */
  function Dedup(s: seq<string>): (d: seq<string>)
    ensures Distinct(d)
    ensures forall x :: x in d <==> x in s
    ensures forall i, j :: 0 <= i < j < |d| ==> FirstIndex(s, d[i]) < FirstIndex(s, d[j])
    ensures |d| <= |s|
    decreases |s|
  {
    if s == [] then []
    else
      var init, last := s[..|s| - 1], s[|s| - 1];
      assert s == init + [last];
      assert forall x :: x in s <==> x in init || x == last;
      var d := Dedup(init);
      forall x | x in init || x == last
        ensures x in init ==> FirstIndex(s, x) == FirstIndex(init, x)
        ensures x !in init ==> FirstIndex(s, x) == |init|
      {
        FirstIndexAfterAppend(init, last, x);
      }
      if last in init then d else d + [last]
  }

  /**
   * `{key: body.get(key, 0) for key in schema}`: the comprehension assigns
   * the keys of the schema one after the other into an empty dict.
   */
  function Assemble(schema: seq<string>, body: map<string, Value>): (r: Record)
    ensures Keys(r) == Dedup(schema)
    ensures forall i :: 0 <= i < |r| ==> r[i].1 == Get(body, r[i].0, Missing)
    decreases |schema|
  {
    if schema == [] then []
    else
      var init, key := schema[..|schema| - 1], schema[|schema| - 1];
      Insert(Assemble(init, body), key, Get(body, key, Missing))
  }

  /** The value a record holds for a key: the entry a dict lookup finds. */
  function Lookup(r: Record, key: string): Option<Value>
  {
    if r == [] then None
    else if r[0].0 == key then Some(r[0].1)
    else Lookup(r[1..], key)
  }

  lemma {:induction false} LookupFinds(r: Record, key: string, v: Value)
    requires forall i :: 0 <= i < |r| && r[i].0 == key ==> r[i].1 == v
    ensures Lookup(r, key) == if key in Keys(r) then Some(v) else None
  {
    if r != [] {
      assert forall i :: 0 <= i < |r| - 1 ==> r[1..][i] == r[i + 1];
      LookupFinds(r[1..], key, v);
      assert Keys(r) == [r[0].0] + Keys(r[1..]);
    }
  }

  /** A schema without repeated names is kept as it is. */
  lemma {:induction false} DedupOfDistinct(s: seq<string>)
    requires Distinct(s)
    ensures Dedup(s) == s
    decreases |s|
  {
    if s != [] {
      var init := s[..|s| - 1];
      assert init + [s[|s| - 1]] == s;
      DedupOfDistinct(init);
      assert s[|s| - 1] !in init;
    }
  }

  /**
   * The record holds exactly the schema's features: a schema feature maps to
   * the body's value if the body has the key and to 0 otherwise, and a name
   * outside the schema has no entry.
   */
  lemma AssembleLookup(schema: seq<string>, body: map<string, Value>, key: string)
    ensures Lookup(Assemble(schema, body), key) ==
              if key in schema then Some(if key in body then body[key] else Missing) else None
  {
    LookupFinds(Assemble(schema, body), key, Get(body, key, Missing));
  }

  /** With a schema of distinct names the record has one entry per name, in schema order. */
  lemma AssembleFollowsSchema(schema: seq<string>, body: map<string, Value>)
    requires Distinct(schema)
    ensures Keys(Assemble(schema, body)) == schema
    ensures |RowOf(Assemble(schema, body))| == |schema|
    ensures forall i :: 0 <= i < |schema| ==> RowOf(Assemble(schema, body))[i] == Get(body, schema[i], Missing)
  {
    DedupOfDistinct(schema);
  }

  /** Two bodies that give the same value to every schema name after defaulting. */
  predicate SameFeatures(schema: seq<string>, b1: map<string, Value>, b2: map<string, Value>)
  {
    forall key :: key in schema ==> Get(b1, key, Missing) == Get(b2, key, Missing)
  }

  /** The record depends on the body only through the defaulted values of the schema names. */
  lemma {:induction false} AssembleDependsOnlyOnFeatures(schema: seq<string>, b1: map<string, Value>, b2: map<string, Value>)
    requires SameFeatures(schema, b1, b2)
    ensures Assemble(schema, b1) == Assemble(schema, b2)
    decreases |schema|
  {
    if schema != [] {
      var init := schema[..|schema| - 1];
      assert forall key :: key in init ==> key in schema;
      AssembleDependsOnlyOnFeatures(init, b1, b2);
      assert schema[|schema| - 1] in schema;
    }
  }

  /** Keys outside the schema do not change the record. */
  lemma AssembleIgnoresExtraKeys(schema: seq<string>, b1: map<string, Value>, b2: map<string, Value>)
    requires forall key :: key in schema ==> (key in b1 <==> key in b2) && (key in b1 ==> b1[key] == b2[key])
    ensures Assemble(schema, b1) == Assemble(schema, b2)
  {
    AssembleDependsOnlyOnFeatures(schema, b1, b2);
  }

  /** Leaving a feature out of the body is the same as sending 0 for it. */
  lemma OmittedFeatureIsZero(schema: seq<string>, body: map<string, Value>, key: string)
    ensures Assemble(schema, body - {key}) == Assemble(schema, body[key := Missing])
  {
    AssembleDependsOnlyOnFeatures(schema, body - {key}, body[key := Missing]);
  }
}
