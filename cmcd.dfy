/** CMCD records as both engines build them: a JavaScript object whose keys
    are CMCD metric names and whose values are strings, numbers or booleans.
    A JavaScript object holds each key once and remembers the order in which
    keys were first added; assigning to a key it already has replaces the
    value in place. */
module Cmcd {
  import opened Wrappers

  /** A field value. `Undefined` is the value JavaScript stores when a field
      is assigned the result of a function that returned nothing. Numbers are
      integers here: the model takes every number the engines report to be a
      whole number. */
  datatype Value = Str(s: string) | Num(n: int) | Bool(b: bool) | Undefined

  /** The delivery mode of an engine: `config.mode || 'json'`, where
      `Unrecognised` is any other mode string. */
  datatype Mode = Json | Query | Unrecognised

  /** `config.mode || 'json'`, compared with `'json'` and `'query'`: an absent
      or empty mode means json. */
  function ModeOf(configured: Option<string>): (m: Mode)
    ensures m == Json <==> configured.None? || configured.value == "" || configured.value == "json"
    ensures m == Query <==> configured == Some("query")
  {
    if configured.None? || configured.value == "" then Json
    else if configured.value == "json" then Json
    else if configured.value == "query" then Query
    else Unrecognised
  }

  /** The keys of a field list, in order. */
  function Keys(fields: seq<(string, Value)>): (ks: seq<string>)
    ensures |ks| == |fields|
    ensures forall i | 0 <= i < |fields| :: ks[i] == fields[i].0
  {
    seq(|fields|, i requires 0 <= i < |fields| => fields[i].0)
  }

  predicate Distinct(ks: seq<string>)
  {
    forall i, j | 0 <= i < j < |ks| :: ks[i] != ks[j]
  }

  /** A record: fields in insertion order, no key twice. */
  type Record = fields: seq<(string, Value)> | Distinct(Keys(fields)) witness []

  /** The position of key `k` in `r`, or -1. */
  function KeyIndex(r: Record, k: string): (i: int)
    ensures -1 <= i < |r|
    ensures i == -1 <==> k !in Keys(r)
    ensures 0 <= i ==> r[i].0 == k
  {
    if k in Keys(r) then
      var i :| 0 <= i < |r| && Keys(r)[i] == k;
      i
    else -1
  }

  /** `r[k]`: the value stored under `k`, if any. */
  function Lookup(r: Record, k: string): (v: Option<Value>)
    ensures v.Some? <==> k in Keys(r)
    ensures forall i | 0 <= i < |r| && r[i].0 == k :: v == Some(r[i].1)
  {
    var i := KeyIndex(r, k);
    if i < 0 then None else Some(r[i].1)
  }

  /** `r[k] = v`: the key takes the new value and every other key keeps its
      value; `SetKeys` says where the key goes. */
  function Set(r: Record, k: string, v: Value): (r': Record)
    ensures Lookup(r', k) == Some(v)
    ensures forall j | j != k :: Lookup(r', j) == Lookup(r, j)
  {
    var i := KeyIndex(r, k);
    if i < 0 then
      var r' := r + [(k, v)];
      assert Keys(r') == Keys(r) + [k];
      r'
    else
      var r' := r[i := (k, v)];
      assert Keys(r') == Keys(r);
      r'
  }

  /** Where `Set` puts the key: an existing key keeps its position, a new
      one goes after all the others. */
  lemma SetKeys(r: Record, k: string, v: Value)
    ensures Keys(Set(r, k, v)) == if k in Keys(r) then Keys(r) else Keys(r) + [k]
  {
  }

  /** `Object.assign(r, extra)`: the fields of `extra` written into `r` one
      after another. A key of `extra` ends up with its value from `extra`;
      every other key keeps its value from `r`; the keys of `r` keep their
      places at the front. */
  function SetAll(r: Record, extra: Record): (r': Record)
    ensures forall k :: Lookup(r', k) == if k in Keys(extra) then Lookup(extra, k) else Lookup(r, k)
    ensures Keys(r) <= Keys(r')
    decreases |extra|
  {
    if extra == [] then r
    else
      var rest: Record := extra[1..];
      TailLookups(extra);
      SetAll(Set(r, extra[0].0, extra[0].1), rest)
  }

  /** The fields after the first of a record: no longer the first key, and
      every other key as before. */
  lemma TailLookups(extra: Record)
    requires extra != []
    ensures Distinct(Keys(extra[1..]))
    ensures Keys(extra) == [extra[0].0] + Keys(extra[1..])
    ensures extra[0].0 !in Keys(extra[1..])
    ensures forall k | k != extra[0].0 :: Lookup(extra[1..], k) == Lookup(extra, k)
  {
    var rest: Record := extra[1..];
    assert Keys(extra) == [extra[0].0] + Keys(rest);
    forall k | k != extra[0].0
      ensures Lookup(rest, k) == Lookup(extra, k)
    {
      if k in Keys(rest) {
        var i := KeyIndex(rest, k);
        assert extra[i + 1] == rest[i];
      }
    }
  }

  /** Adding one field at the end of the fields written by `SetAll` is one
      more `Set`. */
  lemma {:induction false} SetAllSnoc(r: Record, extra: Record, k: string, v: Value)
    requires k !in Keys(extra)
    ensures Distinct(Keys(extra + [(k, v)]))
    ensures SetAll(r, extra + [(k, v)]) == Set(SetAll(r, extra), k, v)
    decreases |extra|
  {
    var ext: Record := extra + [(k, v)];
    assert Keys(ext) == Keys(extra) + [k];
    if extra == [] {
      var rest: Record := ext[1..];
      assert rest == [];
    } else {
      var rest: Record := extra[1..];
      assert Keys(extra) == [extra[0].0] + Keys(rest);
      assert ext[1..] == rest + [(k, v)];
      SetAllSnoc(Set(r, extra[0].0, extra[0].1), rest, k, v);
    }
  }

  /** `if (c) r[k] = v`. */
  function SetWhen(c: bool, r: Record, k: string, v: Value): Record
  {
    if c then Set(r, k, v) else r
  }

  /** A conditional write, looked up at any key. */
  lemma SetWhenLookup(c: bool, r: Record, k: string, v: Value, j: string)
    ensures Lookup(SetWhen(c, r, k, v), j) == if c && j == k then Some(v) else Lookup(r, j)
    ensures Keys(SetWhen(c, r, k, v)) == if c && k !in Keys(r) then Keys(r) + [k] else Keys(r)
  {
  }

  /** The field a conditional write adds, as a list: one field or none. */
  function Opt(c: bool, k: string, v: Value): seq<(string, Value)>
  {
    if c then [(k, v)] else []
  }

  /** A conditional write of a key the record lacks puts the field, if
      written, after all the others. */
  lemma SetWhenFresh(c: bool, r: Record, k: string, v: Value)
    requires k !in Keys(r)
    ensures SetWhen(c, r, k, v) == r + Opt(c, k, v)
  {
    if !c {
      assert r + [] == r;
    }
  }

  /** Copying a conditional field of a new key at the end of `extra` is one
      more conditional write. */
  lemma SetAllOpt(r: Record, extra: Record, c: bool, k: string, v: Value)
    requires k !in Keys(extra)
    ensures Distinct(Keys(extra + Opt(c, k, v)))
    ensures SetAll(r, extra + Opt(c, k, v)) == SetWhen(c, SetAll(r, extra), k, v)
  {
    if c {
      SetAllSnoc(r, extra, k, v);
    } else {
      assert extra + [] == extra;
    }
  }

  /** A field written to a record that does not have its key goes at the end. */
  lemma SetNew(r: Record, k: string, v: Value)
    requires k !in Keys(r)
    ensures Set(r, k, v) == r + [(k, v)]
  {
  }

  /** JavaScript truthiness of a field value. */
  predicate Truthy(v: Value)
  {
    match v
    case Str(s) => s != ""
    case Num(n) => n != 0
    case Bool(b) => b
    case Undefined => false
  }

  /** Truthiness of `r[k]`, where a missing key reads as `undefined`. */
  predicate TruthyAt(r: Record, k: string)
  {
    Lookup(r, k).Some? && Truthy(Lookup(r, k).value)
  }
}
