/** The CMCD query-string encoding of one record, as the event engine writes
    it in query mode: one token per field, in insertion order, joined by commas.
    A string becomes `key="escaped"`, a boolean (true or false) the bare key,
    anything else `key=value`. */
module QueryEncoding {
  import opened Text
  import opened Cmcd

  /** The token of one field. */
  function Token(key: string, v: Value): string
  {
    match v
    case Str(s) => key + "=\"" + Escape(s) + "\""
    case Bool(_) => key
    case Num(n) => key + "=" + IntToString(n)
    case Undefined => key + "=undefined"
  }

  /** The tokens of a record, field by field. */
  function Tokens(fields: seq<(string, Value)>): (ts: seq<string>)
    ensures |ts| == |fields|
    ensures forall i | 0 <= i < |fields| :: ts[i] == Token(fields[i].0, fields[i].1)
  {
    seq(|fields|, i requires 0 <= i < |fields| => Token(fields[i].0, fields[i].1))
  }

  /** The tokens of two field lists one after the other. */
  lemma TokensConcat(a: seq<(string, Value)>, b: seq<(string, Value)>)
    ensures Tokens(a + b) == Tokens(a) + Tokens(b)
  {
    var joined := a + b;
    forall i | 0 <= i < |joined|
      ensures Tokens(joined)[i] == (Tokens(a) + Tokens(b))[i]
    {
      if i < |a| {
        assert joined[i] == a[i];
      } else {
        assert joined[i] == b[i - |a|];
      }
    }
  }

  /** The value of the `CMCD` query parameter for a record. */
  function QueryString(rec: Record): string
  {
    Join(Tokens(rec), ',')
  }

  /** The encoder loop: a token pushed per field, then the tokens joined. */
  method EncodeQuery(rec: Record) returns (cmcd: string)
    ensures cmcd == QueryString(rec)
  {
    var queryPairs: seq<string> := [];
    for i := 0 to |rec|
      invariant queryPairs == Tokens(rec)[..i]
    {
      var (key, value) := rec[i];
      var token: string;
      match value {
        case Str(s) =>
          var escaped := Escape(s);
          token := key + "=\"" + escaped + "\"";
        case Bool(_) =>
          token := key;
        case Num(n) =>
          token := key + "=" + IntToString(n);
        case Undefined =>
          token := key + "=undefined";
      }
      queryPairs := queryPairs + [token];
    }
    assert queryPairs == Tokens(rec);
    cmcd := Join(queryPairs, ',');
  }

  /** A record's encoding splits back into exactly one token per field, in
      field order, as long as no token holds a comma. */
  lemma TokensOfQueryString(rec: Record)
    requires |rec| >= 1
    requires forall i | 0 <= i < |rec| :: ',' !in Token(rec[i].0, rec[i].1)
    ensures Split(QueryString(rec), ',') == Tokens(rec)
  {
    var ts := Tokens(rec);
    forall p | p in ts ensures ',' !in p {
      var i :| 0 <= i < |ts| && ts[i] == p;
    }
    SplitJoin(ts, ',');
  }

  lemma EscapeExample()
    ensures Escape("a\"b") == "a\\\"b"
  {
    assert DoubleBackslashes("a\"b") == "a\"b" by {
      assert DoubleBackslashes("b") == "b";
      assert DoubleBackslashes("\"b") == "\"b";
    }
    assert EscapeQuotes("b") == "b";
    assert EscapeQuotes("\"b") == "\\\"b";
  }

  /** The tokens are joined with single commas. */
  lemma JoinThree(a: string, b: string, c: string)
    ensures Join([a, b, c], ',') == a + "," + b + "," + c
  {
    assert [a, b, c][1..] == [b, c];
    assert [b, c][1..] == [c];
    assert Join([b, c], ',') == b + [','] + c;
    assert Join([a, b, c], ',') == a + [','] + (b + [','] + c);
  }

  /** The encoding of the record `{v: true, sn: 3, cid: 'a"b'}`. */
  lemma EncodingExample()
    ensures QueryString([("v", Bool(true)), ("sn", Num(3)), ("cid", Str("a\"b"))])
         == "v,sn=3,cid=\"a\\\"b\""
  {
    var rec: Record := [("v", Bool(true)), ("sn", Num(3)), ("cid", Str("a\"b"))];
    EscapeExample();
    assert NatToString(3) == "3";
    var ts := Tokens(rec);
    assert ts == [Token("v", Bool(true)), Token("sn", Num(3)), Token("cid", Str("a\"b"))];
    JoinThree(ts[0], ts[1], ts[2]);
  }

  /** A boolean `false` is written as its bare key, the same token as `true`. */
  lemma FalseIsBareKey(key: string)
    ensures Token(key, Bool(false)) == key == Token(key, Bool(true))
  {
  }
}
