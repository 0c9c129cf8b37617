/** The parser of an existing CMCD query value that the response engine runs
    on the `CMCD` parameter of each request URL (`parseAndAddCmcdFromString`):
    the text is split at commas; a piece `key=value` (with `=` somewhere after
    the first character) sets `key` to the parsed value; any other non-blank
    piece sets its trimmed text to `true`; a blank piece is skipped; later
    pieces overwrite earlier ones. */
module CmcdParser {
  import opened Wrappers
  import opened Text
  import opened Cmcd
  import opened QueryEncoding

  /** `Number.MAX_SAFE_INTEGER`, 2^53 - 1. */
  const MaxSafeInteger: int := 9007199254740991

  /** The numeric test `String(Number(v)) === v.trim()`, for integers: the
      trimmed text must be the canonical decimal form of a safe integer. */
  function ParseNumber(valueStr: string): Option<int>
  {
    var t := Trim(valueStr);
    if IsCanonicalInt(t) && -MaxSafeInteger <= CanonicalValue(t) <= MaxSafeInteger
    then Some(CanonicalValue(t))
    else None
  }

  /** The value text after the first `=`: a quoted string loses its quotes and
      is unescaped; text that is a number becomes that number; anything else
      stays the string as written. */
  function ParseValue(valueStr: string): Value
  {
    if |valueStr| >= 1 && valueStr[0] == '"' && valueStr[|valueStr| - 1] == '"' then
      Str(Unescape(if |valueStr| >= 2 then valueStr[1..|valueStr| - 1] else ""))
    else
      match ParseNumber(valueStr)
      case Some(n) => Num(n)
      case None => Str(valueStr)
  }

  /** The field one comma-separated piece contributes, if any. */
  function ParsePair(pair: string): Option<(string, Value)>
  {
    var firstEq := IndexOf(pair, '=');
    if firstEq > 0 then Some((pair[..firstEq], ParseValue(pair[firstEq + 1..])))
    else if Trim(pair) != "" then Some((Trim(pair), Bool(true)))
    else None
  }

  /** A piece yields nothing exactly when it is blank, and every key a piece
      yields is non-empty. */
  lemma BlankPairSkipped(pair: string)
    ensures ParsePair(pair).None? <==> forall i | 0 <= i < |pair| :: IsSpace(pair[i])
    ensures ParsePair(pair).Some? ==> ParsePair(pair).value.0 != ""
  {
    TrimEmpty(pair);
    var firstEq := IndexOf(pair, '=');
    if firstEq > 0 {
      assert !IsSpace(pair[firstEq]);
    }
  }

  /** A non-blank piece with no `=` after its first character sets its trimmed
      text to `true`. */
  lemma BareKeyPair(pair: string)
    requires IndexOf(pair, '=') <= 0
    requires exists i | 0 <= i < |pair| :: !IsSpace(pair[i])
    ensures ParsePair(pair) == Some((Trim(pair), Bool(true)))
  {
    TrimEmpty(pair);
  }

  /** One step of the `forEach`: the piece's field, if any, written into the
      target. */
  function AddPair(target: Record, pair: string): Record
  {
    match ParsePair(pair)
    case None => target
    case Some((key, value)) => Set(target, key, value)
  }

  /** The pieces written into the target in order. */
  function AddPairs(target: Record, pairs: seq<string>): Record
  {
    if pairs == [] then target
    else AddPair(AddPairs(target, pairs[..|pairs| - 1]), pairs[|pairs| - 1])
  }

  /** What `parseAndAddCmcdFromString(cmcdStr, target)` leaves in `target`. */
  function ParsedInto(cmcdStr: string, target: Record): Record
  {
    if cmcdStr == "" then target else AddPairs(target, Split(cmcdStr, ','))
  }

  /** The pieces up to `i + 1` are the pieces up to `i` and then piece `i`. */
  lemma AddPairsStep(target: Record, pairs: seq<string>, i: nat)
    requires i < |pairs|
    ensures AddPairs(target, pairs[..i + 1]) == AddPair(AddPairs(target, pairs[..i]), pairs[i])
  {
    assert pairs[..i + 1][..i] == pairs[..i];
  }

  /** One step of the `forEach`, branch by branch. */
  lemma AddPairBranches(target: Record, pair: string)
    ensures var firstEq := IndexOf(pair, '=');
      AddPair(target, pair)
        == if firstEq > 0 then Set(target, pair[..firstEq], ParseValue(pair[firstEq + 1..]))
           else if Trim(pair) != "" then Set(target, Trim(pair), Bool(true))
           else target
  {
  }

  /** A piece that does not set `k` leaves it as it was; one that does gives
      it the piece's value. */
  lemma AddPairLookup(target: Record, pair: string, k: string)
    ensures Lookup(AddPair(target, pair), k)
         == if SetsKey(pair, k) then Some(ParsePair(pair).value.1) else Lookup(target, k)
  {
  }

  /** The parser: an empty string leaves the target as it was; otherwise
      each piece is written into the target in turn. */
  method ParseAndAdd(cmcdStr: string, target: Record) returns (result: Record)
    ensures cmcdStr == "" ==> result == target
    ensures result == ParsedInto(cmcdStr, target)
  {
    if cmcdStr == "" {
      return target;
    }
    var pairs := Split(cmcdStr, ',');
    result := target;
    for i := 0 to |pairs|
      invariant result == AddPairs(target, pairs[..i])
    {
      AddPairsStep(target, pairs, i);
      AddPairBranches(result, pairs[i]);
      var pair := pairs[i];
      var firstEq := IndexOf(pair, '=');
      if firstEq > 0 {
        var key := pair[..firstEq];
        var value := ParseValue(pair[firstEq + 1..]);
        result := Set(result, key, value);
      } else if Trim(pair) != "" {
        result := Set(result, Trim(pair), Bool(true));
      }
    }
    assert pairs[..|pairs|] == pairs;
  }

  /** A piece `key=value` whose key holds no `=` sets exactly that key. */
  lemma KeyValuePair(key: string, valueStr: string)
    requires key != "" && '=' !in key
    ensures ParsePair(key + "=" + valueStr) == Some((key, ParseValue(valueStr)))
  {
    var pair := key + "=" + valueStr;
    assert pair[..|key|] == key;
    assert pair[|key| + 1..] == valueStr;
    IndexOfIs(pair, '=', |key|);
  }

  /** A quoted value reads back as the string that was escaped into it. */
  lemma QuotedValue(s: string)
    ensures ParseValue("\"" + Escape(s) + "\"") == Str(s)
  {
    var v := "\"" + Escape(s) + "\"";
    assert v[1..|v| - 1] == Escape(s);
    UnescapeEscape(s);
  }

  /** Whether piece `p` sets key `k`. */
  predicate SetsKey(p: string, k: string)
  {
    ParsePair(p).Some? && ParsePair(p).value.0 == k
  }

  /** A key that no piece sets keeps its value from the target. */
  lemma {:induction false} UnsetKeyKept(target: Record, pairs: seq<string>, k: string)
    requires forall i | 0 <= i < |pairs| :: !SetsKey(pairs[i], k)
    ensures Lookup(AddPairs(target, pairs), k) == Lookup(target, k)
  {
    if pairs != [] {
      var n := |pairs|;
      assert !SetsKey(pairs[n - 1], k);
      AddPairLookup(AddPairs(target, pairs[..n - 1]), pairs[n - 1], k);
      UnsetKeyKept(target, pairs[..n - 1], k);
    }
  }

  /** When a key is set by several pieces, the last of them decides its value. */
  lemma {:induction false} LastOccurrenceWins(target: Record, pairs: seq<string>, k: string, i: nat)
    requires i < |pairs| && SetsKey(pairs[i], k)
    requires forall j | i < j < |pairs| :: !SetsKey(pairs[j], k)
    ensures Lookup(AddPairs(target, pairs), k) == Some(ParsePair(pairs[i]).value.1)
  {
    var n := |pairs|;
    AddPairLookup(AddPairs(target, pairs[..n - 1]), pairs[n - 1], k);
    if i < n - 1 {
      assert !SetsKey(pairs[n - 1], k);
      assert pairs[..n - 1][i] == pairs[i];
      LastOccurrenceWins(target, pairs[..n - 1], k, i);
    }
  }

  // ---------------------------------------------------------------------------
  // Encoding followed by parsing
  // ---------------------------------------------------------------------------

  /** The field a value reads back as after it is encoded by the event engine
      and parsed here: a boolean, `false` included, comes back as `true`, and
      `undefined` as the string "undefined". */
  function ReadBack(v: Value): Value
  {
    match v
    case Bool(_) => Bool(true)
    case Undefined => Str("undefined")
    case _ => v
  }

  function ReadBackAll(rec: Record): (r: Record)
    ensures |r| == |rec| && Keys(r) == Keys(rec)
    ensures forall i | 0 <= i < |rec| :: r[i] == (rec[i].0, ReadBack(rec[i].1))
  {
    var r := seq(|rec|, i requires 0 <= i < |rec| => (rec[i].0, ReadBack(rec[i].1)));
    assert Keys(r) == Keys(rec);
    r
  }

  /** A field the encoding can carry through the parser: a non-empty key with
      no comma, no `=` and no surrounding white space; a string value with no
      comma; a number that is a safe integer. */
  predicate Encodable(key: string, v: Value)
  {
    key != "" && ',' !in key && '=' !in key && Trim(key) == key
    && match v
       case Str(s) => ',' !in s
       case Num(n) => -MaxSafeInteger <= n <= MaxSafeInteger
       case _ => true
  }

  lemma TokenHasNoComma(key: string, v: Value)
    requires Encodable(key, v)
    ensures ',' !in Token(key, v)
  {
    match v
    case Num(n) =>
      var digits := IntToString(n);
      assert ',' !in digits by {
        if n < 0 {
          assert digits[1..] == NatToString(-n);
          assert forall i | 1 <= i < |digits| :: IsDigit(digits[i]) by {
            forall i | 1 <= i < |digits| ensures IsDigit(digits[i]) {
              assert digits[i] == NatToString(-n)[i - 1];
            }
          }
        }
      }
    case _ =>
  }

  /** A printed safe integer parses as that number. */
  lemma NumberValue(n: int)
    requires -MaxSafeInteger <= n <= MaxSafeInteger
    ensures ParseValue(IntToString(n)) == Num(n)
  {
    var digits := IntToString(n);
    TrimIntToString(n);
    IntToStringCanonical(n);
    assert digits[0] != '"' by {
      if n < 0 { assert digits[0] == '-'; } else { assert IsDigit(digits[0]); }
    }
  }

  lemma NumberToken(key: string, n: int)
    requires Encodable(key, Num(n))
    ensures ParsePair(Token(key, Num(n))) == Some((key, Num(n)))
  {
    KeyValuePair(key, IntToString(n));
    NumberValue(n);
  }

  /** Text that starts with a character no number can start with is not a
      number, leaving out `Infinity`, which `Number` reads as a number. */
  lemma NotANumber(v: string)
    requires v != [] && !IsSpace(v[0]) && !IsDigit(v[0]) && v[0] != '-' && v[0] != '"'
    requires Trim(v) != "Infinity"
    ensures ParseValue(v) == Str(v)
  {
    var t := Trim(v);
    assert TrimStart(v) == v;
    assert t != [] && t[0] == v[0];
  }

  lemma UndefinedToken(key: string)
    requires Encodable(key, Undefined)
    ensures ParsePair(Token(key, Undefined)) == Some((key, Str("undefined")))
  {
    var u := "undefined";
    assert Token(key, Undefined) == key + "=" + u by {
      assert "=undefined" == "=" + u;
    }
    KeyValuePair(key, u);
    assert !IsSpace(u[0]) && !IsDigit(u[0]);
    NotANumber(u);
  }

  /** Every token of an encodable field parses back to its field. */
  lemma PairOfToken(key: string, v: Value)
    requires Encodable(key, v)
    ensures ParsePair(Token(key, v)) == Some((key, ReadBack(v)))
  {
    match v
    case Str(s) =>
      var quoted := "\"" + Escape(s) + "\"";
      assert Token(key, v) == key + "=" + quoted;
      KeyValuePair(key, quoted);
      QuotedValue(s);
    case Num(n) =>
      NumberToken(key, n);
    case Bool(_) =>
    case Undefined =>
      UndefinedToken(key);
  }

  /** The key of field `m - 1` is not among the keys before it. */
  lemma FreshKey(rec: Record, m: nat)
    requires 0 < m <= |rec|
    ensures rec[m - 1].0 !in Keys(ReadBackAll(rec)[..m - 1])
  {
    var earlier := Keys(ReadBackAll(rec)[..m - 1]);
    forall j | 0 <= j < m - 1 ensures earlier[j] != rec[m - 1].0 {
      assert earlier[j] == rec[j].0;
      assert Keys(rec)[j] != Keys(rec)[m - 1];
    }
  }

  /** Parsing one more piece that yields a new key adds its field at the end. */
  lemma ParseOneMore(ps: seq<string>, p: string, done: Record, k: string, v: Value)
    requires AddPairs([], ps) == done
    requires ParsePair(p) == Some((k, v)) && k !in Keys(done)
    ensures AddPairs([], ps + [p]) == done + [(k, v)]
  {
    assert (ps + [p])[..|ps|] == ps;
    SetNew(done, k, v);
  }

  /** A prefix one longer is the shorter prefix and its next element. */
  lemma PrefixSnoc<T>(s: seq<T>, m: nat)
    requires 0 < m <= |s|
    ensures s[..m] == s[..m - 1] + [s[m - 1]]
  {
  }

  /** Parsing one more token adds its field, read back, at the end. */
  lemma AddTokenStep(rec: Record, m: nat)
    requires 0 < m <= |rec|
    requires Encodable(rec[m - 1].0, rec[m - 1].1)
    requires AddPairs([], Tokens(rec)[..m - 1]) == ReadBackAll(rec)[..m - 1]
    ensures AddPairs([], Tokens(rec)[..m]) == ReadBackAll(rec)[..m]
  {
    var ts := Tokens(rec);
    var back := ReadBackAll(rec);
    var done: Record := AddPairs([], ts[..m - 1]);
    var k, v := rec[m - 1].0, rec[m - 1].1;
    PrefixSnoc(ts, m);
    PrefixSnoc(back, m);
    assert ts[m - 1] == Token(k, v) && back[m - 1] == (k, ReadBack(v));
    PairOfToken(k, v);
    FreshKey(rec, m);
    ParseOneMore(ts[..m - 1], Token(k, v), done, k, ReadBack(v));
  }

  /** Parsing the first `m` tokens of a record gives its first `m` fields,
      read back. */
  lemma {:induction false} AddTokens(rec: Record, m: nat)
    requires m <= |rec|
    requires forall i | 0 <= i < |rec| :: Encodable(rec[i].0, rec[i].1)
    ensures AddPairs([], Tokens(rec)[..m]) == ReadBackAll(rec)[..m]
  {
    if m > 0 {
      AddTokens(rec, m - 1);
      AddTokenStep(rec, m);
    }
  }

  lemma JoinStartsWithFirst(parts: seq<string>, sep: char)
    requires |parts| >= 1
    ensures parts[0] <= Join(parts, sep)
  {
  }

  /** A record written by the query encoder and read by this parser comes
      back field for field, in the same order, with booleans read as `true`. */
  lemma ParseOfQueryString(rec: Record)
    requires forall i | 0 <= i < |rec| :: Encodable(rec[i].0, rec[i].1)
    ensures ParsedInto(QueryString(rec), []) == ReadBackAll(rec)
  {
    if rec != [] {
      QueryStringPieces(rec);
      AllTokens(rec);
    }
  }

  /** The encoding of a non-empty encodable record is not empty and splits
      into its tokens. */
  lemma QueryStringPieces(rec: Record)
    requires rec != []
    requires forall i | 0 <= i < |rec| :: Encodable(rec[i].0, rec[i].1)
    ensures QueryString(rec) != "" && Split(QueryString(rec), ',') == Tokens(rec)
  {
    var ts := Tokens(rec);
    forall i | 0 <= i < |rec| ensures ',' !in Token(rec[i].0, rec[i].1) {
      TokenHasNoComma(rec[i].0, rec[i].1);
    }
    TokensOfQueryString(rec);
    JoinStartsWithFirst(ts, ',');
    assert ts[0] != "";
  }

  lemma WholePrefix<T>(s: seq<T>)
    ensures s[..|s|] == s
  {
  }

  /** Parsing all the tokens of an encodable record gives it back. */
  lemma AllTokens(rec: Record)
    requires forall i | 0 <= i < |rec| :: Encodable(rec[i].0, rec[i].1)
    ensures AddPairs([], Tokens(rec)) == ReadBackAll(rec)
  {
    AddTokens(rec, |rec|);
    WholePrefix(Tokens(rec));
    WholePrefix(ReadBackAll(rec));
  }
}
