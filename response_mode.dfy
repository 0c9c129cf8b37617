/** The response-mode engine (`_enableResponseMode`): a response filter that,
    for every manifest or segment response, takes the CMCD data already on the
    request URL, adds the request's timing and its URL, and reports the result
    either in batches of JSON records or at once as a CMCD query value. The
    URL parser is outside the model: a response carries the value of its
    `CMCD` query parameter, if it has one. */
module ResponseMode {
  import opened Wrappers
  import opened Text
  import opened Cmcd
  import opened QueryEncoding
  import opened CmcdParser

  /** The kinds of request the networking engine reports; only manifests and
      segments are reported on. */
  datatype RequestType = Manifest | Segment | OtherRequest

  /** The timing of the request a response answers, each entry present when
      it is a number (already rounded). */
  datatype OriginalRequest = OriginalRequest(requestStartTime: Option<int>, timeToFirstByte: Option<int>)

  /** A response as the filter reads it. */
  datatype Response = Response(
    uri: string,
    cmcdParam: Option<string>,
    originalRequest: Option<OriginalRequest>,
    timeMs: Option<int>)

  /** The record for the report body and the query pairs for the new keys. */
  datatype Report = Report(body: Record, pairs: seq<string>)

  /** A request `sendCmcdReport` starts. */
  datatype Request = PostBatch(records: seq<Record>) | GetReport(cmcd: string)

  /** `requestUri.searchParams.get('CMCD') || ''`. */
  function CmcdText(resp: Response): string
  {
    resp.cmcdParam.GetOr("")
  }

  /** `config.includeKeys.includes(key)` when it does not throw. */
  predicate Wanted(includeKeys: Option<seq<string>>, key: string)
  {
    includeKeys.Some? && key in includeKeys.value
  }

  /** `timeMs && typeof timeMs === 'number'`: the time to the last byte,
      when it is there and nonzero. */
  function TtlbTiming(timeMs: Option<int>): (t: Option<int>)
    ensures t.Some? <==> timeMs.Some? && timeMs.value != 0
    ensures t.Some? ==> t == timeMs
  {
    if timeMs.Some? && timeMs.value != 0 then timeMs else None
  }

  /** Whether one of the three timings of a known request is present, so that
      the filter consults `config.includeKeys`. */
  predicate ConsultsList(req: OriginalRequest, ttlb: Option<int>)
  {
    req.requestStartTime.Some? || req.timeToFirstByte.Some? || ttlb.Some?
  }

  /** Whether the filter calls `config.includeKeys.includes` while there is no
      list, which throws and abandons the response: that happens for a
      response that names its request as soon as one of the three timings is
      present. */
  predicate Throws(includeKeys: Option<seq<string>>, resp: Response)
  {
    && includeKeys.None?
    && resp.originalRequest.Some?
    && ConsultsList(resp.originalRequest.value, TtlbTiming(resp.timeMs))
  }

  /** The timing writes of the filter for a known request, applied to a
      record `r`: each timing that is present and wanted, in the order `ts`,
      `ttfb`, `ttlb`. */
  function RequestWrites(includeKeys: Option<seq<string>>, req: OriginalRequest, ttlb: Option<int>, r: Record): Record
  {
    SetWhen(ttlb.Some? && Wanted(includeKeys, "ttlb"),
      SetWhen(req.timeToFirstByte.Some? && Wanted(includeKeys, "ttfb"),
        SetWhen(req.requestStartTime.Some? && Wanted(includeKeys, "ts"),
          r, "ts", Num(req.requestStartTime.GetOr(0))),
        "ttfb", Num(req.timeToFirstByte.GetOr(0))),
      "ttlb", Num(ttlb.GetOr(0)))
  }

  /** The `key=value` pairs the same writes push, in the same order. */
  function RequestPairs(includeKeys: Option<seq<string>>, req: OriginalRequest, ttlb: Option<int>): seq<string>
  {
    Tokens(Opt(req.requestStartTime.Some? && Wanted(includeKeys, "ts"), "ts", Num(req.requestStartTime.GetOr(0))))
    + Tokens(Opt(req.timeToFirstByte.Some? && Wanted(includeKeys, "ttfb"), "ttfb", Num(req.timeToFirstByte.GetOr(0))))
    + Tokens(Opt(ttlb.Some? && Wanted(includeKeys, "ttlb"), "ttlb", Num(ttlb.GetOr(0))))
  }

  /** The timing writes of the filter applied to a record `r`; there are none
      when the response does not say which request it answers. */
  function WriteTimings(includeKeys: Option<seq<string>>, resp: Response, r: Record): Record
  {
    match resp.originalRequest
    case None => r
    case Some(req) => RequestWrites(includeKeys, req, TtlbTiming(resp.timeMs), r)
  }

  /** The pairs the timing writes push. */
  function TimingPairs(includeKeys: Option<seq<string>>, resp: Response): seq<string>
  {
    match resp.originalRequest
    case None => []
    case Some(req) => RequestPairs(includeKeys, req, TtlbTiming(resp.timeMs))
  }

  /** The fields the filter adds to the parsed record: the timings, as
      written into an empty record, then `url`. */
  function AddedFields(includeKeys: Option<seq<string>>, resp: Response): Record
  {
    Set(WriteTimings(includeKeys, resp, []), "url", Str(resp.uri))
  }

  /** What the filter builds for a response, or nothing when it throws: the
      record parsed from the `CMCD` parameter with the added fields copied
      over it, and the tokens of the added fields. */
  function ResponseReport(includeKeys: Option<seq<string>>, resp: Response): Option<Report>
  {
    if Throws(includeKeys, resp) then None
    else
      var added := AddedFields(includeKeys, resp);
      Some(Report(SetAll(ParsedInto(CmcdText(resp), []), added), Tokens(added)))
  }

  /** The four keys the filter adds are different from each other. */
  lemma AddedKeysDistinct()
    ensures "ts" != "ttfb" && "ts" != "ttlb" && "ts" != "url"
    ensures "ttfb" != "ttlb" && "ttfb" != "url" && "ttlb" != "url"
  {
  }

  /** A key missing from a field list is still missing after one more
      conditional field under another key. */
  lemma MissingAfterOpt(x: string, fields: seq<(string, Value)>, c: bool, k: string, v: Value)
    requires x !in Keys(fields) && x != k
    ensures x !in Keys(fields + Opt(c, k, v))
  {
    var longer := fields + Opt(c, k, v);
    forall i | 0 <= i < |longer|
      ensures Keys(longer)[i] != x
    {
      if i < |fields| {
        assert longer[i] == fields[i];
      }
    }
  }

  /** Three conditional writes of distinct keys into an empty record: the
      fields written so far after each write, and each later key still
      missing. */
  lemma FreshChain(c1: bool, k1: string, v1: Value, c2: bool, k2: string, v2: Value,
                   c3: bool, k3: string, v3: Value, k4: string)
    requires k1 != k2 && k1 != k3 && k1 != k4 && k2 != k3 && k2 != k4 && k3 != k4
    ensures SetWhen(c1, [], k1, v1) == Opt(c1, k1, v1)
    ensures k2 !in Keys(SetWhen(c1, [], k1, v1))
    ensures SetWhen(c2, SetWhen(c1, [], k1, v1), k2, v2) == SetWhen(c1, [], k1, v1) + Opt(c2, k2, v2)
    ensures k3 !in Keys(SetWhen(c2, SetWhen(c1, [], k1, v1), k2, v2))
    ensures SetWhen(c3, SetWhen(c2, SetWhen(c1, [], k1, v1), k2, v2), k3, v3)
         == SetWhen(c2, SetWhen(c1, [], k1, v1), k2, v2) + Opt(c3, k3, v3)
    ensures k4 !in Keys(SetWhen(c3, SetWhen(c2, SetWhen(c1, [], k1, v1), k2, v2), k3, v3))
  {
    var s1 := SetWhen(c1, [], k1, v1);
    SetWhenFresh(c1, [], k1, v1);
    assert s1 == Opt(c1, k1, v1);
    MissingAfterOpt(k2, [], c1, k1, v1);
    MissingAfterOpt(k3, [], c1, k1, v1);
    MissingAfterOpt(k4, [], c1, k1, v1);
    var s2 := SetWhen(c2, s1, k2, v2);
    SetWhenFresh(c2, s1, k2, v2);
    MissingAfterOpt(k3, s1, c2, k2, v2);
    MissingAfterOpt(k4, s1, c2, k2, v2);
    SetWhenFresh(c3, s2, k3, v3);
    MissingAfterOpt(k4, s2, c3, k3, v3);
  }

  /** The same writes followed by an unconditional write of the fourth key:
      the fields written, in order. */
  lemma FreshWrites(c1: bool, k1: string, v1: Value, c2: bool, k2: string, v2: Value,
                    c3: bool, k3: string, v3: Value, k4: string, v4: Value)
    requires k1 != k2 && k1 != k3 && k1 != k4 && k2 != k3 && k2 != k4 && k3 != k4
    ensures Set(SetWhen(c3, SetWhen(c2, SetWhen(c1, [], k1, v1), k2, v2), k3, v3), k4, v4)
         == Opt(c1, k1, v1) + Opt(c2, k2, v2) + Opt(c3, k3, v3) + [(k4, v4)]
  {
    FreshChain(c1, k1, v1, c2, k2, v2, c3, k3, v3, k4);
    SetNew(SetWhen(c3, SetWhen(c2, SetWhen(c1, [], k1, v1), k2, v2), k3, v3), k4, v4);
  }

  /** Copying those fields over a record `r` is the same as writing them into
      `r` one after another. */
  lemma CopyWrites(r: Record, c1: bool, k1: string, v1: Value, c2: bool, k2: string, v2: Value,
                   c3: bool, k3: string, v3: Value, k4: string, v4: Value)
    requires k1 != k2 && k1 != k3 && k1 != k4 && k2 != k3 && k2 != k4 && k3 != k4
    ensures SetAll(r, Set(SetWhen(c3, SetWhen(c2, SetWhen(c1, [], k1, v1), k2, v2), k3, v3), k4, v4))
         == Set(SetWhen(c3, SetWhen(c2, SetWhen(c1, r, k1, v1), k2, v2), k3, v3), k4, v4)
  {
    FreshChain(c1, k1, v1, c2, k2, v2, c3, k3, v3, k4);
    var s1 := SetWhen(c1, [], k1, v1);
    var s2 := SetWhen(c2, s1, k2, v2);
    var s3 := SetWhen(c3, s2, k3, v3);
    SetAllOpt(r, [], c1, k1, v1);
    assert SetAll(r, s1) == SetWhen(c1, r, k1, v1);
    SetAllOpt(r, s1, c2, k2, v2);
    SetAllOpt(r, s2, c3, k3, v3);
    SetNew(s3, k4, v4);
    SetAllSnoc(r, s3, k4, v4);
  }

  /** Their tokens are the tokens of each write, in order. */
  lemma TokensOfWrites(c1: bool, k1: string, v1: Value, c2: bool, k2: string, v2: Value,
                       c3: bool, k3: string, v3: Value, k4: string, v4: Value)
    requires k1 != k2 && k1 != k3 && k1 != k4 && k2 != k3 && k2 != k4 && k3 != k4
    ensures Tokens(Set(SetWhen(c3, SetWhen(c2, SetWhen(c1, [], k1, v1), k2, v2), k3, v3), k4, v4))
         == Tokens(Opt(c1, k1, v1)) + Tokens(Opt(c2, k2, v2)) + Tokens(Opt(c3, k3, v3)) + [Token(k4, v4)]
  {
    FreshWrites(c1, k1, v1, c2, k2, v2, c3, k3, v3, k4, v4);
    var o1, o2, o3 := Opt(c1, k1, v1), Opt(c2, k2, v2), Opt(c3, k3, v3);
    TokensConcat(o1 + o2 + o3, [(k4, v4)]);
    TokensConcat(o1 + o2, o3);
    TokensConcat(o1, o2);
    assert Tokens([(k4, v4)]) == [Token(k4, v4)];
  }

  /** The added fields, in the order the filter writes them: `ts` and `ttfb`
      exactly when the request is known, has that timing and the key is
      wanted; `ttlb` exactly when the request is known, its time is nonzero
      and the key is wanted; and always `url`, the response URI, last. */
  lemma AddedFieldValues(includeKeys: Option<seq<string>>, resp: Response)
    ensures var known := resp.originalRequest.Some?;
      var req := resp.originalRequest.GetOr(OriginalRequest(None, None));
      AddedFields(includeKeys, resp)
        == Opt(known && req.requestStartTime.Some? && Wanted(includeKeys, "ts"), "ts", Num(req.requestStartTime.GetOr(0)))
         + Opt(known && req.timeToFirstByte.Some? && Wanted(includeKeys, "ttfb"), "ttfb", Num(req.timeToFirstByte.GetOr(0)))
         + Opt(known && resp.timeMs.Some? && resp.timeMs.value != 0 && Wanted(includeKeys, "ttlb"), "ttlb", Num(resp.timeMs.GetOr(0)))
         + [("url", Str(resp.uri))]
  {
    match resp.originalRequest
    case None =>
      assert [] + [] + [] + [("url", Str(resp.uri))] == [("url", Str(resp.uri))];
    case Some(req) =>
      var ttlb := TtlbTiming(resp.timeMs);
      AddedKeysDistinct();
      FreshWrites(req.requestStartTime.Some? && Wanted(includeKeys, "ts"), "ts", Num(req.requestStartTime.GetOr(0)),
                  req.timeToFirstByte.Some? && Wanted(includeKeys, "ttfb"), "ttfb", Num(req.timeToFirstByte.GetOr(0)),
                  ttlb.Some? && Wanted(includeKeys, "ttlb"), "ttlb", Num(ttlb.GetOr(0)),
                  "url", Str(resp.uri));
  }

  /** For a known request, copying the timing fields and `url` over a
      record is writing them into it. */
  lemma RequestWritesCopied(includeKeys: Option<seq<string>>, req: OriginalRequest, ttlb: Option<int>, r: Record, uri: string)
    ensures SetAll(r, Set(RequestWrites(includeKeys, req, ttlb, []), "url", Str(uri)))
         == Set(RequestWrites(includeKeys, req, ttlb, r), "url", Str(uri))
  {
    AddedKeysDistinct();
    CopyWrites(r, req.requestStartTime.Some? && Wanted(includeKeys, "ts"), "ts", Num(req.requestStartTime.GetOr(0)),
               req.timeToFirstByte.Some? && Wanted(includeKeys, "ttfb"), "ttfb", Num(req.timeToFirstByte.GetOr(0)),
               ttlb.Some? && Wanted(includeKeys, "ttlb"), "ttlb", Num(ttlb.GetOr(0)),
               "url", Str(uri));
  }

  /** Copying the added fields over a record is writing the timings into it
      and then `url`. */
  lemma AddedFieldsCopied(includeKeys: Option<seq<string>>, resp: Response, r: Record)
    ensures SetAll(r, AddedFields(includeKeys, resp)) == Set(WriteTimings(includeKeys, resp, r), "url", Str(resp.uri))
  {
    match resp.originalRequest
    case None =>
      SetNew([], "url", Str(resp.uri));
      assert [] + [("url", Str(resp.uri))] == [("url", Str(resp.uri))];
      SetAllSnoc(r, [], "url", Str(resp.uri));
    case Some(req) =>
      RequestWritesCopied(includeKeys, req, TtlbTiming(resp.timeMs), r, resp.uri);
  }

  /** For a known request, the tokens of the timing fields and `url` are the
      timing pairs and the `url` pair. */
  lemma RequestWritesTokens(includeKeys: Option<seq<string>>, req: OriginalRequest, ttlb: Option<int>, uri: string)
    ensures Tokens(Set(RequestWrites(includeKeys, req, ttlb, []), "url", Str(uri)))
         == RequestPairs(includeKeys, req, ttlb) + [Token("url", Str(uri))]
  {
    AddedKeysDistinct();
    TokensOfWrites(req.requestStartTime.Some? && Wanted(includeKeys, "ts"), "ts", Num(req.requestStartTime.GetOr(0)),
                   req.timeToFirstByte.Some? && Wanted(includeKeys, "ttfb"), "ttfb", Num(req.timeToFirstByte.GetOr(0)),
                   ttlb.Some? && Wanted(includeKeys, "ttlb"), "ttlb", Num(ttlb.GetOr(0)),
                   "url", Str(uri));
  }

  /** The tokens of the added fields are the timing pairs and then the `url`
      pair. */
  lemma AddedFieldsTokens(includeKeys: Option<seq<string>>, resp: Response)
    ensures Tokens(AddedFields(includeKeys, resp)) == TimingPairs(includeKeys, resp) + [Token("url", Str(resp.uri))]
  {
    match resp.originalRequest
    case None =>
      SetNew([], "url", Str(resp.uri));
      assert AddedFields(includeKeys, resp) == [("url", Str(resp.uri))];
    case Some(req) =>
      RequestWritesTokens(includeKeys, req, TtlbTiming(resp.timeMs), resp.uri);
  }

  /** `sendCmcdReport` in json mode: an empty batch is never sent. */
  function JsonSend(records: seq<Record>): (r: Option<Request>)
    ensures r.Some? <==> records != []
  {
    if records == [] then None else Some(PostBatch(records))
  }

  /** One timing block of the filter. When the timing is present, the key is
      looked up in `includeKeys`, which throws (`ok` is false) when there is
      no list; a wanted timing is written into the record and pushed as a
      `key=value` pair. */
  method AddTiming(includeKeys: Option<seq<string>>, key: string, timing: Option<int>, body: Record, pairs: seq<string>)
    returns (ok: bool, body': Record, pairs': seq<string>)
    ensures ok <==> !(timing.Some? && includeKeys.None?)
    ensures ok ==> body' == SetWhen(timing.Some? && Wanted(includeKeys, key), body, key, Num(timing.GetOr(0)))
    ensures ok ==> pairs' == pairs + Tokens(Opt(timing.Some? && Wanted(includeKeys, key), key, Num(timing.GetOr(0))))
  {
    ok, body', pairs' := true, body, pairs;
    if timing.Some? {
      if includeKeys.None? {
        ok := false;
        return;
      }
      if key in includeKeys.value {
        var value := timing.value;
        body' := Set(body, key, Num(value));
        pairs' := pairs + [key + "=" + IntToString(value)];
        assert Tokens([(key, Num(value))]) == [Token(key, Num(value))];
      } else {
        assert pairs + [] == pairs;
      }
    } else {
      assert pairs + [] == pairs;
    }
  }

  /** The three timing blocks of the filter, for a known request. */
  method AddTimings(includeKeys: Option<seq<string>>, req: OriginalRequest, ttlb: Option<int>, body: Record)
    returns (ok: bool, body': Record, pairs: seq<string>)
    ensures ok <==> !(includeKeys.None? && ConsultsList(req, ttlb))
    ensures ok ==> body' == RequestWrites(includeKeys, req, ttlb, body) && pairs == RequestPairs(includeKeys, req, ttlb)
  {
    ok, body', pairs := AddTiming(includeKeys, "ts", req.requestStartTime, body, []);
    if !ok {
      return;
    }
    assert pairs == Tokens(Opt(req.requestStartTime.Some? && Wanted(includeKeys, "ts"), "ts", Num(req.requestStartTime.GetOr(0))));
    ok, body', pairs := AddTiming(includeKeys, "ttfb", req.timeToFirstByte, body', pairs);
    if !ok {
      return;
    }
    ok, body', pairs := AddTiming(includeKeys, "ttlb", ttlb, body', pairs);
  }

  /** The record assembly of the filter: the `CMCD` parameter parsed into a
      fresh record, then each wanted timing written both into the record and
      as a `key=value` pair, then `url` written as a quoted string. */
  method AssembleReport(includeKeys: Option<seq<string>>, resp: Response) returns (report: Option<Report>)
    ensures report == ResponseReport(includeKeys, resp)
  {
    var body := ParseAndAdd(CmcdText(resp), []);
    ghost var parsed := body;
    var newPairs: seq<string> := [];
    if resp.originalRequest.Some? {
      var ok: bool;
      ok, body, newPairs := AddTimings(includeKeys, resp.originalRequest.value, TtlbTiming(resp.timeMs), body);
      if !ok {
        return None;
      }
    }
    var urlKey := "url";
    var urlValue := resp.uri;
    body := Set(body, urlKey, Str(urlValue));
    var escapedUrlValue := Escape(urlValue);
    newPairs := newPairs + [urlKey + "=\"" + escapedUrlValue + "\""];
    AddedFieldsCopied(includeKeys, resp, parsed);
    AddedFieldsTokens(includeKeys, resp);
    report := Some(Report(body, newPairs));
  }

  class ResponseEngine {
    const mode: Mode
    const batchSize: nat
    const includeKeys: Option<seq<string>>

    /** `cmcdBatchArray`, oldest record first. */
    var batch: seq<Record>

    /** Every record put in the batch so far, and every record sent so far. */
    ghost var received: seq<Record>
    ghost var posted: seq<Record>

    ghost predicate Valid()
      reads this
    {
      && (|batch| < batchSize || batch == [])
      && (mode != Json ==> batch == [])
      && posted + batch == received
    }

    constructor (mode: Mode, batchSize: nat, includeKeys: Option<seq<string>>)
      ensures Valid()
      ensures this.mode == mode && this.batchSize == batchSize && this.includeKeys == includeKeys
      ensures batch == [] && received == [] && posted == []
    {
      this.mode := mode;
      this.batchSize := batchSize;
      this.includeKeys := includeKeys;
      batch := [];
      received := [];
      posted := [];
    }

    /** What reporting `report` did to the engine, from the batch and the
        ghost histories before it: in json mode the record joins the batch,
        and a batch that has reached `batchSize` is sent whole, in order, and
        cleared; in query mode the original `CMCD` text followed directly by
        the new pairs is sent; any other mode sends nothing. */
    ghost predicate Reported(batch0: seq<Record>, received0: seq<Record>, posted0: seq<Record>,
                             cmcdText: string, report: Report, sent: Option<Request>)
      reads this
    {
      match mode
      case Json =>
        var b := batch0 + [report.body];
        && received == received0 + [report.body]
        && (if |b| >= batchSize then sent == Some(PostBatch(b)) && batch == [] && posted == posted0 + b
            else sent.None? && batch == b && posted == posted0)
      case Query =>
        && sent == Some(GetReport(cmcdText + Join(report.pairs, ',')))
        && batch == batch0 && received == received0 && posted == posted0
      case Unrecognised =>
        sent.None? && batch == batch0 && received == received0 && posted == posted0
    }

    /** The tail of the filter: the report batched or sent according to the
        mode. */
    method Deliver(cmcdText: string, report: Report) returns (sent: Option<Request>)
      requires Valid()
      modifies this`batch, this`received, this`posted
      ensures Valid()
      ensures Reported(old(batch), old(received), old(posted), cmcdText, report, sent)
    {
      sent := None;
      var body := report.body;
      var newPairs := report.pairs;
      match mode
      case Json =>
        batch := batch + [body];
        received := received + [body];
        if |batch| >= batchSize {
          sent := JsonSend(batch);
          posted := posted + batch;
          batch := [];
        }
      case Query =>
        var cmcdDataString := cmcdText + Join(newPairs, ',');
        sent := Some(GetReport(cmcdDataString));
      case Unrecognised =>
    }

    /** The response filter. An ignored request type, or a response on which
        the filter throws, changes nothing; otherwise the report the response
        yields is delivered. */
    method OnResponse(requestType: RequestType, resp: Response) returns (sent: Option<Request>)
      requires Valid()
      modifies this`batch, this`received, this`posted
      ensures Valid()
      ensures requestType == OtherRequest || ResponseReport(includeKeys, resp).None? ==>
        sent.None? && batch == old(batch) && received == old(received) && posted == old(posted)
      ensures requestType != OtherRequest && ResponseReport(includeKeys, resp).Some? ==>
        Reported(old(batch), old(received), old(posted), CmcdText(resp), ResponseReport(includeKeys, resp).value, sent)
    {
      sent := None;
      if requestType == OtherRequest {
        return;
      }
      var report := AssembleReport(includeKeys, resp);
      if report.None? {
        return;
      }
      sent := Deliver(CmcdText(resp), report.value);
    }
  }

  /** In query mode the first new pair is glued to the last piece of the
      original `CMCD` text, since no comma is put between them: splitting the
      reported value at commas gives the original pieces with the last one
      fused to the first new pair, then the other new pairs. */
  lemma QueryReportFusesPairs(cmcdText: string, pairs: seq<string>)
    requires |pairs| >= 1
    requires forall i | 0 <= i < |pairs| :: ',' !in pairs[i]
    ensures Split(cmcdText + Join(pairs, ','), ',') == Fused(Split(cmcdText, ','), pairs)
  {
    SplitConcat(cmcdText, Join(pairs, ','), ',');
    forall p | p in pairs ensures ',' !in p {
      var i :| 0 <= i < |pairs| && pairs[i] == p;
    }
    SplitJoin(pairs, ',');
  }
}
