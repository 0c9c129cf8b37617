/** The record the event engine builds for one player event (`sendEventData`
    and the tail of `getCommonCmcdData`). The metrics discovered from the
    player are given as fields; the engine contributes the one-shot startup
    delay, the timestamp, the event tag, the player state, the error code and
    the sequence number, and finally copies the event's own data over them. */
module EventRecord {
  import opened Wrappers
  import opened Cmcd
  import opened PlayerState

  /** `shouldIncludeKey` and `shouldIncludeEvent`: an absent list allows
      everything, a present one allows exactly its members. */
  predicate Allowed(list: Option<seq<string>>, item: string)
  {
    list.None? || item in list.value
  }

  /** The fields `getCommonCmcdData` discovers from the player, split at the
      place where it writes `msd`: `leading` holds those written before it
      (v, sid, cid, sf, mtp, pr, bg, st, ltc, pt), `trailing` those after (df). */
  datatype Metrics = Metrics(leading: Record, trailing: Record)

  /** One call `sendEventData(eventType, additionalData)`, with the values the
      engine reads from its surroundings: the discovered metrics, `Date.now()`
      and the player's state. */
  datatype EventInput = EventInput(
    eventType: string,
    additional: Record,
    metrics: Metrics,
    now: int,
    player: PlayerView)

  /** `additionalData.sta || getPlayerState(player)`. */
  function StateValue(additional: Record, player: PlayerView): Value
  {
    if TruthyAt(additional, "sta") then Lookup(additional, "sta").value
    else match PlayerStateCode(player)
      case Some(code) => Str([code])
      case None => Undefined
  }

  /** The fields `getCommonCmcdData` contributes: the discovered metrics with
      the startup delay among them when the gate lets it through. */
  function CommonFields(ev: EventInput, msdField: Option<int>): Record
  {
    SetAll(SetWhen(msdField.Some?, ev.metrics.leading, "msd", Num(msdField.GetOr(0))), ev.metrics.trailing)
  }

  /** The timestamp, the event tag and the player state written over the
      common fields. */
  function TaggedFields(includeKeys: Option<seq<string>>, ev: EventInput, common: Record): Record
  {
    var r3 := SetWhen(Allowed(includeKeys, "ts"), common, "ts", Num(ev.now));
    var r4 := SetWhen(Allowed(includeKeys, "e"), r3, "e", Str(ev.eventType));
    SetWhen(ev.eventType == "ps" && Allowed(includeKeys, "sta"), r4, "sta", StateValue(ev.additional, ev.player))
  }

  /** The fields `sendEventData` writes over the common ones before the
      event's own data is copied in. */
  function EventFields(includeKeys: Option<seq<string>>, ev: EventInput, common: Record, sn: Option<nat>): Record
  {
    var r5 := TaggedFields(includeKeys, ev, common);
    var r6 := SetWhen(ev.eventType == "e" && Allowed(includeKeys, "ec") && TruthyAt(ev.additional, "ec"),
                      r5, "ec", Lookup(ev.additional, "ec").GetOr(Undefined));
    SetWhen(sn.Some?, r6, "sn", Num(sn.GetOr(0)))
  }

  lemma CommonFieldsLookup(ev: EventInput, msdField: Option<int>, k: string)
    ensures Lookup(CommonFields(ev, msdField), k) ==
      if k in Keys(ev.metrics.trailing) then Lookup(ev.metrics.trailing, k)
      else if k == "msd" && msdField.Some? then Some(Num(msdField.value))
      else Lookup(ev.metrics.leading, k)
  {
    SetWhenLookup(msdField.Some?, ev.metrics.leading, "msd", Num(msdField.GetOr(0)), k);
  }

  lemma TaggedFieldsLookup(includeKeys: Option<seq<string>>, ev: EventInput, common: Record, k: string)
    ensures Lookup(TaggedFields(includeKeys, ev, common), k) ==
      if k == "sta" && ev.eventType == "ps" && Allowed(includeKeys, "sta")
      then Some(StateValue(ev.additional, ev.player))
      else if k == "e" && Allowed(includeKeys, "e") then Some(Str(ev.eventType))
      else if k == "ts" && Allowed(includeKeys, "ts") then Some(Num(ev.now))
      else Lookup(common, k)
  {
    var r3 := SetWhen(Allowed(includeKeys, "ts"), common, "ts", Num(ev.now));
    SetWhenLookup(Allowed(includeKeys, "ts"), common, "ts", Num(ev.now), k);
    var r4 := SetWhen(Allowed(includeKeys, "e"), r3, "e", Str(ev.eventType));
    SetWhenLookup(Allowed(includeKeys, "e"), r3, "e", Str(ev.eventType), k);
    SetWhenLookup(ev.eventType == "ps" && Allowed(includeKeys, "sta"), r4, "sta", StateValue(ev.additional, ev.player), k);
  }

  /** What `EventFields` holds under each key: the last write to it, or the
      common field when none of the writes applies. */
  lemma EventFieldsLookup(includeKeys: Option<seq<string>>, ev: EventInput, common: Record, sn: Option<nat>, k: string)
    ensures Lookup(EventFields(includeKeys, ev, common, sn), k) ==
      if k == "sn" && sn.Some? then Some(Num(sn.value))
      else if k == "ec" && ev.eventType == "e" && Allowed(includeKeys, "ec") && TruthyAt(ev.additional, "ec")
      then Lookup(ev.additional, "ec")
      else Lookup(TaggedFields(includeKeys, ev, common), k)
  {
    var r5 := TaggedFields(includeKeys, ev, common);
    var c6 := ev.eventType == "e" && Allowed(includeKeys, "ec") && TruthyAt(ev.additional, "ec");
    var r6 := SetWhen(c6, r5, "ec", Lookup(ev.additional, "ec").GetOr(Undefined));
    SetWhenLookup(c6, r5, "ec", Lookup(ev.additional, "ec").GetOr(Undefined), k);
    SetWhenLookup(sn.Some?, r6, "sn", Num(sn.GetOr(0)), k);
  }

  /** The record for an event, given the startup delay the one-shot gate lets
      through (if any) and the sequence number it takes (if any). */
  function BuildRecord(includeKeys: Option<seq<string>>, ev: EventInput, msdField: Option<int>, sn: Option<nat>): Record
  {
    SetAll(EventFields(includeKeys, ev, CommonFields(ev, msdField), sn), ev.additional)
  }

  /** The event's own data has the last word on every key it names. */
  lemma AdditionalDataWins(includeKeys: Option<seq<string>>, ev: EventInput, msdField: Option<int>, sn: Option<nat>, k: string)
    requires k in Keys(ev.additional)
    ensures Lookup(BuildRecord(includeKeys, ev, msdField, sn), k) == Lookup(ev.additional, k)
  {
  }

  /** A record built while `sn` is allowed carries the sequence number it was
      given, unless the event's own data names `sn`; one built without a
      sequence number carries none unless a metric or the event's data has it. */
  lemma SequenceNumberField(includeKeys: Option<seq<string>>, ev: EventInput, msdField: Option<int>, sn: Option<nat>)
    requires "sn" !in Keys(ev.additional)
    ensures sn.Some? ==> Lookup(BuildRecord(includeKeys, ev, msdField, sn), "sn") == Some(Num(sn.value))
    ensures sn.None? && "sn" !in Keys(ev.metrics.leading) && "sn" !in Keys(ev.metrics.trailing)
      ==> Lookup(BuildRecord(includeKeys, ev, msdField, sn), "sn") == None
  {
    EventFieldsLookup(includeKeys, ev, CommonFields(ev, msdField), sn, "sn");
    TaggedFieldsLookup(includeKeys, ev, CommonFields(ev, msdField), "sn");
    CommonFieldsLookup(ev, msdField, "sn");
  }

  /** The startup delay appears in the record exactly when the gate let it
      through, as long as no metric and no event data names `msd` itself. */
  lemma StartupDelayField(includeKeys: Option<seq<string>>, ev: EventInput, msdField: Option<int>, sn: Option<nat>)
    requires "msd" !in Keys(ev.metrics.leading) && "msd" !in Keys(ev.metrics.trailing)
    requires "msd" !in Keys(ev.additional)
    ensures Lookup(BuildRecord(includeKeys, ev, msdField, sn), "msd")
         == if msdField.Some? then Some(Num(msdField.value)) else None
  {
    EventFieldsLookup(includeKeys, ev, CommonFields(ev, msdField), sn, "msd");
    TaggedFieldsLookup(includeKeys, ev, CommonFields(ev, msdField), "msd");
    CommonFieldsLookup(ev, msdField, "msd");
  }

  /** The timestamp and the event tag are present when allowed, unless the
      event's data overrides them. */
  lemma TimestampAndTag(includeKeys: Option<seq<string>>, ev: EventInput, msdField: Option<int>, sn: Option<nat>)
    requires "ts" !in Keys(ev.additional) && "e" !in Keys(ev.additional)
    ensures Allowed(includeKeys, "ts") ==> Lookup(BuildRecord(includeKeys, ev, msdField, sn), "ts") == Some(Num(ev.now))
    ensures Allowed(includeKeys, "e") ==> Lookup(BuildRecord(includeKeys, ev, msdField, sn), "e") == Some(Str(ev.eventType))
  {
    EventFieldsLookup(includeKeys, ev, CommonFields(ev, msdField), sn, "ts");
    TaggedFieldsLookup(includeKeys, ev, CommonFields(ev, msdField), "ts");
    EventFieldsLookup(includeKeys, ev, CommonFields(ev, msdField), sn, "e");
    TaggedFieldsLookup(includeKeys, ev, CommonFields(ev, msdField), "e");
  }

  /** A play-state event reports the state it names itself when that is
      truthy, otherwise the player's state code. */
  lemma PlayStateField(includeKeys: Option<seq<string>>, ev: EventInput, msdField: Option<int>, sn: Option<nat>)
    requires ev.eventType == "ps" && Allowed(includeKeys, "sta")
    requires "sta" !in Keys(ev.additional) || TruthyAt(ev.additional, "sta")
    ensures Lookup(BuildRecord(includeKeys, ev, msdField, sn), "sta")
         == Some(if TruthyAt(ev.additional, "sta") then Lookup(ev.additional, "sta").value
                 else if ev.player.media.Some? then Str([PlayerStateCode(ev.player).value])
                 else Undefined)
  {
    EventFieldsLookup(includeKeys, ev, CommonFields(ev, msdField), sn, "sta");
    TaggedFieldsLookup(includeKeys, ev, CommonFields(ev, msdField), "sta");
  }
}
