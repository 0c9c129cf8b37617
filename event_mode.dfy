/** The event-mode engine (`_enableEventMode`): the state its closure keeps
    and the operations that change it. Events become records; in json mode
    the records are queued in a bounded batch that is sent one batch at a
    time, and a failed batch is put back at the head of the queue. The
    transport is outside the model: a send is started by `Flush` and finished
    by `Settle`, which is told how the request ended. */
module EventMode {
  import opened Wrappers
  import opened Cmcd
  import opened PlayerState
  import opened QueryEncoding
  import opened BatchQueue
  import opened EventRecord

  /** How a batch request ended: the server answered (with `ok` telling
      whether its status was a success), or the request itself failed. */
  datatype Settlement = Answered(ok: bool) | NetworkError

  /** What one `sendEventData` call did: nothing, because the event type is
      not wanted; queued the record, starting a send of the batch if the size
      trigger fired; built the query value for the record, after which the
      send step throws; or nothing, because the mode is neither json nor
      query. */
  datatype EventOutcome =
    | Filtered
    | Queued(started: Option<seq<Record>>)
    | QueryBuilt(cmcd: string)
    | Ignored

  class EventEngine {
    const mode: Mode
    const batchSize: nat
    const includeKeys: Option<seq<string>>
    const events: Option<seq<string>>

    /** `cmcdBatchArray`, oldest record first. */
    var queue: seq<Record>
    var isSending: bool
    /** The batch of the send in progress, or `[]` when none is. */
    var inFlight: seq<Record>
    var sequenceNumber: nat
    var timePlay: Option<int>
    var msd: Option<int>
    var msdSent: bool
    var batchTimerSet: bool
    var intervalTimerSet: bool

    /** The sequence numbers handed out so far, in order. */
    ghost var issued: seq<nat>
    /** How many records the startup delay has been written into. */
    ghost var msdReports: nat

    ghost predicate Valid()
      reads this
    {
      && |queue| <= batchSize
      && (isSending <==> inFlight != [])
      && |inFlight| <= batchSize
      && (mode != Json ==> queue == [] && !isSending && !batchTimerSet)
      && |issued| == sequenceNumber
      && (forall i | 0 <= i < |issued| :: issued[i] == i)
      && msdReports == (if msdSent then 1 else 0)
    }

    /** The closure's initial state; the batch timer runs only in json mode
        and both timers only for a positive period in seconds. */
    constructor (mode: Mode, batchSize: nat, batchTimer: int, timeInterval: int,
                 includeKeys: Option<seq<string>>, events: Option<seq<string>>)
      ensures Valid()
      ensures this.mode == mode && this.batchSize == batchSize
      ensures this.includeKeys == includeKeys && this.events == events
      ensures queue == [] && !isSending && inFlight == []
      ensures sequenceNumber == 0 && timePlay.None? && msd.None? && !msdSent
      ensures batchTimerSet == (batchTimer > 0 && mode == Json)
      ensures intervalTimerSet == (timeInterval > 0)
    {
      this.mode := mode;
      this.batchSize := batchSize;
      this.includeKeys := includeKeys;
      this.events := events;
      queue := [];
      isSending := false;
      inFlight := [];
      sequenceNumber := 0;
      timePlay := None;
      msd := None;
      msdSent := false;
      batchTimerSet := batchTimer > 0 && mode == Json;
      intervalTimerSet := timeInterval > 0;
      issued := [];
      msdReports := 0;
    }

    /** The media element's first `play`: remembers when playback was asked for. */
    method RecordPlay(now: int)
      requires Valid()
      modifies this`timePlay
      ensures Valid()
      ensures timePlay == if old(timePlay).None? then Some(now) else old(timePlay)
    {
      if timePlay.None? {
        timePlay := Some(now);
      }
    }

    /** The media element's first `playing`: the startup delay is the time
        since `play`, where a missing `play` counts as time zero. */
    method RecordPlaying(now: int)
      requires Valid()
      modifies this`msd
      ensures Valid()
      ensures msd == if old(msd).None? then Some(now - timePlay.GetOr(0)) else old(msd)
    {
      if msd.None? {
        msd := Some(now - timePlay.GetOr(0));
      }
    }

    /** The startup delay the next record takes: only while `msd` is allowed,
        not yet reported, measured and nonzero. */
    function PendingStartupDelay(): Option<int>
      reads this
    {
      if Allowed(includeKeys, "msd") && !msdSent && msd.Some? && msd.value != 0 then msd else None
    }

    /** The sequence number the next record takes, if `sn` is allowed. */
    function NextNumber(): Option<nat>
      reads this
    {
      if Allowed(includeKeys, "sn") then Some(sequenceNumber) else None
    }

    /** The record the next event of `ev`'s kind is turned into. */
    function NextRecord(ev: EventInput): Record
      reads this
    {
      BuildRecord(includeKeys, ev, PendingStartupDelay(), NextNumber())
    }

    /** `sendCmcdReport` in json mode: when the queue is non-empty and no
        send is in progress, the whole queue becomes the in-flight batch;
        otherwise nothing changes. */
    method Flush() returns (started: Option<seq<Record>>)
      requires Valid()
      modifies this`queue, this`isSending, this`inFlight
      ensures Valid()
      ensures started == if old(queue) != [] && !old(isSending) then Some(old(queue)) else None
      ensures started.Some? ==> queue == [] && isSending && inFlight == started.value
      ensures started.None? ==> queue == old(queue) && isSending == old(isSending) && inFlight == old(inFlight)
    {
      if queue == [] || isSending {
        return None;
      }
      isSending := true;
      var batchToSend := queue;
      queue := [];
      inFlight := batchToSend;
      started := Some(batchToSend);
    }

    /** The end of the send in progress. A success leaves the queue as it is;
        a failure of either kind puts the failed batch back in front of the
        records queued meanwhile, trimmed to the capacity. Either way the
        engine is idle again. */
    method Settle(outcome: Settlement)
      requires Valid() && isSending
      modifies this`queue, this`isSending, this`inFlight
      ensures Valid()
      ensures !isSending && inFlight == []
      ensures queue == if outcome == Answered(true) then old(queue)
                       else Requeued(old(inFlight), old(queue), batchSize)
    {
      var batchToSend := inFlight;
      if outcome != Answered(true) {
        RequeuedWithinBound(batchToSend, queue, batchSize);
        queue := Requeued(batchToSend, queue, batchSize);
      }
      isSending := false;
      inFlight := [];
    }

    /** The append and trim of json mode. */
    method Append(rec: Record)
      requires Valid() && mode == Json
      modifies this`queue
      ensures Valid()
      ensures queue == Appended(old(queue), rec, batchSize)
    {
      AppendedWithinBound(queue, rec, batchSize);
      queue := queue + [rec];
      if |queue| > batchSize {
        var overflow := |queue| - batchSize;
        queue := queue[overflow..];
      }
    }

    /** What happens to a built record in each mode, given the queue, the
        flag and the in-flight batch before: json mode queues it and starts a
        send when the queue has reached `batchSize` while idle; query mode
        encodes it. */
    predicate Delivered(queue0: seq<Record>, sending0: bool, inFlight0: seq<Record>, rec: Record, out: EventOutcome)
      reads this
    {
      match mode
      case Json =>
        var q := Appended(queue0, rec, batchSize);
        if |q| >= batchSize && !sending0 && q != [] then
          out == Queued(Some(q)) && queue == [] && isSending && inFlight == q
        else
          out == Queued(None) && queue == q && isSending == sending0 && inFlight == inFlight0
      case Query =>
        && out == QueryBuilt(QueryString(rec))
        && queue == queue0 && isSending == sending0 && inFlight == inFlight0
      case Unrecognised =>
        && out == Ignored
        && queue == queue0 && isSending == sending0 && inFlight == inFlight0
    }

    /** The tail of `sendEventData`, once the record is built. */
    method Deliver(rec: Record) returns (out: EventOutcome)
      requires Valid()
      modifies this`queue, this`isSending, this`inFlight
      ensures Valid()
      ensures Delivered(old(queue), old(isSending), old(inFlight), rec, out)
    {
      match mode
      case Json =>
        Append(rec);
        var started: Option<seq<Record>> := None;
        if |queue| >= batchSize && !isSending {
          started := Flush();
        }
        out := Queued(started);
      case Query =>
        var cmcd := EncodeQuery(rec);
        out := QueryBuilt(cmcd);
      case Unrecognised =>
        out := Ignored;
    }

    /** How the counters move when a record is built: the sequence number is
        taken and advanced by one when `sn` is allowed, and the startup delay
        is taken at most once. */
    twostate predicate Counted()
      reads this
    {
      && sequenceNumber == old(sequenceNumber) + (if old(NextNumber()).Some? then 1 else 0)
      && issued == old(issued) + (if old(NextNumber()).Some? then [old(sequenceNumber)] else [])
      && msdSent == (old(msdSent) || old(PendingStartupDelay()).Some?)
      && msdReports == old(msdReports) + (if old(PendingStartupDelay()).Some? then 1 else 0)
    }

    /** The msd gate of `getCommonCmcdData` and the `sequenceNumber++` of
        `sendEventData`. */
    method TakeCounters() returns (msdField: Option<int>, sn: Option<nat>)
      requires Valid()
      modifies this`sequenceNumber, this`msdSent, this`issued, this`msdReports
      ensures Valid()
      ensures msdField == old(PendingStartupDelay()) && sn == old(NextNumber())
      ensures Counted()
    {
      msdField := None;
      if Allowed(includeKeys, "msd") && !msdSent && msd.Some? && msd.value != 0 {
        msdField := msd;
        msdSent := true;
        msdReports := msdReports + 1;
      }
      sn := None;
      if Allowed(includeKeys, "sn") {
        sn := Some(sequenceNumber);
        issued := issued + [sequenceNumber];
        sequenceNumber := sequenceNumber + 1;
      }
    }

    /** What `sendEventData(ev)` does to the engine and what it yields, in
        terms of the state before the call. */
    twostate predicate Handled(ev: EventInput, out: EventOutcome)
      reads this
    {
      if !Allowed(events, ev.eventType) then
        && out == Filtered
        && queue == old(queue) && isSending == old(isSending) && inFlight == old(inFlight)
        && sequenceNumber == old(sequenceNumber) && msdSent == old(msdSent)
        && issued == old(issued) && msdReports == old(msdReports)
      else
        && Counted()
        && Delivered(old(queue), old(isSending), old(inFlight), old(NextRecord(ev)), out)
    }

    /** `sendEventData`: the event is filtered by type, turned into a record
        (taking the startup delay and a sequence number when due), and then
        queued or encoded according to the mode. */
    method SendEventData(ev: EventInput) returns (out: EventOutcome)
      requires Valid()
      modifies this`queue, this`isSending, this`inFlight, this`sequenceNumber, this`msdSent
      modifies this`issued, this`msdReports
      ensures Valid()
      ensures Handled(ev, out)
    {
      if !Allowed(events, ev.eventType) {
        return Filtered;
      }
      ghost var expected := NextRecord(ev);
      var msdField, sn := TakeCounters();
      var rec := BuildRecord(includeKeys, ev, msdField, sn);
      assert rec == expected;
      out := Deliver(rec);
    }

    /** One firing of the batch timer: a send starts when there is something
        queued and no send in progress. A cleared timer no longer fires. */
    method BatchTimerTick() returns (started: Option<seq<Record>>)
      requires Valid()
      modifies this`queue, this`isSending, this`inFlight
      ensures Valid()
      ensures started == if old(batchTimerSet) && old(queue) != [] && !old(isSending) then Some(old(queue)) else None
      ensures started.Some? ==> queue == [] && isSending && inFlight == started.value
      ensures started.None? ==> queue == old(queue) && isSending == old(isSending) && inFlight == old(inFlight)
    {
      started := None;
      if batchTimerSet && queue != [] && !isSending {
        started := Flush();
      }
    }

    /** One firing of the interval timer: a `t` event with no data of its own. */
    method IntervalTimerTick(metrics: Metrics, now: int, player: PlayerView) returns (out: Option<EventOutcome>)
      requires Valid()
      modifies this`queue, this`isSending, this`inFlight, this`sequenceNumber, this`msdSent
      modifies this`issued, this`msdReports
      ensures Valid()
      ensures out.None? <==> !intervalTimerSet
      ensures out.None? ==>
        && queue == old(queue) && isSending == old(isSending) && inFlight == old(inFlight)
        && sequenceNumber == old(sequenceNumber) && msdSent == old(msdSent)
        && issued == old(issued) && msdReports == old(msdReports)
      ensures out.Some? ==> Handled(EventInput("t", [], metrics, now, player), out.value)
    {
      out := None;
      if intervalTimerSet {
        var o := SendEventData(EventInput("t", [], metrics, now, player));
        out := Some(o);
      }
    }

    /** `cleanup`: both timers are cleared and the queue ends up empty. Its
        records are sent when the engine is idle; when a send is already in
        progress they are dropped. */
    method Cleanup() returns (started: Option<seq<Record>>)
      requires Valid()
      modifies this`queue, this`isSending, this`inFlight, this`batchTimerSet, this`intervalTimerSet
      ensures Valid()
      ensures !batchTimerSet && !intervalTimerSet && queue == []
      ensures started == if old(queue) != [] && !old(isSending) then Some(old(queue)) else None
      ensures isSending == (old(isSending) || started.Some?)
      ensures inFlight == if started.Some? then started.value else old(inFlight)
    {
      batchTimerSet := false;
      intervalTimerSet := false;
      started := None;
      if queue != [] {
        started := Flush();
        queue := [];
      }
    }
  }
}
