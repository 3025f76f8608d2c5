/**
 * `EventMapper`'s activity batching: valid activities add their score to a
 * running total and, in batch mode, join the batch; reaching the threshold or
 * the batch limit sends at once, anything else (re)starts the debounced send.
 * What is sent to the IPC bridge is recorded in `sent`.
 */
module Events {
  import opened Wrappers
  import opened Js

  /** An activity payload; only its score matters here. */
  datatype Activity = Activity(kind: string, score: int, details: JsValue)

  /** The two messages `sendActivity` sends (their ISO timestamps are left out). */
  datatype Outbound =
    | Batch(activities: seq<Activity>, totalScore: int)   // 'activity:batch'
    | Update(score: int)                                  // 'activity:update'

  /** `EventMapperOptions`; `None` is an option that was not given. */
  datatype Options = Options(
    debounceTime: Option<int>,
    activityThreshold: Option<int>,
    batchEvents: Option<bool>,
    maxBatchSize: Option<int>,
    includeMetadata: Option<bool>)

  const DefaultOptions := Options(Some(800), Some(5), Some(true), Some(10), Some(true))

  /** `{...DEFAULT_OPTIONS, ...options}`: every option given wins. */
  function Merge(defaults: Options, given: Options): (o: Options)
    ensures given.debounceTime.Some? ==> o.debounceTime == given.debounceTime
    ensures given.debounceTime.None? ==> o.debounceTime == defaults.debounceTime
    ensures given.activityThreshold.Some? ==> o.activityThreshold == given.activityThreshold
    ensures given.activityThreshold.None? ==> o.activityThreshold == defaults.activityThreshold
    ensures given.batchEvents.Some? ==> o.batchEvents == given.batchEvents
    ensures given.batchEvents.None? ==> o.batchEvents == defaults.batchEvents
    ensures given.maxBatchSize.Some? ==> o.maxBatchSize == given.maxBatchSize
    ensures given.maxBatchSize.None? ==> o.maxBatchSize == defaults.maxBatchSize
  {
    Options(
      if given.debounceTime.Some? then given.debounceTime else defaults.debounceTime,
      if given.activityThreshold.Some? then given.activityThreshold else defaults.activityThreshold,
      if given.batchEvents.Some? then given.batchEvents else defaults.batchEvents,
      if given.maxBatchSize.Some? then given.maxBatchSize else defaults.maxBatchSize,
      if given.includeMetadata.Some? then given.includeMetadata else defaults.includeMetadata)
  }

  /** `options.debounceTime || 800`. */
  function DebounceWait(o: Options): (w: int)
    ensures w != 0
  {
    if o.debounceTime.Some? && o.debounceTime.value != 0 then o.debounceTime.value else 800
  }

  /** `options.activityThreshold || 0`. */
  function Threshold(o: Options): int
  {
    if o.activityThreshold.Some? then o.activityThreshold.value else 0
  }

  /** `options.maxBatchSize || Infinity`: no limit when missing or 0. */
  function BatchLimit(o: Options): Option<int>
  {
    if o.maxBatchSize.Some? && o.maxBatchSize.value != 0 then o.maxBatchSize else None
  }

  /** Whether `currentScore` and the batch call for an immediate send. */
  predicate ShouldSendNow(o: Options, score: int, batchSize: int)
  {
    score >= Threshold(o) || (o.batchEvents == Some(true) && BatchLimit(o).Some? && batchSize >= BatchLimit(o).value)
  }

  /** With no options, activities are batched and a total score of 5 or 10 activities send at once. */
  lemma DefaultsResolve()
    ensures var o := Merge(DefaultOptions, Options(None, None, None, None, None));
            DebounceWait(o) == 800 && Threshold(o) == 5 && o.batchEvents == Some(true) && BatchLimit(o) == Some(10)
  {
  }

  function SumScores(batch: seq<Activity>): int
  {
    if batch == [] then 0 else SumScores(batch[..|batch| - 1]) + batch[|batch| - 1].score
  }

  lemma SumScoresSnoc(batch: seq<Activity>, a: Activity)
    ensures SumScores(batch + [a]) == SumScores(batch) + a.score
  {
    assert (batch + [a])[..|batch|] == batch;
  }

  /** The batching state: the batch, the running score, the debounced send's timer, and what was sent. */
  datatype MapperState = MapperState(
    batch: seq<Activity>,
    score: int,
    scheduled: bool,
    scheduledAt: int,
    sent: seq<Outbound>)

  /** Outside batch mode the batch stays empty; in batch mode the score is the batch's total. */
  predicate Inv(o: Options, s: MapperState)
  {
    (o.batchEvents != Some(true) ==> s.batch == [])
    && (o.batchEvents == Some(true) ==> s.score == SumScores(s.batch))
  }

  /** `sendActivity()`. */
  function Send(o: Options, s: MapperState): MapperState
  {
    if |s.batch| == 0 && s.score == 0 then s
    else if o.batchEvents == Some(true) && |s.batch| > 0 then
      s.(batch := [], score := 0, sent := s.sent + [Batch(s.batch, s.score)])
    else s.(score := 0, sent := s.sent + [Update(s.score)])
  }

  /** `debouncedSendActivity()` at `now`: any pending timer is replaced by one set now. */
  function Debounced(s: MapperState, now: int): MapperState
  {
    s.(scheduled := true, scheduledAt := now)
  }

  /** `recordActivity(activity)` at `now`. */
  function Record(o: Options, isValid: Activity -> bool, s: MapperState, a: Activity, now: int): MapperState
  {
    if !isValid(a) then s
    else
      var score := s.score + a.score;
      if o.batchEvents == Some(true) then
        var batch := s.batch + [a];
        if ShouldSendNow(o, score, |batch|) then Send(o, s.(batch := batch, score := score))
        else Debounced(s.(batch := batch, score := score), now)
      else if score >= Threshold(o) then Send(o, s.(score := score))
      else Debounced(s.(score := score), now)
  }

  /** The debounced send's timer fires. */
  function Fire(o: Options, s: MapperState): MapperState
  {
    Send(o, s.(scheduled := false))
  }

  /** `clearCache()` (the project cache and the last document are fields of the class). */
  function Cleared(s: MapperState): MapperState
  {
    s.(batch := [], score := 0)
  }

  // ---------------------------------------------------------------- what the steps guarantee

  /** Sending leaves nothing behind: after any send the score is 0 and the batch empty; the timer is untouched. */
  lemma SendEmpties(o: Options, s: MapperState)
    requires Inv(o, s)
    ensures var t := Send(o, s); t.score == 0 && t.batch == [] && Inv(o, t)
    ensures Send(o, s).scheduled == s.scheduled && Send(o, s).scheduledAt == s.scheduledAt
  {
  }

  /** Nothing to send sends nothing; a batch goes out whole, in order, with its total; otherwise the score alone. */
  lemma SendMessages(o: Options, s: MapperState)
    requires Inv(o, s)
    ensures s.batch == [] && s.score == 0 ==> Send(o, s) == s
    ensures s.batch != [] ==> o.batchEvents == Some(true) && Send(o, s).sent == s.sent + [Batch(s.batch, SumScores(s.batch))]
    ensures s.batch == [] && s.score != 0 ==> Send(o, s).sent == s.sent + [Update(s.score)]
  {
  }

  /** An activity that fails validation changes nothing. */
  lemma InvalidActivityIsIgnored(o: Options, isValid: Activity -> bool, s: MapperState, a: Activity, now: int)
    requires !isValid(a)
    ensures Record(o, isValid, s, a, now) == s
  {
  }

  /** In batch mode a valid activity joins the batch and its score the total; the batch is sent at once exactly when it reaches the threshold or the limit. */
  lemma BatchModeRecord(o: Options, isValid: Activity -> bool, s: MapperState, a: Activity, now: int)
    requires Inv(o, s) && isValid(a) && o.batchEvents == Some(true)
    ensures var batch := s.batch + [a];
            var t := Record(o, isValid, s, a, now);
            Inv(o, t)
            && (ShouldSendNow(o, SumScores(batch), |batch|) ==>
                  t.sent == s.sent + [Batch(batch, SumScores(batch))] && t.batch == [] && t.score == 0
                  && t.scheduled == s.scheduled && t.scheduledAt == s.scheduledAt)
            && (!ShouldSendNow(o, SumScores(batch), |batch|) ==>
                  t.sent == s.sent && t.batch == batch && t.score == SumScores(batch) && t.scheduled && t.scheduledAt == now)
  {
    SumScoresSnoc(s.batch, a);
  }

  /** Outside batch mode a valid activity adds its score, which is sent alone once it reaches the threshold. */
  lemma ScoreModeRecord(o: Options, isValid: Activity -> bool, s: MapperState, a: Activity, now: int)
    requires Inv(o, s) && isValid(a) && o.batchEvents != Some(true)
    ensures var score := s.score + a.score;
            var t := Record(o, isValid, s, a, now);
            Inv(o, t) && t.batch == []
            && (score >= Threshold(o) ==>
                  t.sent == s.sent + (if score == 0 then [] else [Update(score)]) && t.score == 0)
            && (score < Threshold(o) ==> t.sent == s.sent && t.score == score && t.scheduled && t.scheduledAt == now)
  {
  }

  /** Every step keeps the invariant. */
  lemma StepsPreserveInv(o: Options, isValid: Activity -> bool, s: MapperState, a: Activity, now: int)
    requires Inv(o, s)
    ensures Inv(o, Record(o, isValid, s, a, now)) && Inv(o, Fire(o, s)) && Inv(o, Cleared(s))
  {
    if isValid(a) && o.batchEvents == Some(true) {
      BatchModeRecord(o, isValid, s, a, now);
    }
  }

  class EventMapper {
    const options: Options
    /** `validateActivityPayload`, which is not part of this model. */
    const isValidActivity: Activity -> bool
    var eventBatch: seq<Activity>
    var currentScore: int
    var lastActiveDocument: Option<string>
    var projectCache: map<string, JsValue>
    /** The debounced send's timer, and when it was last (re)set. */
    var sendScheduled: bool
    var scheduledAt: int
    var sent: seq<Outbound>

    function State(): MapperState
      reads this
    {
      MapperState(eventBatch, currentScore, sendScheduled, scheduledAt, sent)
    }

    ghost predicate Valid()
      reads this
    {
      Inv(options, State())
    }

    /** `new EventMapper(ipcBridge, options)`; `isValidActivity` is `validateActivityPayload`. */
    constructor(given: Options, isValidActivity: Activity -> bool)
      ensures options == Merge(DefaultOptions, given) && this.isValidActivity == isValidActivity
      ensures State() == MapperState([], 0, false, 0, []) && lastActiveDocument == None && projectCache == map[]
      ensures Valid()
    {
      options := Merge(DefaultOptions, given);
      this.isValidActivity := isValidActivity;
      eventBatch := [];
      currentScore := 0;
      lastActiveDocument := None;
      projectCache := map[];
      sendScheduled := false;
      scheduledAt := 0;
      sent := [];
    }

    /** `sendActivity()`. */
    method SendActivity()
      requires Valid()
      modifies this
      ensures Valid() && State() == Send(options, old(State()))
      ensures lastActiveDocument == old(lastActiveDocument) && projectCache == old(projectCache)
    {
      SendEmpties(options, State());
      if |eventBatch| == 0 && currentScore == 0 {
        return;
      }
      if options.batchEvents == Some(true) && |eventBatch| > 0 {
        sent := sent + [Batch(eventBatch, currentScore)];
        eventBatch := [];
      } else {
        sent := sent + [Update(currentScore)];
      }
      currentScore := 0;
    }

    /** `debouncedSendActivity()` at `now`. */
    method DebouncedSend(now: int)
      modifies this
      ensures State() == Debounced(old(State()), now)
      ensures lastActiveDocument == old(lastActiveDocument) && projectCache == old(projectCache)
    {
      sendScheduled := true;
      scheduledAt := now;
    }

    /** The debounced send's timer fires, the debounce time after the last activity that set it. */
    method DebounceFires(now: int)
      requires Valid() && sendScheduled && now >= scheduledAt + DebounceWait(options)
      modifies this
      ensures Valid() && State() == Fire(options, old(State()))
    {
      sendScheduled := false;
      SendActivity();
    }

    /** `recordActivity(activity)` at `now`. */
    method RecordActivity(a: Activity, now: int)
      requires Valid()
      modifies this
      ensures Valid() && State() == Record(options, isValidActivity, old(State()), a, now)
      ensures lastActiveDocument == old(lastActiveDocument) && projectCache == old(projectCache)
    {
      StepsPreserveInv(options, isValidActivity, State(), a, now);
      if !isValidActivity(a) {
        return;
      }
      currentScore := currentScore + a.score;
      if options.batchEvents == Some(true) {
        SumScoresSnoc(eventBatch, a);
        eventBatch := eventBatch + [a];
        if currentScore >= Threshold(options)
           || (BatchLimit(options).Some? && |eventBatch| >= BatchLimit(options).value) {
          SendActivity();
        } else {
          DebouncedSend(now);
        }
      } else if currentScore >= Threshold(options) {
        SendActivity();
      } else {
        DebouncedSend(now);
      }
    }

    /** `clearCache()`. */
    method ClearCache()
      modifies this
      ensures Valid() && State() == Cleared(old(State()))
      ensures projectCache == map[] && lastActiveDocument == None
    {
      projectCache := map[];
      eventBatch := [];
      currentScore := 0;
      lastActiveDocument := None;
    }

    /** `flushActivities()`: the same as `sendActivity()`. */
    method FlushActivities()
      requires Valid()
      modifies this
      ensures Valid() && State() == Send(options, old(State()))
    {
      SendActivity();
    }
  }

  const CursorMove := Activity("cursorMove", 1, Undefined)
  const TextSelection := Activity("textSelection", 3, Undefined)
  const Defaults := Merge(DefaultOptions, Options(None, None, None, None, None))

  /** With the defaults, two cursor moves wait for the debounced send... */
  lemma TwoSmallActivitiesWait(isValid: Activity -> bool)
    requires isValid(CursorMove)
    ensures var s1 := Record(Defaults, isValid, MapperState([], 0, false, 0, []), CursorMove, 0);
            s1 == MapperState([CursorMove], 1, true, 0, [])
            && Record(Defaults, isValid, s1, CursorMove, 10) == MapperState([CursorMove, CursorMove], 2, true, 10, [])
  {
    DefaultsResolve();
    var a := CursorMove;
    assert SumScores([a]) == 1 by { assert [a][..0] == []; }
    assert SumScores([a, a]) == 2 by { assert [a, a][..1] == [a]; }
    assert [] + [a] == [a];
    assert [a] + [a] == [a, a];
    BatchModeRecord(Defaults, isValid, MapperState([], 0, false, 0, []), a, 0);
    BatchModeRecord(Defaults, isValid, MapperState([a], 1, true, 0, []), a, 10);
  }

  /** ...and a text selection that brings the total to 5 sends all three at once; the later timer sends nothing. */
  lemma ThresholdSendsBatch(isValid: Activity -> bool)
    requires isValid(TextSelection)
    ensures var s3 := Record(Defaults, isValid, MapperState([CursorMove, CursorMove], 2, true, 10, []), TextSelection, 20);
            s3 == MapperState([], 0, true, 10, [Batch([CursorMove, CursorMove, TextSelection], 5)])
            && Fire(Defaults, s3).sent == s3.sent
  {
    DefaultsResolve();
    var a := CursorMove;
    var b := TextSelection;
    assert SumScores([a]) == 1 by { assert [a][..0] == []; }
    assert SumScores([a, a]) == 2 by { assert [a, a][..1] == [a]; }
    assert SumScores([a, a, b]) == 5 by { assert [a, a, b][..2] == [a, a]; }
    assert [a, a] + [b] == [a, a, b];
    BatchModeRecord(Defaults, isValid, MapperState([a, a], 2, true, 10, []), b, 20);
  }
}
