/**
 * Request metrics: counters of totals, of primary and fallback model attempts
 * and successes, a per-model request count, and the sum and count of response
 * times. `MetricsManager` holds them as fields and updates them in place on
 * each recorded request; `Record` is the same update on values, used to state
 * what a sequence of requests does.
 */
module Metrics {
  import opened Wrappers

  datatype Totals = Totals(requests: int, success: int, errors: int)

  datatype LlmCounters = LlmCounters(
    primaryAttempts: int,
    primarySuccess: int,
    fallbackAttempts: int,
    fallbackSuccess: int,
    perModel: map<string, int>)

  datatype Timings = Timings(responseMsSum: int, responseMsCount: int)

  /** The whole metrics record as it is persisted. */
  datatype MetricsState = MetricsState(
    createdAt: string,
    totals: Totals,
    llm: LlmCounters,
    timings: Timings,
    updatedAt: Option<string>)

  /** The keyword arguments of one `record_request` call. */
  datatype Request = Request(
    model: Option<string>,
    usedFallback: bool,
    success: bool,
    responseTimeMs: Option<int>,
    primaryAttempt: bool)

  /** 1 when `b` holds, else 0: how much a guarded `+= 1` adds. */
  function Bump(b: bool): int {
    if b then 1 else 0
  }

  /** Python truthiness of the model argument: present and non-empty. */
  predicate NamesModel(model: Option<string>) {
    model.Some? && model.value != ""
  }

  /** The count recorded for `name`, 0 when it has none. */
  function CountFor(perModel: map<string, int>, name: string): int {
    if name in perModel then perModel[name] else 0
  }

  /** Every counter at zero and no model seen. */
  predicate AllZero(m: MetricsState) {
    && m.totals == Totals(0, 0, 0)
    && m.llm.primaryAttempts == 0 && m.llm.primarySuccess == 0
    && m.llm.fallbackAttempts == 0 && m.llm.fallbackSuccess == 0
    && m.llm.perModel == map[]
    && m.timings == Timings(0, 0)
  }

  /** Relations between the counters that every sequence of requests keeps from the default record. */
  predicate Consistent(m: MetricsState) {
    && 0 <= m.totals.success && 0 <= m.totals.errors
    && m.totals.success + m.totals.errors == m.totals.requests
    && 0 <= m.llm.primarySuccess <= m.llm.primaryAttempts
    && 0 <= m.llm.fallbackSuccess <= m.llm.fallbackAttempts
    && 0 <= m.timings.responseMsCount <= m.totals.requests
    && (forall name :: name in m.llm.perModel ==> m.llm.perModel[name] >= 0)
  }

  /** No counter went down and no model was forgotten from `m` to `m'`. */
  predicate Grows(m: MetricsState, m': MetricsState) {
    && m.totals.requests <= m'.totals.requests
    && m.totals.success <= m'.totals.success
    && m.totals.errors <= m'.totals.errors
    && m.llm.primaryAttempts <= m'.llm.primaryAttempts
    && m.llm.primarySuccess <= m'.llm.primarySuccess
    && m.llm.fallbackAttempts <= m'.llm.fallbackAttempts
    && m.llm.fallbackSuccess <= m'.llm.fallbackSuccess
    && m.timings.responseMsSum <= m'.timings.responseMsSum
    && m.timings.responseMsCount <= m'.timings.responseMsCount
    && (forall name :: name in m.llm.perModel ==>
          name in m'.llm.perModel && m.llm.perModel[name] <= m'.llm.perModel[name])
  }

  /** A request whose response time, if any, is not negative. */
  predicate HasNoNegativeTime(req: Request) {
    req.responseTimeMs.Some? ==> req.responseTimeMs.value >= 0
  }

  /** The record `_load` builds when there is no readable file. */
  function Default(now: string): (m: MetricsState)
    ensures AllZero(m) && Consistent(m)
    ensures m.createdAt == now && m.updatedAt == None
  {
    MetricsState(now, Totals(0, 0, 0), LlmCounters(0, 0, 0, 0, map[]), Timings(0, 0), None)
  }

  /** What one `record_request` call does to the counters (the save is `Save`). */
  function Record(m: MetricsState, req: Request): (r: MetricsState)
    ensures r.totals.requests == m.totals.requests + 1
    ensures r.totals.success == m.totals.success + 1 <==> req.success
    ensures r.totals.errors == m.totals.errors + 1 <==> !req.success
    ensures r.totals.success + r.totals.errors == m.totals.success + m.totals.errors + 1
    ensures r.llm.primaryAttempts == m.llm.primaryAttempts + Bump(req.primaryAttempt)
    ensures r.llm.primarySuccess ==
              m.llm.primarySuccess + Bump(req.primaryAttempt && req.success && !req.usedFallback)
    ensures r.llm.fallbackAttempts == m.llm.fallbackAttempts + Bump(req.usedFallback)
    ensures r.llm.fallbackSuccess == m.llm.fallbackSuccess + Bump(req.usedFallback && req.success)
    ensures NamesModel(req.model) ==>
              && r.llm.perModel.Keys == m.llm.perModel.Keys + {req.model.value}
              && r.llm.perModel[req.model.value] == CountFor(m.llm.perModel, req.model.value) + 1
              && forall name :: name in m.llm.perModel && name != req.model.value ==>
                                  r.llm.perModel[name] == m.llm.perModel[name]
    ensures !NamesModel(req.model) ==> r.llm.perModel == m.llm.perModel
    ensures req.responseTimeMs.Some? ==>
              && r.timings.responseMsSum == m.timings.responseMsSum + req.responseTimeMs.value
              && r.timings.responseMsCount == m.timings.responseMsCount + 1
    ensures req.responseTimeMs.None? ==> r.timings == m.timings
    ensures r.createdAt == m.createdAt && r.updatedAt == m.updatedAt
    ensures Consistent(m) ==> Consistent(r)
    ensures HasNoNegativeTime(req) ==> Grows(m, r)
  {
    m.(totals := CountOutcome(m.totals, req.success),
       llm := CountModel(CountFallback(CountPrimary(m.llm, req), req), req.model),
       timings := CountTime(m.timings, req.responseTimeMs))
  }

  /**
   * The totals after one request: one more request, counted as exactly one
   * success or one error, so the requests not yet classified stay as they were.
   */
  function CountOutcome(t: Totals, success: bool): (r: Totals)
    ensures r.requests == t.requests + 1
    ensures r.success == t.success + Bump(success) && r.errors == t.errors + Bump(!success)
    ensures r.requests - (r.success + r.errors) == t.requests - (t.success + t.errors)
  {
    var t' := t.(requests := t.requests + 1);
    if success then t'.(success := t'.success + 1) else t'.(errors := t'.errors + 1)
  }

  /**
   * The primary-model counters after one request: an attempt when the request
   * made one, a success only for an attempt that succeeded without the fallback;
   * nothing else changes.
   */
  function CountPrimary(llm: LlmCounters, req: Request): (r: LlmCounters)
    ensures r.primaryAttempts == llm.primaryAttempts + Bump(req.primaryAttempt)
    ensures r.primarySuccess == llm.primarySuccess + Bump(req.primaryAttempt && req.success && !req.usedFallback)
    ensures r.primarySuccess - llm.primarySuccess <= r.primaryAttempts - llm.primaryAttempts
    ensures r.(primaryAttempts := llm.primaryAttempts, primarySuccess := llm.primarySuccess) == llm
  {
    if !req.primaryAttempt then llm
    else if req.success && !req.usedFallback
    then llm.(primaryAttempts := llm.primaryAttempts + 1, primarySuccess := llm.primarySuccess + 1)
    else llm.(primaryAttempts := llm.primaryAttempts + 1)
  }

  /**
   * The fallback counters after one request: an attempt when the fallback was
   * used, and a success when that request succeeded; nothing else changes.
   */
  function CountFallback(llm: LlmCounters, req: Request): (r: LlmCounters)
    ensures r.fallbackAttempts == llm.fallbackAttempts + Bump(req.usedFallback)
    ensures r.fallbackSuccess == llm.fallbackSuccess + Bump(req.usedFallback && req.success)
    ensures r.fallbackSuccess - llm.fallbackSuccess <= r.fallbackAttempts - llm.fallbackAttempts
    ensures r.(fallbackAttempts := llm.fallbackAttempts, fallbackSuccess := llm.fallbackSuccess) == llm
  {
    if !req.usedFallback then llm
    else if req.success
    then llm.(fallbackAttempts := llm.fallbackAttempts + 1, fallbackSuccess := llm.fallbackSuccess + 1)
    else llm.(fallbackAttempts := llm.fallbackAttempts + 1)
  }

  /**
   * The per-model counts after one request: a named model gains one request
   * (starting from 0 when unseen) and every other model keeps its count; an
   * unnamed model changes nothing.
   */
  function CountModel(llm: LlmCounters, model: Option<string>): (r: LlmCounters)
    ensures r.(perModel := llm.perModel) == llm
    ensures NamesModel(model) ==>
              && r.perModel.Keys == llm.perModel.Keys + {model.value}
              && r.perModel[model.value] == CountFor(llm.perModel, model.value) + 1
              && forall name :: name in llm.perModel && name != model.value ==>
                                  r.perModel[name] == llm.perModel[name]
    ensures !NamesModel(model) ==> r == llm
  {
    if !NamesModel(model) then llm
    else llm.(perModel := llm.perModel[model.value := CountFor(llm.perModel, model.value) + 1])
  }

  /** The timings after one request: a given response time joins the sum and the count. */
  function CountTime(t: Timings, responseTimeMs: Option<int>): (r: Timings)
    ensures r.responseMsSum == t.responseMsSum + responseTimeMs.GetOr(0)
    ensures r.responseMsCount == t.responseMsCount + Bump(responseTimeMs.Some?)
  {
    match responseTimeMs
    case Some(ms) => Timings(t.responseMsSum + ms, t.responseMsCount + 1)
    case None => t
  }

  /** What `_save` changes in the record: the time of the last update. */
  function Saved(m: MetricsState, now: string): (r: MetricsState)
    ensures r.updatedAt == Some(now)
    ensures r.(updatedAt := m.updatedAt) == m
  {
    m.(updatedAt := Some(now))
  }

  /** The requests recorded one after another, the last one last. */
  function RecordAll(m: MetricsState, reqs: seq<Request>): MetricsState
    decreases |reqs|
  {
    if reqs == [] then m
    else Record(RecordAll(m, reqs[..|reqs| - 1]), reqs[|reqs| - 1])
  }

  /** Every request adds exactly one to the request total. */
  lemma {:induction false} RecordAllCountsRequests(m: MetricsState, reqs: seq<Request>)
    ensures RecordAll(m, reqs).totals.requests == m.totals.requests + |reqs|
  {
    if reqs != [] {
      RecordAllCountsRequests(m, reqs[..|reqs| - 1]);
    }
  }

  /** The counter relations hold after any sequence of requests started from a consistent record. */
  lemma {:induction false} RecordAllKeepsConsistent(m: MetricsState, reqs: seq<Request>)
    requires Consistent(m)
    ensures Consistent(RecordAll(m, reqs))
  {
    if reqs != [] {
      RecordAllKeepsConsistent(m, reqs[..|reqs| - 1]);
    }
  }

  /** Starting from the default record, the counter relations hold forever. */
  lemma FromDefaultConsistent(now: string, reqs: seq<Request>)
    ensures Consistent(RecordAll(Default(now), reqs))
  {
    RecordAllKeepsConsistent(Default(now), reqs);
  }

  lemma GrowsTransitive(a: MetricsState, b: MetricsState, c: MetricsState)
    requires Grows(a, b) && Grows(b, c)
    ensures Grows(a, c)
  {
  }

  /** Counters never decrease over a sequence of requests with non-negative times. */
  lemma {:induction false} RecordAllGrows(m: MetricsState, reqs: seq<Request>)
    requires forall i :: 0 <= i < |reqs| ==> HasNoNegativeTime(reqs[i])
    ensures Grows(m, RecordAll(m, reqs))
  {
    if reqs != [] {
      var prefix := reqs[..|reqs| - 1];
      RecordAllGrows(m, prefix);
      GrowsTransitive(m, RecordAll(m, prefix), RecordAll(m, reqs));
    }
  }

  /** A primary attempt that succeeded without the fallback. */
  predicate IsPrimarySuccess(req: Request) {
    req.primaryAttempt && req.success && !req.usedFallback
  }

  /**
   * Any N successful primary requests without fallback, whatever their models
   * and times, count N requests, successes, primary attempts and primary
   * successes from the default record, and no error or fallback.
   */
  lemma {:induction false} RepeatedPrimarySuccess(now: string, reqs: seq<Request>)
    requires forall i :: 0 <= i < |reqs| ==> IsPrimarySuccess(reqs[i])
    ensures var r := RecordAll(Default(now), reqs);
            && r.totals.requests == |reqs| && r.totals.success == |reqs| && r.totals.errors == 0
            && r.llm.primaryAttempts == |reqs| && r.llm.primarySuccess == |reqs|
            && r.llm.fallbackAttempts == 0 && r.llm.fallbackSuccess == 0
    decreases |reqs|
  {
    if reqs != [] {
      RepeatedPrimarySuccess(now, reqs[..|reqs| - 1]);
    }
  }

  /** One primary success with gpt-4, then one fallback success with gpt-4o-mini not counted as a primary attempt. */
  lemma TwoRequests(now: string)
    ensures var r := RecordAll(Default(now), [
              Request(Some("gpt-4"), false, true, Some(120), true),
              Request(Some("gpt-4o-mini"), true, true, Some(80), false)]);
            && r.totals.requests == 2 && r.totals.success == 2
            && r.llm.primaryAttempts == 1 && r.llm.fallbackAttempts == 1
            && r.timings.responseMsCount == 2 && r.timings.responseMsSum == 200
  {
    var reqs := [Request(Some("gpt-4"), false, true, Some(120), true),
                 Request(Some("gpt-4o-mini"), true, true, Some(80), false)];
    assert reqs[..1][..0] == [];
    assert reqs[..1] == [reqs[0]];
  }

  /**
   * `MetricsManager`: the metrics record held in fields, one per section of
   * the record, and updated in place.
   */
  class MetricsManager {
    var createdAt: string
    var totals: Totals
    var llm: LlmCounters
    var timings: Timings
    var updatedAt: Option<string>

    /** The fields read as one record. */
    function State(): MetricsState
      reads this
    {
      MetricsState(createdAt, totals, llm, timings, updatedAt)
    }

    /** Starts from the saved record when one could be read, else from the default record. */
    constructor (saved: Option<MetricsState>, now: string)
      ensures State() == if saved.Some? then saved.value else Default(now)
    {
      var m := if saved.Some? then saved.value else Default(now);
      createdAt, totals, llm, timings, updatedAt := m.createdAt, m.totals, m.llm, m.timings, m.updatedAt;
    }

    /** Stamps the record with the save time; writing the file is not modelled. */
    method Save(now: string)
      modifies this
      ensures State() == Saved(old(State()), now)
    {
      updatedAt := Some(now);
    }

    /** Records one request, section by section, then saves. */
    method RecordRequest(model: Option<string>, usedFallback: bool, success: bool,
                         responseTimeMs: Option<int>, primaryAttempt: bool, now: string)
      modifies this
      ensures State() == Saved(Record(old(State()), Request(model, usedFallback, success, responseTimeMs, primaryAttempt)), now)
      ensures Consistent(old(State())) ==> Consistent(State())
    {
      var req := Request(model, usedFallback, success, responseTimeMs, primaryAttempt);
      AddOutcome(success);
      AddPrimary(req);
      AddFallback(req);
      AddModel(model);
      AddTime(responseTimeMs);
      Save(now);
    }

    /** The request total and the success or error total. */
    method AddOutcome(success: bool)
      modifies this
      ensures totals == CountOutcome(old(totals), success)
      ensures createdAt == old(createdAt) && llm == old(llm) && timings == old(timings)
      ensures updatedAt == old(updatedAt)
    {
      totals := totals.(requests := totals.requests + 1);
      if success {
        totals := totals.(success := totals.success + 1);
      } else {
        totals := totals.(errors := totals.errors + 1);
      }
    }

    /** The primary attempt counters. */
    method AddPrimary(req: Request)
      modifies this
      ensures llm == CountPrimary(old(llm), req)
      ensures createdAt == old(createdAt) && totals == old(totals) && timings == old(timings)
      ensures updatedAt == old(updatedAt)
    {
      if req.primaryAttempt {
        llm := llm.(primaryAttempts := llm.primaryAttempts + 1);
        if req.success && !req.usedFallback {
          llm := llm.(primarySuccess := llm.primarySuccess + 1);
        }
      }
    }

    /** The fallback attempt counters. */
    method AddFallback(req: Request)
      modifies this
      ensures llm == CountFallback(old(llm), req)
      ensures createdAt == old(createdAt) && totals == old(totals) && timings == old(timings)
      ensures updatedAt == old(updatedAt)
    {
      if req.usedFallback {
        llm := llm.(fallbackAttempts := llm.fallbackAttempts + 1);
        if req.success {
          llm := llm.(fallbackSuccess := llm.fallbackSuccess + 1);
        }
      }
    }

    /** The per-model count. */
    method AddModel(model: Option<string>)
      modifies this
      ensures llm == CountModel(old(llm), model)
      ensures createdAt == old(createdAt) && totals == old(totals) && timings == old(timings)
      ensures updatedAt == old(updatedAt)
    {
      if model.Some? && model.value != "" {
        llm := llm.(perModel := llm.perModel[model.value := CountFor(llm.perModel, model.value) + 1]);
      }
    }

    /** The response time sum and count. */
    method AddTime(responseTimeMs: Option<int>)
      modifies this
      ensures timings == CountTime(old(timings), responseTimeMs)
      ensures createdAt == old(createdAt) && totals == old(totals) && llm == old(llm)
      ensures updatedAt == old(updatedAt)
    {
      if responseTimeMs.Some? {
        timings := timings.(responseMsSum := timings.responseMsSum + responseTimeMs.value);
        timings := timings.(responseMsCount := timings.responseMsCount + 1);
      }
    }
  }
}
