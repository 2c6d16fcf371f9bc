/** The expand stage (app/src/services/serviceDiscoveryExpand.ts): validate
    the message, gather suggestions with the strategy for the search type (or
    the custom keywords, or the keywords a URL ranks for), clean and persist
    them, mark the run completed and dispatch the next three stages.

    Every store write, every strategy or URL lookup, every keyword-item write
    and every message sent is recorded, in order, as an effect. `ExpandRun`
    says which effects a run has and how it ends; `Expand` performs them on
    the report store and the queue and is proved to match it. */
module Expand {
  import opened Seqs
  import opened Strings
  import opened Suggest
  import opened Records
  import opened Keyword
  import opened Questions
  import opened Generate
  import opened Url
  import opened DiscoveryStore
  import IS = ItemStore
  import opened Queues

  const NOT_FOUND: nat := 404
  const OK: nat := 200

  /** The language that also gets the verb-extraction stage. */
  const PRIMARY_LANGUAGE: string := "en"

  /** What `getNgrams` returns: opaque here. */
  type Ngrams = seq<string>

  /** The collaborators whose code is not part of this model, and the clock.
      `strategyThrows` says that `generateSuggestions` rejects;
      `ngrams` gives `None` when `getNgrams` throws; `itemWriteFails` says
      for which keyword `createOrUpdateDiscoveryItem` throws; `terms` is
      `None` when `calculateTerms` throws. */
  datatype Collaborators = Collaborators(
    source: Source,
    extract: Extractor,
    extras: ExtraSource,
    strategyThrows: bool,
    parse: UrlParser,
    credentials: Credentials,
    ranked: RankedSource,
    ngrams: seq<string> -> Option<Ngrams>,
    itemWriteFails: string -> bool,
    terms: Option<seq<string>>,
    now: Timestamp)

  /** One observable step of a run. */
  datatype Effect =
    | SetReport(patch: Patch)                                   // dbUpdateDiscovery
    | SetTask(uuid: Option<string>, stage: Stage, status: Status) // dbAddOrUpdateDiscoveryTask
    | Queried(trace: seq<Event>)                                // generateSuggestions
    | LookedUp(calls: seq<RankedQuery>)                         // getKeywordsForUrl
    | ItemWrite(keyword: string, ngrams: Ngrams)                // createOrUpdateDiscoveryItem
    | Sent(envelope: Envelope)                                  // sendToQueue

  /** The HTTP reply, or an exception escaping the handler. */
  datatype Outcome = Reply(code: nat, success: bool) | Thrown

  datatype Run = Run(outcome: Outcome, effects: seq<Effect>)

  /** Where gathering suggestions leaves a run: finished, or going on with
      the effects so far and the suggestions found. */
  datatype Step = Stop(run: Run) | Go(effects: seq<Effect>, suggestions: seq<string>)

  function StepEffects(s: Step): seq<Effect> {
    if s.Stop? then s.run.effects else s.effects
  }

  // ---------------------------------------------------------------------
  // The specification of a run

  /** The status write of the run itself: on the report for a first run,
      on its `discovery-expand` task otherwise. */
  function MarkEffect(m: ExpandMessage, status: Status): Effect {
    if m.isNew then SetReport(StatusPatch(status)) else SetTask(m.taskUuid, DiscoveryExpand, status)
  }

  /** A task write on an unknown report throws; a report write does not. */
  predicate MarkThrows(m: ExpandMessage, known: bool) {
    !m.isNew && !known
  }

  /** Record `error` and reply with failure. */
  function ErrorRun(m: ExpandMessage, known: bool, effs: seq<Effect>, code: nat): Run {
    var effs' := effs + [MarkEffect(m, Error)];
    if MarkThrows(m, known) then Run(Thrown, effs') else Run(Reply(code, false), effs')
  }

  function StartEffects(m: ExpandMessage): seq<Effect> {
    if m.isNew then [SetReport(StatusPatch(Processing))] else []
  }

  /** A custom search without keywords. */
  predicate MissingKeywords(m: ExpandMessage) {
    m.searchType == SearchCustom && (m.keywords.None? || |m.keywords.value| == 0)
  }

  /** The custom keywords, when the search is custom and has some. */
  function CustomKeywords(m: ExpandMessage): seq<string> {
    if m.searchType == SearchCustom && m.keywords.Some? && |m.keywords.value| > 0 then m.keywords.value else []
  }

  predicate UsesStrategy(m: ExpandMessage) {
    m.searchType == SearchQuestions || m.searchType == SearchWildcard
  }

  /** The questions or wildcard strategy: a missing seed ends the run with
      failure and no status write; a strategy that throws records `error`. */
  function StrategyStep(m: ExpandMessage, c: Collaborators, known: bool, start: seq<Effect>): Step {
    if !Present(m.seed) then Stop(Run(Reply(OK, false), start))
    else if c.strategyThrows then Stop(ErrorRun(m, known, start, OK))
    else
      Go(start + [Queried(StrategyTrace(m.seed.value, m.searchType, c.source, c.extract))],
         Generated(m.seed.value, m.searchType, c.source, c.extract, c.extras))
  }

  /** The keywords the URL ranks for: a missing URL, or a URL without
      keywords, ends the run with failure and no status write. */
  function UrlStep(m: ExpandMessage, c: Collaborators, start: seq<Effect>): Step {
    if !Present(m.url) then Stop(Run(Reply(OK, false), start))
    else
      var look := GetKeywordsForUrl(m.url.value, c.parse, c.credentials, c.ranked);
      if look.keywords.None? then Stop(Run(Reply(OK, false), start + [LookedUp(look.calls)]))
      else Go(start + [LookedUp(look.calls)], look.keywords.value)
  }

  /** Gathering suggestions for the search type; a custom search goes on
      with its keywords. */
  function GatherStep(m: ExpandMessage, c: Collaborators, known: bool, start: seq<Effect>): Step {
    if UsesStrategy(m) then StrategyStep(m, c, known, start)
    else if m.searchType == SearchUrl then UrlStep(m, c, start)
    else Go(start, CustomKeywords(m))
  }

  /** A suggestion as it is stored: year updated, then cleaned with the
      default options (no `*`, escape characters kept). */
  function Cleaned(sug: string): string {
    CleanKeyword(UpdateKeywordYear(sug), false, false)
  }

  function CleanSuggestion(): string -> string {
    sug => Cleaned(sug)
  }

  /** `uniq(newSuggestions.map((sug) => cleanKeyword(updateKeywordYear(sug))))`. */
  function KeywordsOf(newSuggestions: seq<string>): seq<string> {
    Uniq(Map(newSuggestions, CleanSuggestion()))
  }

  function KeywordOf(): IS.Item -> string {
    (it: IS.Item) => it.keyword
  }

  /** The report's keywords already stored, then the new ones, deduped. */
  function AllKeywords(items: seq<IS.Item>, id: ReportId, kws: seq<string>): seq<string> {
    Uniq(Map(IS.SelectItems(items, id, None), KeywordOf()) + kws)
  }

  function ItemWriteOf(ng: Ngrams): string -> Effect {
    kw => ItemWrite(kw, ng)
  }

  /** The item writes: one per keyword in order, up to and including the
      first that throws. */
  function ItemWrites(kws: seq<string>, ng: Ngrams, fails: string -> bool): seq<Effect> {
    var i := FindIndex(kws, fails);
    Map(if i >= 0 then kws[..i + 1] else kws, ItemWriteOf(ng))
  }

  /** One follow-up stage: its task registered `queued`, then its message. */
  function StageEffects(uuid: string, stage: Stage, e: Envelope): seq<Effect> {
    [SetTask(Some(uuid), stage, Queued), Sent(e)]
  }

  /** The keyword-data message: the run's keywords and seed, under its task
      id, for the message's location, language and search engine. */
  function KeywordsMessage(m: ExpandMessage, id: ReportId, kws: seq<string>, uuid: string): Envelope {
    KeywordsData(m.seed, id, kws, uuid, m.location, m.language, m.searchEngine)
  }

  /** The three (or, outside the primary language, two) follow-up stages,
      after `effs`, each under a fresh id. */
  function DispatchOnto(m: ExpandMessage, id: ReportId, kws: seq<string>, issued: nat, effs: seq<Effect>): seq<Effect> {
    var en := m.language == PRIMARY_LANGUAGE;
    var k := UuidText(issued);
    var s := UuidText(if en then issued + 2 else issued + 1);
    var first := effs + StageEffects(k, DiscoveryKeywords, KeywordsMessage(m, id, kws, k));
    var mid := if en then first + StageEffects(UuidText(issued + 1), DiscoveryVerbs, Verbs(UuidText(issued + 1), id)) else first;
    mid + StageEffects(s, DiscoverySerpsSimilarity, SerpsSimilarity(m.seed, id, s))
  }

  /** Dispatch: the first task write throws on an unknown report. */
  function DispatchRun(m: ExpandMessage, id: ReportId, known: bool, kws: seq<string>, issued: nat, effs: seq<Effect>): Run {
    if !known then Run(Thrown, effs + [SetTask(Some(UuidText(issued)), DiscoveryKeywords, Queued)])
    else Run(Reply(OK, true), DispatchOnto(m, id, kws, issued, effs))
  }

  /** The report's own writes after the items: the terms when they could
      be computed, then `completed`. */
  function DoneEffects(m: ExpandMessage, terms: Option<seq<string>>, effs: seq<Effect>): seq<Effect> {
    effs + (if terms.Some? then [SetReport(TermsPatch(terms.value))] else []) + [MarkEffect(m, Completed)]
  }

  /** After the items are written: terms, completion, dispatch. */
  function WrapUpRun(m: ExpandMessage, terms: Option<seq<string>>, id: ReportId, known: bool,
                     kws: seq<string>, issued: nat, effs: seq<Effect>): Run
  {
    var done := DoneEffects(m, terms, effs);
    if MarkThrows(m, known) then Run(Thrown, done) else DispatchRun(m, id, known, kws, issued, done)
  }

  /** After the n-grams: item writes, then the wrap-up unless one threw. */
  function FinishRun(m: ExpandMessage, c: Collaborators, id: ReportId, known: bool,
                     kws: seq<string>, ng: Ngrams, issued: nat, effs: seq<Effect>): Run
  {
    var writes := ItemWrites(kws, ng, c.itemWriteFails);
    if FindIndex(kws, c.itemWriteFails) >= 0 then Run(Thrown, effs + writes)
    else WrapUpRun(m, c.terms, id, known, kws, issued, effs + writes)
  }

  /** After gathering: clean the suggestions, compute the n-grams of all
      the report's keywords, finish. */
  function CompleteRun(m: ExpandMessage, c: Collaborators, id: ReportId, known: bool, items: seq<IS.Item>, issued: nat,
                       effs: seq<Effect>, newSuggestions: seq<string>): Run
  {
    var kws := KeywordsOf(newSuggestions);
    var ng := c.ngrams(AllKeywords(items, id, kws));
    if ng.None? then ErrorRun(m, known, effs, OK)
    else FinishRun(m, c, id, known, kws, ng.value, issued, effs)
  }

  /** After the message is validated and the report marked `processing`. */
  function ProceedRun(m: ExpandMessage, c: Collaborators, id: ReportId, known: bool, items: seq<IS.Item>, issued: nat,
                      start: seq<Effect>): Run
  {
    if MissingKeywords(m) then ErrorRun(m, known, start, NOT_FOUND)
    else
      var step := GatherStep(m, c, known, start);
      if step.Stop? then step.run
      else CompleteRun(m, c, id, known, items, issued, step.effects, step.suggestions)
  }

  /** `serviceDiscoveryExpand`, as a value: `known` says whether the report
      exists, `items` is the item collection and `issued` the number of ids
      handed out before the run. */
  function ExpandRun(m: ExpandMessage, c: Collaborators, known: bool, items: seq<IS.Item>, issued: nat): Run {
    if m.reportId.None? then Run(Reply(NOT_FOUND, false), [])
    else if !m.isNew && !Present(m.taskUuid) then Run(Reply(NOT_FOUND, false), [])
    else ProceedRun(m, c, m.reportId.value, known, items, issued, StartEffects(m))
  }

  // ---------------------------------------------------------------------
  // What the effects do to the store and the queue

  function ApplyEffect(reports: map<ReportId, Report>, id: ReportId, e: Effect, now: Timestamp): map<ReportId, Report> {
    match e
    case SetReport(p) => UpdateIn(reports, id, p, now)
    case SetTask(u, stage, status) =>
      if Present(u) && id in reports
      then reports[id := reports[id].(tasks := UpsertTask(reports[id].tasks, u.value, stage, status, now))]
      else reports
    case _ => reports
  }

  /** The report collection after the effects, in order. */
  function Replay(reports: map<ReportId, Report>, id: ReportId, effs: seq<Effect>, now: Timestamp): map<ReportId, Report> {
    if effs == [] then reports
    else ApplyEffect(Replay(reports, id, effs[..|effs| - 1], now), id, effs[|effs| - 1], now)
  }

  /** The messages among the effects, in order. */
  function SentIn(effs: seq<Effect>): seq<Envelope> {
    if effs == [] then []
    else SentIn(effs[..|effs| - 1]) + (if effs[|effs| - 1].Sent? then [effs[|effs| - 1].envelope] else [])
  }

  /** A follow-up stage's registration: the one kind of effect that takes
      a fresh id. */
  predicate Registers(e: Effect) {
    e.SetTask? && e.stage != DiscoveryExpand
  }

  /** How many ids the effects drew from the supplier. */
  function IdsDrawn(effs: seq<Effect>): nat {
    if effs == [] then 0
    else IdsDrawn(effs[..|effs| - 1]) + (if Registers(effs[|effs| - 1]) then 1 else 0)
  }

  /** Replaying effects never adds or removes a report. */
  lemma {:induction false} ReplayKeys(reports: map<ReportId, Report>, id: ReportId, effs: seq<Effect>, now: Timestamp)
    ensures Replay(reports, id, effs, now).Keys == reports.Keys
    decreases |effs|
  {
    if effs != [] {
      ReplayKeys(reports, id, effs[..|effs| - 1], now);
    }
  }

  /** The store and the queue are what the effects made of them. */
  ghost predicate Synced(reports: map<ReportId, Report>, sent: seq<Envelope>,
                         r0: map<ReportId, Report>, q0: seq<Envelope>, id: ReportId, effs: seq<Effect>, now: Timestamp) {
    reports == Replay(r0, id, effs, now) && sent == q0 + SentIn(effs)
  }

  lemma SyncedStep(reports: map<ReportId, Report>, sent: seq<Envelope>,
                   r0: map<ReportId, Report>, q0: seq<Envelope>, id: ReportId, effs: seq<Effect>, now: Timestamp, e: Effect)
    requires Synced(reports, sent, r0, q0, id, effs, now)
    ensures Synced(ApplyEffect(reports, id, e, now), sent + (if e.Sent? then [e.envelope] else []), r0, q0, id, effs + [e], now)
    ensures IdsDrawn(effs + [e]) == IdsDrawn(effs) + (if Registers(e) then 1 else 0)
  {
    assert (effs + [e])[..|effs|] == effs;
  }

  // ---------------------------------------------------------------------
  // The run, step by step

  /** The run's own status write. */
  method Mark(m: ExpandMessage, id: ReportId, status: Status, now: Timestamp, store: ReportStore) returns (thrown: bool)
    requires m.isNew || Present(m.taskUuid)
    modifies store
    ensures store.reports == ApplyEffect(old(store.reports), id, MarkEffect(m, status), now)
    ensures thrown == MarkThrows(m, id in old(store.reports))
    ensures id in store.reports <==> id in old(store.reports)
    ensures store.nextId == old(store.nextId)
  {
    if m.isNew {
      var _ := store.Update(id, StatusPatch(status), now);
      thrown := false;
    } else {
      var w := store.AddOrUpdateTask(id, m.taskUuid, DiscoveryExpand, status, now);
      thrown := w.UnknownReport?;
    }
  }

  /** Record `error`: the run fails, or throws when the task write finds
      no report. */
  method Fail(m: ExpandMessage, id: ReportId, code: nat, now: Timestamp, store: ReportStore, effs: seq<Effect>,
              ghost known: bool, ghost r0: map<ReportId, Report>, ghost q0: seq<Envelope>, ghost sent: seq<Envelope>)
    returns (run: Run)
    requires m.isNew || Present(m.taskUuid)
    requires Synced(store.reports, sent, r0, q0, id, effs, now)
    requires id in store.reports <==> known
    modifies store
    ensures run == ErrorRun(m, known, effs, code)
    ensures Synced(store.reports, sent, r0, q0, id, run.effects, now)
    ensures id in store.reports <==> known
    ensures store.nextId == old(store.nextId) && IdsDrawn(run.effects) == IdsDrawn(effs)
  {
    var thrown := Mark(m, id, Error, now, store);
    SyncedStep(old(store.reports), sent, r0, q0, id, effs, now, MarkEffect(m, Error));
    run := Run(if thrown then Thrown else Reply(code, false), effs + [MarkEffect(m, Error)]);
  }

  /** The questions or wildcard strategy. */
  method GatherStrategy(m: ExpandMessage, c: Collaborators, id: ReportId, store: ReportStore, start: seq<Effect>,
                        ghost known: bool, ghost r0: map<ReportId, Report>, ghost q0: seq<Envelope>, ghost sent: seq<Envelope>)
    returns (step: Step)
    requires UsesStrategy(m)
    requires m.isNew || Present(m.taskUuid)
    requires Synced(store.reports, sent, r0, q0, id, start, c.now)
    requires id in store.reports <==> known
    modifies store
    ensures step == StrategyStep(m, c, known, start)
    ensures Synced(store.reports, sent, r0, q0, id, StepEffects(step), c.now)
    ensures id in store.reports <==> known
    ensures store.nextId == old(store.nextId) && IdsDrawn(StepEffects(step)) == IdsDrawn(start)
  {
    if !Present(m.seed) {
      return Stop(Run(Reply(OK, false), start));
    }
    if c.strategyThrows {
      var run := Fail(m, id, OK, c.now, store, start, known, r0, q0, sent);
      return Stop(run);
    }
    var newSuggestions, trace, asked := GenerateSuggestions(m.seed.value, m.searchType, c.source, c.extract, c.extras);
    SyncedStep(store.reports, sent, r0, q0, id, start, c.now, Queried(trace));
    step := Go(start + [Queried(trace)], newSuggestions);
  }

  /** The keywords the URL ranks for. */
  method GatherUrl(m: ExpandMessage, c: Collaborators, id: ReportId, reports: map<ReportId, Report>, start: seq<Effect>,
                   ghost r0: map<ReportId, Report>, ghost q0: seq<Envelope>, ghost sent: seq<Envelope>)
    returns (step: Step)
    requires Synced(reports, sent, r0, q0, id, start, c.now)
    ensures step == UrlStep(m, c, start)
    ensures Synced(reports, sent, r0, q0, id, StepEffects(step), c.now)
    ensures IdsDrawn(StepEffects(step)) == IdsDrawn(start)
  {
    if !Present(m.url) {
      return Stop(Run(Reply(OK, false), start));
    }
    var look := GetKeywordsForUrl(m.url.value, c.parse, c.credentials, c.ranked);
    SyncedStep(reports, sent, r0, q0, id, start, c.now, LookedUp(look.calls));
    var effects := start + [LookedUp(look.calls)];
    if look.keywords.None? {
      return Stop(Run(Reply(OK, false), effects));
    }
    step := Go(effects, look.keywords.value);
  }

  /** Gathering suggestions for the search type. */
  method Gather(m: ExpandMessage, c: Collaborators, id: ReportId, store: ReportStore, start: seq<Effect>,
                ghost known: bool, ghost r0: map<ReportId, Report>, ghost q0: seq<Envelope>, ghost sent: seq<Envelope>)
    returns (step: Step)
    requires m.isNew || Present(m.taskUuid)
    requires Synced(store.reports, sent, r0, q0, id, start, c.now)
    requires id in store.reports <==> known
    modifies store
    ensures step == GatherStep(m, c, known, start)
    ensures Synced(store.reports, sent, r0, q0, id, StepEffects(step), c.now)
    ensures id in store.reports <==> known
    ensures store.nextId == old(store.nextId) && IdsDrawn(StepEffects(step)) == IdsDrawn(start)
  {
    if UsesStrategy(m) {
      step := GatherStrategy(m, c, id, store, start, known, r0, q0, sent);
    } else if m.searchType == SearchUrl {
      step := GatherUrl(m, c, id, store.reports, start, r0, q0, sent);
    } else {
      step := Go(start, CustomKeywords(m));
    }
  }

  /** The loop of item writes, stopping at the first that throws. */
  method WriteItems(kws: seq<string>, ng: Ngrams, fails: string -> bool, effs: seq<Effect>)
    returns (thrown: bool, effects: seq<Effect>)
    ensures thrown == (FindIndex(kws, fails) >= 0)
    ensures effects == effs + ItemWrites(kws, ng, fails)
  {
    effects := effs;
    var k := 0;
    while k < |kws|
      invariant k <= |kws|
      invariant effects == effs + Map(kws[..k], ItemWriteOf(ng))
      invariant forall j :: 0 <= j < k ==> !fails(kws[j])
    {
      assert kws[..k + 1] == kws[..k] + [kws[k]];
      MapSnoc(kws[..k], kws[k], ItemWriteOf(ng));
      effects := effects + [ItemWrite(kws[k], ng)];
      if fails(kws[k]) {
        FindIndexSpec(kws, fails);
        return true, effects;
      }
      k := k + 1;
    }
    assert kws[..k] == kws;
    thrown := false;
  }

  /** Item writes touch neither the store nor the queue. */
  lemma {:induction false} SyncedItemWrites(reports: map<ReportId, Report>, sent: seq<Envelope>,
                          r0: map<ReportId, Report>, q0: seq<Envelope>, id: ReportId, effs: seq<Effect>, now: Timestamp,
                          kws: seq<string>, ng: Ngrams)
    requires Synced(reports, sent, r0, q0, id, effs, now)
    ensures Synced(reports, sent, r0, q0, id, effs + Map(kws, ItemWriteOf(ng)), now)
    ensures IdsDrawn(effs + Map(kws, ItemWriteOf(ng))) == IdsDrawn(effs)
    decreases |kws|
  {
    if kws != [] {
      var init := kws[..|kws| - 1];
      SyncedItemWrites(reports, sent, r0, q0, id, effs, now, init, ng);
      var e := ItemWrite(kws[|kws| - 1], ng);
      assert ApplyEffect(reports, id, e, now) == reports;
      MapSnoc(init, kws[|kws| - 1], ItemWriteOf(ng));
      assert kws == init + [kws[|kws| - 1]];
      assert effs + Map(kws, ItemWriteOf(ng)) == effs + Map(init, ItemWriteOf(ng)) + [ItemWrite(kws[|kws| - 1], ng)];
      SyncedStep(reports, sent, r0, q0, id, effs + Map(init, ItemWriteOf(ng)), now, e);
      assert sent + [] == sent;
    } else {
      assert effs + Map(kws, ItemWriteOf(ng)) == effs;
    }
  }

  /** One follow-up stage: register its task, then send its message. */
  method Register(id: ReportId, uuid: string, stage: Stage, e: Envelope, now: Timestamp,
                  store: ReportStore, queue: Queue, effs: seq<Effect>,
                  ghost r0: map<ReportId, Report>, ghost q0: seq<Envelope>)
    returns (effects: seq<Effect>)
    requires id in store.reports && uuid != ""
    requires Synced(store.reports, queue.sent, r0, q0, id, effs, now)
    modifies store, queue
    ensures id in store.reports
    ensures effects == effs + StageEffects(uuid, stage, e)
    ensures Synced(store.reports, queue.sent, r0, q0, id, effects, now)
    ensures store.nextId == old(store.nextId)
    ensures IdsDrawn(effects) == IdsDrawn(effs) + (if stage != DiscoveryExpand then 1 else 0)
  {
    var _ := store.AddOrUpdateTask(id, Some(uuid), stage, Queued, now);
    SyncedStep(old(store.reports), queue.sent, r0, q0, id, effs, now, SetTask(Some(uuid), stage, Queued));
    effects := effs + [SetTask(Some(uuid), stage, Queued)];
    queue.Send(e);
    SyncedStep(store.reports, old(queue.sent), r0, q0, id, effects, now, Sent(e));
    effects := effects + [Sent(e)];
    assert effects == effs + StageEffects(uuid, stage, e);
  }

  /** The follow-up stages. */
  method Dispatch(m: ExpandMessage, id: ReportId, kws: seq<string>, now: Timestamp,
                  store: ReportStore, queue: Queue, uuids: UuidSupplier, effs: seq<Effect>,
                  ghost known: bool, ghost r0: map<ReportId, Report>, ghost q0: seq<Envelope>)
    returns (outcome: Outcome, effects: seq<Effect>)
    requires Synced(store.reports, queue.sent, r0, q0, id, effs, now)
    requires id in store.reports <==> known
    modifies store, queue, uuids
    ensures Run(outcome, effects) == DispatchRun(m, id, known, kws, old(uuids.issued), effs)
    ensures Synced(store.reports, queue.sent, r0, q0, id, effects, now)
    ensures store.nextId == old(store.nextId)
    ensures uuids.issued + IdsDrawn(effs) == old(uuids.issued) + IdsDrawn(effects)
  {
    var kwsUuid := uuids.Fresh();
    if id !in store.reports {
      var w := store.AddOrUpdateTask(id, Some(kwsUuid), DiscoveryKeywords, Queued, now);
      SyncedStep(old(store.reports), queue.sent, r0, q0, id, effs, now, SetTask(Some(kwsUuid), DiscoveryKeywords, Queued));
      return Thrown, effs + [SetTask(Some(kwsUuid), DiscoveryKeywords, Queued)];
    }
    effects := Register(id, kwsUuid, DiscoveryKeywords, KeywordsMessage(m, id, kws, kwsUuid), now, store, queue, effs, r0, q0);
    if m.language == PRIMARY_LANGUAGE {
      var verbsUuid := uuids.Fresh();
      effects := Register(id, verbsUuid, DiscoveryVerbs, Verbs(verbsUuid, id), now, store, queue, effects, r0, q0);
    }
    var similarityUuid := uuids.Fresh();
    effects := Register(id, similarityUuid, DiscoverySerpsSimilarity, SerpsSimilarity(m.seed, id, similarityUuid), now,
                        store, queue, effects, r0, q0);
    outcome := Reply(OK, true);
  }

  /** The terms when they could be computed, then `completed`. */
  method Done(m: ExpandMessage, terms: Option<seq<string>>, id: ReportId, now: Timestamp,
              store: ReportStore, effs: seq<Effect>,
              ghost known: bool, ghost r0: map<ReportId, Report>, ghost q0: seq<Envelope>, ghost sent: seq<Envelope>)
    returns (thrown: bool, effects: seq<Effect>)
    requires m.isNew || Present(m.taskUuid)
    requires Synced(store.reports, sent, r0, q0, id, effs, now)
    requires id in store.reports <==> known
    modifies store
    ensures thrown == MarkThrows(m, known) && effects == DoneEffects(m, terms, effs)
    ensures Synced(store.reports, sent, r0, q0, id, effects, now)
    ensures id in store.reports <==> known
    ensures store.nextId == old(store.nextId) && IdsDrawn(effects) == IdsDrawn(effs)
  {
    effects := effs;
    if terms.Some? {
      var _ := store.Update(id, TermsPatch(terms.value), now);
      SyncedStep(old(store.reports), sent, r0, q0, id, effects, now, SetReport(TermsPatch(terms.value)));
      effects := effects + [SetReport(TermsPatch(terms.value))];
    }
    ghost var before := store.reports;
    thrown := Mark(m, id, Completed, now, store);
    SyncedStep(before, sent, r0, q0, id, effects, now, MarkEffect(m, Completed));
    effects := effects + [MarkEffect(m, Completed)];
  }

  /** Terms, completion and dispatch. */
  method WrapUp(m: ExpandMessage, terms: Option<seq<string>>, id: ReportId, kws: seq<string>, now: Timestamp,
                store: ReportStore, queue: Queue, uuids: UuidSupplier, effs: seq<Effect>,
                ghost known: bool, ghost r0: map<ReportId, Report>, ghost q0: seq<Envelope>)
    returns (outcome: Outcome, effects: seq<Effect>)
    requires m.isNew || Present(m.taskUuid)
    requires Synced(store.reports, queue.sent, r0, q0, id, effs, now)
    requires id in store.reports <==> known
    modifies store, queue, uuids
    ensures Run(outcome, effects) == WrapUpRun(m, terms, id, known, kws, old(uuids.issued), effs)
    ensures Synced(store.reports, queue.sent, r0, q0, id, effects, now)
    ensures store.nextId == old(store.nextId)
    ensures uuids.issued + IdsDrawn(effs) == old(uuids.issued) + IdsDrawn(effects)
  {
    var thrown;
    thrown, effects := Done(m, terms, id, now, store, effs, known, r0, q0, queue.sent);
    if thrown {
      return Thrown, effects;
    }
    outcome, effects := Dispatch(m, id, kws, now, store, queue, uuids, effects, known, r0, q0);
  }

  /** Item writes, then the wrap-up unless one threw. */
  method Finish(m: ExpandMessage, c: Collaborators, id: ReportId, kws: seq<string>, ng: Ngrams,
                store: ReportStore, queue: Queue, uuids: UuidSupplier, effs: seq<Effect>,
                ghost known: bool, ghost r0: map<ReportId, Report>, ghost q0: seq<Envelope>)
    returns (outcome: Outcome, effects: seq<Effect>)
    requires m.isNew || Present(m.taskUuid)
    requires Synced(store.reports, queue.sent, r0, q0, id, effs, c.now)
    requires id in store.reports <==> known
    modifies store, queue, uuids
    ensures Run(outcome, effects) == FinishRun(m, c, id, known, kws, ng, old(uuids.issued), effs)
    ensures Synced(store.reports, queue.sent, r0, q0, id, effects, c.now)
    ensures store.nextId == old(store.nextId)
    ensures uuids.issued + IdsDrawn(effs) == old(uuids.issued) + IdsDrawn(effects)
  {
    var thrown;
    thrown, effects := WriteItems(kws, ng, c.itemWriteFails, effs);
    ghost var i := FindIndex(kws, c.itemWriteFails);
    SyncedItemWrites(store.reports, queue.sent, r0, q0, id, effs, c.now, if i >= 0 then kws[..i + 1] else kws, ng);
    if thrown {
      return Thrown, effects;
    }
    outcome, effects := WrapUp(m, c.terms, id, kws, c.now, store, queue, uuids, effects, known, r0, q0);
  }

  /** Everything after gathering. */
  method Complete(m: ExpandMessage, c: Collaborators, id: ReportId,
                  store: ReportStore, items: IS.ItemStore, queue: Queue, uuids: UuidSupplier,
                  effs: seq<Effect>, newSuggestions: seq<string>,
                  ghost known: bool, ghost r0: map<ReportId, Report>, ghost q0: seq<Envelope>)
    returns (outcome: Outcome, effects: seq<Effect>)
    requires m.isNew || Present(m.taskUuid)
    requires Synced(store.reports, queue.sent, r0, q0, id, effs, c.now)
    requires id in store.reports <==> known
    modifies store, queue, uuids
    ensures Run(outcome, effects) == CompleteRun(m, c, id, known, items.items, old(uuids.issued), effs, newSuggestions)
    ensures Synced(store.reports, queue.sent, r0, q0, id, effects, c.now)
    ensures store.nextId == old(store.nextId)
    ensures uuids.issued + IdsDrawn(effs) == old(uuids.issued) + IdsDrawn(effects)
  {
    var suggestions := KeywordsOf(newSuggestions);
    var current := items.ItemsForReport(id, None);
    var ng := c.ngrams(Uniq(Map(current, KeywordOf()) + suggestions));
    if ng.None? {
      var run := Fail(m, id, OK, c.now, store, effs, known, r0, q0, queue.sent);
      return run.outcome, run.effects;
    }
    outcome, effects := Finish(m, c, id, suggestions, ng.value, store, queue, uuids, effs, known, r0, q0);
  }

  /** From the validated message on. */
  method Proceed(m: ExpandMessage, c: Collaborators, id: ReportId,
                 store: ReportStore, items: IS.ItemStore, queue: Queue, uuids: UuidSupplier, start: seq<Effect>,
                 ghost known: bool, ghost r0: map<ReportId, Report>, ghost q0: seq<Envelope>)
    returns (outcome: Outcome, effects: seq<Effect>)
    requires m.isNew || Present(m.taskUuid)
    requires Synced(store.reports, queue.sent, r0, q0, id, start, c.now)
    requires id in store.reports <==> known
    modifies store, queue, uuids
    ensures Run(outcome, effects) == ProceedRun(m, c, id, known, items.items, old(uuids.issued), start)
    ensures Synced(store.reports, queue.sent, r0, q0, id, effects, c.now)
    ensures store.nextId == old(store.nextId)
    ensures uuids.issued + IdsDrawn(start) == old(uuids.issued) + IdsDrawn(effects)
  {
    if MissingKeywords(m) {
      var run := Fail(m, id, NOT_FOUND, c.now, store, start, known, r0, q0, queue.sent);
      return run.outcome, run.effects;
    }
    var step := Gather(m, c, id, store, start, known, r0, q0, queue.sent);
    if step.Stop? {
      return step.run.outcome, step.run.effects;
    }
    outcome, effects := Complete(m, c, id, store, items, queue, uuids, step.effects, step.suggestions, known, r0, q0);
  }

  /** `serviceDiscoveryExpand`. */
  method Expand(m: ExpandMessage, c: Collaborators,
                store: ReportStore, items: IS.ItemStore, queue: Queue, uuids: UuidSupplier)
    returns (outcome: Outcome, effects: seq<Effect>)
    modifies store, queue, uuids
    ensures Run(outcome, effects) ==
      ExpandRun(m, c, m.reportId.Some? && m.reportId.value in old(store.reports), items.items, old(uuids.issued))
    ensures m.reportId.Some? ==> store.reports == Replay(old(store.reports), m.reportId.value, effects, c.now)
    ensures m.reportId.None? ==> store.reports == old(store.reports)
    ensures queue.sent == old(queue.sent) + SentIn(effects)
    ensures uuids.issued == old(uuids.issued) + IdsDrawn(effects)
    ensures store.nextId == old(store.nextId) && store.reports.Keys == old(store.reports).Keys
    ensures old(store.Valid()) ==> store.Valid()
  {
    if m.reportId.None? {
      return Reply(NOT_FOUND, false), [];
    }
    var id := m.reportId.value;
    if !m.isNew && !Present(m.taskUuid) {
      return Reply(NOT_FOUND, false), [];
    }
    ghost var r0 := store.reports;
    ghost var q0 := queue.sent;
    var start := [];
    if m.isNew {
      var _ := store.Update(id, StatusPatch(Processing), c.now);
      SyncedStep(r0, q0, r0, q0, id, [], c.now, SetReport(StatusPatch(Processing)));
      start := [SetReport(StatusPatch(Processing))];
    }
    outcome, effects := Proceed(m, c, id, store, items, queue, uuids, start, id in r0, r0, q0);
    ReplayKeys(r0, id, effects, c.now);
  }
}
