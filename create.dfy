/** Creating a discovery report (app/src/api/discovery/apiCreateDiscovery.ts):
    validate the request, store a `queued` report with no tasks and the
    current date parts, and send the message that starts its first expand
    run. */
module CreateDiscovery {
  import opened Seqs
  import opened Records
  import opened Ymd
  import opened DiscoveryStore
  import opened Queues
  import opened Expand

  /** The request fields the core uses. */
  datatype CreateInput = CreateInput(
    name: string,
    seed: Option<string>,
    location: string,
    language: string,
    keywords: Option<seq<string>>,
    searchType: SearchType,
    searchEngine: string,
    url: Option<string>)

  /** `{ success, id }`: `id` is absent unless the report was stored. */
  datatype CreateResult = CreateResult(success: bool, id: Option<ReportId>)

  /** The four clock readings, in the order the report literal takes them:
      `getCurrentDay`, `getCurrentDate`, `getCurrentYear`,
      `getCurrentMonth` each read the clock anew. */
  datatype Readings = Readings(forDay: DateTime, forDate: DateTime, forYear: DateTime, forMonth: DateTime)

  /** A custom search must come with a non-empty keyword list. */
  predicate InvalidKeywords(input: CreateInput) {
    input.searchType == SearchCustom && (input.keywords.None? || |input.keywords.value| == 0)
  }

  /** The report as stored: the request's fields, `queued`, no tasks, and
      the date parts of the readings. */
  function NewReport(input: CreateInput, clock: Readings): Report {
    Report(input.name, input.seed, input.searchType, input.language, input.location, input.searchEngine,
           Queued, [], None, None,
           GetYear(clock.forYear), GetMonth(clock.forMonth), GetDay(clock.forDay), GetDate(clock.forDate))
  }

  /** The message that starts the report's first expand run. */
  function StartMessage(input: CreateInput, id: ReportId): ExpandMessage {
    ExpandMessage(Some(id), input.seed, true, input.searchType, input.keywords, input.url,
                  input.language, input.location, input.searchEngine, None)
  }

  /** A create request, as a value: the reply, the report stored (if any)
      and the messages sent, for the id the store would hand out.
      `insertFails` says that `dbCreateDiscovery` throws; the handler
      swallows the error and replies with failure. */
  datatype Creation = Creation(result: CreateResult, stored: Option<Report>, sent: seq<Envelope>)

  function Created(input: CreateInput, clock: Readings, insertFails: bool, id: ReportId): (r: Creation)
    ensures r.result.success <==> !InvalidKeywords(input) && !insertFails
    ensures r.result.success <==> r.stored.Some?
    ensures r.result.success ==> r.result.id == Some(id) && r.sent == [Start(StartMessage(input, id))]
    ensures !r.result.success ==> r.result.id.None? && r.sent == []
  {
    if InvalidKeywords(input) || insertFails then Creation(CreateResult(false, None), None, [])
    else Creation(CreateResult(true, Some(id)), Some(NewReport(input, clock)), [Start(StartMessage(input, id))])
  }

  /** `apiCreateDiscovery`. */
  method Create(input: CreateInput, clock: Readings, insertFails: bool, store: ReportStore, queue: Queue)
    returns (result: CreateResult)
    requires store.Valid()
    modifies store, queue
    ensures store.Valid()
    ensures result.id.Some? ==> result.id.value !in old(store.reports)
    ensures var id := if result.id.Some? then result.id.value else 0;
      var c := Created(input, clock, insertFails, id);
      && result == c.result
      && queue.sent == old(queue.sent) + c.sent
      && store.reports == (if c.stored.Some? then old(store.reports)[id := c.stored.value] else old(store.reports))
  {
    var report := NewReport(input, clock);
    if InvalidKeywords(input) {
      return CreateResult(false, None);
    }
    var id: Option<ReportId> := None;
    if !insertFails {
      var created := store.Create(report);
      id := Some(created);
    }
    if id.Some? {
      queue.Send(Start(StartMessage(input, id.value)));
    }
    result := CreateResult(id.Some?, id);
  }

  /** When the four readings fall on one calendar day, the stored date is
      the stored year, month and day joined by `-`. */
  lemma NewReportDateConsistent(input: CreateInput, clock: Readings)
    requires clock.forDate.year == clock.forYear.year
    requires clock.forDate.month0 == clock.forMonth.month0
    requires clock.forDate.day == clock.forDay.day
    ensures var r := NewReport(input, clock);
      r.date == r.year + "-" + r.month + "-" + r.day
  {
  }

  /** The stored report starts the pipeline: `queued`, no tasks, no terms,
      and the fields the expand run reads are the ones its start message
      carries. */
  lemma CreatedReportMatchesMessage(input: CreateInput, clock: Readings, insertFails: bool, id: ReportId)
    requires Created(input, clock, insertFails, id).result.success
    ensures var c := Created(input, clock, insertFails, id);
      var r := c.stored.value;
      var msg := c.sent[0].message;
      && r.status == Queued && r.tasks == [] && r.terms.None?
      && msg.reportId == Some(id) && msg.isNew && msg.taskUuid.None?
      && msg.seed == r.seed && msg.searchType == r.searchType
      && msg.language == r.language && msg.location == r.location && msg.searchEngine == r.searchEngine
  {
  }

  /** The request validation and the expand stage's agree: the message a
      successful create sends never meets the expand stage's 404 reply,
      and a custom search it starts goes on with the request's keywords. */
  lemma CreatedMessagePassesValidation(input: CreateInput, clock: Readings, insertFails: bool, id: ReportId,
                                       c: Collaborators, known: bool, items: seq<IS.Item>, issued: nat)
    requires Created(input, clock, insertFails, id).result.success
    ensures var msg := StartMessage(input, id);
      && !MissingKeywords(msg)
      && ExpandRun(msg, c, known, items, issued).outcome != Reply(NOT_FOUND, false)
      && (input.searchType == SearchCustom ==> CustomKeywords(msg) == input.keywords.value)
  {
    var msg := StartMessage(input, id);
    assert !MissingKeywords(msg);
    var st := GatherStep(msg, c, known, StartEffects(msg));
    if st.Go? {
      CompleteNeverNotFound(msg, c, id, known, items, issued, st.effects, st.suggestions);
    }
  }

  /** Past validation, no path replies 404. */
  lemma CompleteNeverNotFound(m: ExpandMessage, c: Collaborators, id: ReportId, known: bool, items: seq<IS.Item>, issued: nat,
                              effs: seq<Effect>, newSuggestions: seq<string>)
    ensures CompleteRun(m, c, id, known, items, issued, effs, newSuggestions).outcome != Reply(NOT_FOUND, false)
  {
  }
}
