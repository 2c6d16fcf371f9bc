/** The records of the discovery pipeline: reports, their tasks, and the
    messages that pass between its stages. */
module Records {
  import opened Seqs

  /** A report's id. The store hands out MongoDB `ObjectId`s; here it hands
      out numbers that it has not used before. */
  type ReportId = nat

  /** A moment as the clock reports it (`new Date()`). */
  type Timestamp = int

  /** `IDiscoverySearchType`. */
  datatype SearchType = SearchCustom | SearchQuestions | SearchWildcard | SearchUrl

  /** `IReportStatus`, for reports and for their tasks alike. */
  datatype Status = Queued | Processing | Completed | Error

  /** The pipeline stages (`IQueueType`): each names a queue and the kind of
      task registered for it. */
  datatype Stage = DiscoveryStart | DiscoveryExpand | DiscoveryKeywords | DiscoveryVerbs | DiscoverySerpsSimilarity

  /** `IReportTask`: one run of one stage for a report. */
  datatype Task = Task(status: Status, uuid: string, stage: Stage, startDate: Timestamp)

  /** `IDiscovery`, without its `_id` (the store's key). */
  datatype Report = Report(
    name: string,
    seed: Option<string>,
    searchType: SearchType,
    language: string,
    location: string,
    searchEngine: string,
    status: Status,
    tasks: seq<Task>,
    terms: Option<seq<string>>,
    updatedAt: Option<Timestamp>,
    year: string,
    month: string,
    day: string,
    date: string)

  /** A JavaScript value that is truthy: present and not the empty string. */
  predicate Present(s: Option<string>) {
    s.Some? && s.value != ""
  }

  /** `IDiscoveryExpandMessage`: the request that starts the expand stage.
      An absent or empty `reportId` is `None`. */
  datatype ExpandMessage = ExpandMessage(
    reportId: Option<ReportId>,
    seed: Option<string>,
    isNew: bool,
    searchType: SearchType,
    keywords: Option<seq<string>>,
    url: Option<string>,
    language: string,
    location: string,
    searchEngine: string,
    taskUuid: Option<string>)

  /** A message put on a queue. */
  datatype Envelope =
    | Start(message: ExpandMessage)
    | KeywordsData(seed: Option<string>, reportId: ReportId, keywords: seq<string>, taskUuid: string,
                   location: string, language: string, searchEngine: string)
    | Verbs(taskUuid: string, reportId: ReportId)
    | SerpsSimilarity(seed: Option<string>, reportId: ReportId, taskUuid: string)

  /** The queue a message is sent to. */
  function QueueOf(e: Envelope): Stage {
    match e
    case Start(_) => DiscoveryStart
    case KeywordsData(_, _, _, _, _, _, _) => DiscoveryKeywords
    case Verbs(_, _) => DiscoveryVerbs
    case SerpsSimilarity(_, _, _) => DiscoverySerpsSimilarity
  }
}
