/** What a run of the expand stage guarantees, stated on `ExpandRun`: the
    messages it sends, the keywords it writes, the status it leaves on the
    report, and what the failing runs leave out. */
module ExpandProperties {
  import opened Seqs
  import opened Keyword
  import opened Records
  import opened Generate
  import opened Url
  import opened DiscoveryStore
  import opened Queues
  import opened Expand

  // ---------------------------------------------------------------------
  // Reading the log

  /** An effect that leaves no trace a later stage could act on: no
      message, no task, no item, no report write other than `processing`. */
  predicate Quiet(e: Effect) {
    !e.Sent? && !e.SetTask? && !e.ItemWrite? && (e.SetReport? ==> e.patch == StatusPatch(Processing))
  }

  predicate AllQuiet(effs: seq<Effect>) {
    forall e :: e in effs ==> Quiet(e)
  }

  /** Only `queued` task registrations and messages. */
  predicate Registrations(effs: seq<Effect>) {
    forall e :: e in effs ==> (e.SetTask? && e.status == Queued) || e.Sent?
  }

  /** The keywords of the item writes, in order. */
  function WrittenKeywords(effs: seq<Effect>): seq<string> {
    if effs == [] then []
    else
      var last := effs[|effs| - 1];
      WrittenKeywords(effs[..|effs| - 1]) + (if last.ItemWrite? then [last.keyword] else [])
  }

  lemma {:induction false} SentInAppend(a: seq<Effect>, b: seq<Effect>)
    ensures SentIn(a + b) == SentIn(a) + SentIn(b)
    decreases |b|
  {
    if b == [] {
      assert a + b == a;
    } else {
      SentInAppend(a, b[..|b| - 1]);
      assert (a + b)[..|a + b| - 1] == a + b[..|b| - 1];
    }
  }

  /** Nothing is sent exactly when no effect is a message. */
  lemma {:induction false} SentInNone(effs: seq<Effect>)
    ensures SentIn(effs) == [] <==> forall e :: e in effs ==> !e.Sent?
    decreases |effs|
  {
    if effs != [] {
      var init := effs[..|effs| - 1];
      SentInNone(init);
      assert effs == init + [effs[|effs| - 1]];
    }
  }

  lemma {:induction false} WrittenAppend(a: seq<Effect>, b: seq<Effect>)
    ensures WrittenKeywords(a + b) == WrittenKeywords(a) + WrittenKeywords(b)
    decreases |b|
  {
    if b == [] {
      assert a + b == a;
    } else {
      WrittenAppend(a, b[..|b| - 1]);
      assert (a + b)[..|a + b| - 1] == a + b[..|b| - 1];
    }
  }

  lemma {:induction false} WrittenNone(effs: seq<Effect>)
    requires forall e :: e in effs ==> !e.ItemWrite?
    ensures WrittenKeywords(effs) == []
    decreases |effs|
  {
    if effs != [] {
      var init := effs[..|effs| - 1];
      assert forall e :: e in init ==> e in effs;
      WrittenNone(init);
    }
  }

  /** Writing the keywords writes exactly those keywords, in order. */
  lemma {:induction false} WrittenItems(kws: seq<string>, ng: Ngrams)
    ensures WrittenKeywords(Map(kws, ItemWriteOf(ng))) == kws
    decreases |kws|
  {
    if kws != [] {
      var init := kws[..|kws| - 1];
      WrittenItems(init, ng);
      assert kws == init + [kws[|kws| - 1]];
      MapSnoc(init, kws[|kws| - 1], ItemWriteOf(ng));
      WrittenAppend(Map(init, ItemWriteOf(ng)), [ItemWrite(kws[|kws| - 1], ng)]);
      assert [ItemWrite(kws[|kws| - 1], ng)][..0] == [];
    }
  }

  // ---------------------------------------------------------------------
  // Replaying the log on the report collection

  lemma {:induction false} ReplayAppend(reports: map<ReportId, Report>, id: ReportId, a: seq<Effect>, b: seq<Effect>, now: Timestamp)
    ensures Replay(reports, id, a + b, now) == Replay(Replay(reports, id, a, now), id, b, now)
    decreases |b|
  {
    if b == [] {
      assert a + b == a;
    } else {
      ReplayAppend(reports, id, a, b[..|b| - 1], now);
      assert (a + b)[..|a + b| - 1] == a + b[..|b| - 1];
    }
  }

  /** Two versions of one report that differ at most in the fields the
      store writes. */
  predicate SameIdentity(a: Report, b: Report) {
    a.(status := b.status, terms := b.terms, updatedAt := b.updatedAt, tasks := b.tasks) == b
  }

  /** No write to the report's own fields. */
  predicate NoReportWrites(effs: seq<Effect>) {
    forall e :: e in effs ==> !e.SetReport?
  }

  /** No write to the report's terms. */
  predicate NoTermsWrites(effs: seq<Effect>) {
    forall e :: e in effs ==> e.SetReport? ==> e.patch.terms.None?
  }

  /** The report stays, and only its status, terms, update time and tasks
      ever change; without report writes the first three do not, and without
      a terms write the terms do not. */
  lemma {:induction false} ReplayReport(reports: map<ReportId, Report>, id: ReportId, effs: seq<Effect>, now: Timestamp)
    requires id in reports
    ensures id in Replay(reports, id, effs, now)
    ensures var after := Replay(reports, id, effs, now)[id];
      && SameIdentity(after, reports[id])
      && (NoReportWrites(effs) ==>
            after.status == reports[id].status && after.terms == reports[id].terms && after.updatedAt == reports[id].updatedAt)
      && (NoTermsWrites(effs) ==> after.terms == reports[id].terms)
    decreases |effs|
  {
    if effs != [] {
      var init := effs[..|effs| - 1];
      assert forall e :: e in init ==> e in effs;
      ReplayReport(reports, id, init, now);
    }
  }

  // ---------------------------------------------------------------------
  // The follow-up stages

  lemma DispatchOntoAppend(m: ExpandMessage, id: ReportId, kws: seq<string>, issued: nat, effs: seq<Effect>)
    ensures DispatchOnto(m, id, kws, issued, effs) == effs + DispatchOnto(m, id, kws, issued, [])
  {
  }

  /** The follow-up log, written out: keyword data, verbs in the primary
      language only, then SERP similarity, each registered right before it
      is sent. */
  lemma StageSent(uuid: string, stage: Stage, e: Envelope)
    ensures SentIn(StageEffects(uuid, stage, e)) == [e]
  {
    var st := StageEffects(uuid, stage, e);
    assert st[..1] == [SetTask(Some(uuid), stage, Queued)];
    assert st[..1][..0] == [];
    assert SentIn(st[..1][..0]) == [];
    assert SentIn(st[..1]) == [];
  }

  lemma DispatchLog(m: ExpandMessage, id: ReportId, kws: seq<string>, issued: nat)
    ensures var k := UuidText(issued);
      var s := UuidText(if m.language == PRIMARY_LANGUAGE then issued + 2 else issued + 1);
      var e1 := KeywordsMessage(m, id, kws, k);
      var e3 := SerpsSimilarity(m.seed, id, s);
      var d := DispatchOnto(m, id, kws, issued, []);
      if m.language == PRIMARY_LANGUAGE then
        var v := UuidText(issued + 1);
        var e2 := Verbs(v, id);
        && d == [SetTask(Some(k), DiscoveryKeywords, Queued), Sent(e1), SetTask(Some(v), DiscoveryVerbs, Queued), Sent(e2),
                 SetTask(Some(s), DiscoverySerpsSimilarity, Queued), Sent(e3)]
        && SentIn(d) == [e1, e2, e3]
      else
        && d == [SetTask(Some(k), DiscoveryKeywords, Queued), Sent(e1), SetTask(Some(s), DiscoverySerpsSimilarity, Queued), Sent(e3)]
        && SentIn(d) == [e1, e3]
  {
    var en := m.language == PRIMARY_LANGUAGE;
    var k := UuidText(issued);
    var v := UuidText(issued + 1);
    var s := UuidText(if en then issued + 2 else issued + 1);
    var first := [] + StageEffects(k, DiscoveryKeywords, KeywordsMessage(m, id, kws, k));
    var mid := if en then first + StageEffects(v, DiscoveryVerbs, Verbs(v, id)) else first;
    var last := StageEffects(s, DiscoverySerpsSimilarity, SerpsSimilarity(m.seed, id, s));
    assert first == StageEffects(k, DiscoveryKeywords, KeywordsMessage(m, id, kws, k));
    StageSent(k, DiscoveryKeywords, KeywordsMessage(m, id, kws, k));
    StageSent(s, DiscoverySerpsSimilarity, SerpsSimilarity(m.seed, id, s));
    SentInAppend(mid, last);
    if en {
      StageSent(v, DiscoveryVerbs, Verbs(v, id));
      SentInAppend(first, StageEffects(v, DiscoveryVerbs, Verbs(v, id)));
    }
  }

  /** Only `queued` registrations and messages, and every message right
      after the registration of its own task for its own queue. */
  lemma DispatchRegisters(m: ExpandMessage, id: ReportId, kws: seq<string>, issued: nat)
    ensures var d := DispatchOnto(m, id, kws, issued, []);
      && Registrations(d)
      && (forall i :: 0 <= i < |d| && d[i].Sent? ==>
            && 0 < i && !d[i].envelope.Start?
            && d[i - 1] == SetTask(Some(d[i].envelope.taskUuid), QueueOf(d[i].envelope), Queued))
  {
    DispatchLog(m, id, kws, issued);
  }

  /** The messages: keyword data over the keywords, verbs in the primary
      language only, then SERP similarity; all for the report, each with a
      task id no other message and no earlier run shares. */
  lemma DispatchMessages(m: ExpandMessage, id: ReportId, kws: seq<string>, issued: nat)
    ensures var sent := SentIn(DispatchOnto(m, id, kws, issued, []));
      && Map(sent, QueueOf) ==
           [DiscoveryKeywords] + (if m.language == PRIMARY_LANGUAGE then [DiscoveryVerbs] else []) + [DiscoverySerpsSimilarity]
      && (forall e :: e in sent ==> !e.Start? && e.reportId == id)
      && sent[0].KeywordsData? && sent[0].keywords == kws && sent[0].seed == m.seed
      && sent[0].location == m.location && sent[0].language == m.language && sent[0].searchEngine == m.searchEngine
      && (forall i, j :: 0 <= i < j < |sent| ==> sent[i].taskUuid != sent[j].taskUuid)
      && (forall i, n: nat :: 0 <= i < |sent| && n < issued ==> sent[i].taskUuid != UuidText(n))
  {
    DispatchLog(m, id, kws, issued);
    var sent := SentIn(DispatchOnto(m, id, kws, issued, []));
    UuidTextInjective(issued, issued + 1);
    UuidTextInjective(issued, issued + 2);
    UuidTextInjective(issued + 1, issued + 2);
    forall i, n: nat | 0 <= i < |sent| && n < issued
      ensures sent[i].taskUuid != UuidText(n)
    {
      UuidTextInjective(issued, n);
      UuidTextInjective(issued + 1, n);
      UuidTextInjective(issued + 2, n);
    }
    var q := Map(sent, QueueOf);
    MapAt(sent, QueueOf, 0);
    MapAt(sent, QueueOf, 1);
    MapAt(sent, QueueOf, |sent| - 1);
  }

  lemma {:induction false} IdsDrawnAppend(a: seq<Effect>, b: seq<Effect>)
    ensures IdsDrawn(a + b) == IdsDrawn(a) + IdsDrawn(b)
    decreases |b|
  {
    if b == [] {
      assert a + b == a;
    } else {
      IdsDrawnAppend(a, b[..|b| - 1]);
      assert (a + b)[..|a + b| - 1] == a + b[..|b| - 1];
    }
  }

  lemma {:induction false} IdsDrawnNone(effs: seq<Effect>)
    requires forall e :: e in effs ==> !Registers(e)
    ensures IdsDrawn(effs) == 0
    decreases |effs|
  {
    if effs != [] {
      var init := effs[..|effs| - 1];
      assert forall e :: e in init ==> e in effs;
      IdsDrawnNone(init);
    }
  }

  lemma StageDrawn(uuid: string, stage: Stage, e: Envelope)
    ensures IdsDrawn(StageEffects(uuid, stage, e)) == (if stage != DiscoveryExpand then 1 else 0)
  {
    var st := StageEffects(uuid, stage, e);
    assert st[..1] == [SetTask(Some(uuid), stage, Queued)];
    assert st[..1][..0] == [];
    assert IdsDrawn(st[..1]) == (if stage != DiscoveryExpand then 1 else 0);
  }

  /** The `i`th follow-up message carries the `i`th id drawn. */
  lemma DispatchIds(m: ExpandMessage, id: ReportId, kws: seq<string>, issued: nat)
    ensures var sent := SentIn(DispatchOnto(m, id, kws, issued, []));
      forall i :: 0 <= i < |sent| ==> !sent[i].Start? && sent[i].taskUuid == UuidText(issued + i)
  {
    DispatchLog(m, id, kws, issued);
  }

  /** The follow-up stages draw one id per message they send. */
  lemma DispatchDrawn(m: ExpandMessage, id: ReportId, kws: seq<string>, issued: nat)
    ensures var d := DispatchOnto(m, id, kws, issued, []);
      IdsDrawn(d) == |SentIn(d)|
  {
    DispatchLog(m, id, kws, issued);
    var en := m.language == PRIMARY_LANGUAGE;
    var k := UuidText(issued);
    var v := UuidText(issued + 1);
    var s := UuidText(if en then issued + 2 else issued + 1);
    var first := [] + StageEffects(k, DiscoveryKeywords, KeywordsMessage(m, id, kws, k));
    var mid := if en then first + StageEffects(v, DiscoveryVerbs, Verbs(v, id)) else first;
    var last := StageEffects(s, DiscoverySerpsSimilarity, SerpsSimilarity(m.seed, id, s));
    assert first == StageEffects(k, DiscoveryKeywords, KeywordsMessage(m, id, kws, k));
    StageDrawn(k, DiscoveryKeywords, KeywordsMessage(m, id, kws, k));
    StageDrawn(s, DiscoverySerpsSimilarity, SerpsSimilarity(m.seed, id, s));
    IdsDrawnAppend(mid, last);
    if en {
      StageDrawn(v, DiscoveryVerbs, Verbs(v, id));
      IdsDrawnAppend(first, StageEffects(v, DiscoveryVerbs, Verbs(v, id)));
    }
  }

  // ---------------------------------------------------------------------
  // Gathering

  /** The suggestions a run goes on with: the strategy's for a seed, the
      ranked keywords for a URL, or the custom keywords. */
  function Suggestions(m: ExpandMessage, c: Collaborators): seq<string> {
    if UsesStrategy(m) && Present(m.seed) then Generated(m.seed.value, m.searchType, c.source, c.extract, c.extras)
    else if m.searchType == SearchUrl && Present(m.url) then
      var look := GetKeywordsForUrl(m.url.value, c.parse, c.credentials, c.ranked);
      if look.keywords.Some? then look.keywords.value else []
    else CustomKeywords(m)
  }

  /** Gathering extends the log with quiet effects only, or with the
      `error` mark when it fails; when it goes on, it goes on with
      `Suggestions`. */
  lemma GatherSpec(m: ExpandMessage, c: Collaborators, known: bool, start: seq<Effect>)
    ensures var st := GatherStep(m, c, known, start);
      && start <= StepEffects(st)
      && (st.Go? ==> st.suggestions == Suggestions(m, c) && forall e :: e in st.effects ==> e in start || Quiet(e))
      && (st.Stop? ==>
            && st.run.outcome != Reply(OK, true)
            && forall e :: e in st.run.effects ==> e in start || Quiet(e) || e == MarkEffect(m, Error))
  {
  }

  /** Gathering from the start of a run goes on only with quiet effects. */
  lemma GatherGoesQuietly(m: ExpandMessage, c: Collaborators, known: bool)
    requires GatherStep(m, c, known, StartEffects(m)).Go?
    ensures var st := GatherStep(m, c, known, StartEffects(m));
      && st.suggestions == Suggestions(m, c)
      && StartEffects(m) <= st.effects
      && AllQuiet(st.effects)
  {
    GatherSpec(m, c, known, StartEffects(m));
  }

  // ---------------------------------------------------------------------
  // Runs

  lemma WrapUpSucceeds(m: ExpandMessage, terms: Option<seq<string>>, id: ReportId, known: bool,
                       kws: seq<string>, issued: nat, effs: seq<Effect>)
    requires WrapUpRun(m, terms, id, known, kws, issued, effs).outcome == Reply(OK, true)
    ensures known
    ensures WrapUpRun(m, terms, id, known, kws, issued, effs).effects ==
      DoneEffects(m, terms, effs) + DispatchOnto(m, id, kws, issued, [])
  {
    DispatchOntoAppend(m, id, kws, issued, DoneEffects(m, terms, effs));
  }

  lemma FinishSucceeds(m: ExpandMessage, c: Collaborators, id: ReportId, known: bool,
                       kws: seq<string>, ng: Ngrams, issued: nat, effs: seq<Effect>)
    requires FinishRun(m, c, id, known, kws, ng, issued, effs).outcome == Reply(OK, true)
    ensures FinishRun(m, c, id, known, kws, ng, issued, effs) ==
      WrapUpRun(m, c.terms, id, known, kws, issued, effs + Map(kws, ItemWriteOf(ng)))
  {
  }

  /** A successful run's log: gathering, the item writes, the terms, the
      `completed` mark, the follow-up stages. */
  lemma SuccessLog(m: ExpandMessage, c: Collaborators, known: bool, items: seq<IS.Item>, issued: nat)
    requires ExpandRun(m, c, known, items, issued).outcome == Reply(OK, true)
    ensures m.reportId.Some? && known && !MissingKeywords(m)
    ensures var st := GatherStep(m, c, known, StartEffects(m));
      && st.Go?
      && var kws := KeywordsOf(st.suggestions);
         var ng := c.ngrams(AllKeywords(items, m.reportId.value, kws));
         && ng.Some?
         && ExpandRun(m, c, known, items, issued).effects ==
              DoneEffects(m, c.terms, st.effects + Map(kws, ItemWriteOf(ng.value))) + DispatchOnto(m, m.reportId.value, kws, issued, [])
  {
    var id := m.reportId.value;
    var st := GatherStep(m, c, known, StartEffects(m));
    GatherSpec(m, c, known, StartEffects(m));
    var kws := KeywordsOf(st.suggestions);
    var ng := c.ngrams(AllKeywords(items, id, kws)).value;
    FinishSucceeds(m, c, id, known, kws, ng, issued, st.effects);
    WrapUpSucceeds(m, c.terms, id, known, kws, issued, st.effects + Map(kws, ItemWriteOf(ng)));
  }

  lemma ItemWritesAre(kws: seq<string>, ng: Ngrams)
    ensures forall e :: e in Map(kws, ItemWriteOf(ng)) ==> e.ItemWrite?
  {
    forall e | e in Map(kws, ItemWriteOf(ng))
      ensures e.ItemWrite?
    {
      var i :| 0 <= i < |kws| && Map(kws, ItemWriteOf(ng))[i] == e;
      MapAt(kws, ItemWriteOf(ng), i);
    }
  }

  /** Around the item writes nothing else writes an item. */
  lemma WrittenBetween(pre: seq<Effect>, kws: seq<string>, ng: Ngrams, t: seq<Effect>, mark: Effect, tail: seq<Effect>)
    requires forall e :: e in pre ==> !e.ItemWrite?
    requires forall e :: e in t ==> !e.ItemWrite?
    requires !mark.ItemWrite?
    requires forall e :: e in tail ==> !e.ItemWrite?
    ensures WrittenKeywords(pre + Map(kws, ItemWriteOf(ng)) + t + [mark] + tail) == kws
  {
    WrittenNone(pre);
    WrittenNone(t);
    WrittenNone([mark]);
    WrittenNone(tail);
    WrittenItems(kws, ng);
    var writes := Map(kws, ItemWriteOf(ng));
    WrittenAppend(pre, writes);
    WrittenAppend(pre + writes, t);
    WrittenAppend(pre + writes + t, [mark]);
    WrittenAppend(pre + writes + t + [mark], tail);
  }

  lemma ItemWritesQuiet(kws: seq<string>, ng: Ngrams)
    ensures Unsent(Map(kws, ItemWriteOf(ng))) && NoReportWrites(Map(kws, ItemWriteOf(ng)))
  {
    ItemWritesAre(kws, ng);
  }

  /** The keywords written in a successful run's log. */
  lemma SuccessLogWritten(m: ExpandMessage, terms: Option<seq<string>>, pre: seq<Effect>, kws: seq<string>, ng: Ngrams, tail: seq<Effect>)
    requires AllQuiet(pre) && Registrations(tail)
    ensures WrittenKeywords(DoneEffects(m, terms, pre + Map(kws, ItemWriteOf(ng))) + tail) == kws
  {
    var t := if terms.Some? then [SetReport(TermsPatch(terms.value))] else [];
    WrittenBetween(pre, kws, ng, t, MarkEffect(m, Completed), tail);
  }

  /** The messages in a successful run's log are those of its tail. */
  lemma SuccessLogSent(m: ExpandMessage, terms: Option<seq<string>>, pre: seq<Effect>, kws: seq<string>, ng: Ngrams, tail: seq<Effect>)
    requires AllQuiet(pre)
    ensures SentIn(DoneEffects(m, terms, pre + Map(kws, ItemWriteOf(ng))) + tail) == SentIn(tail)
  {
    var done := DoneEffects(m, terms, pre + Map(kws, ItemWriteOf(ng)));
    ItemWritesQuiet(kws, ng);
    assert Unsent(pre);
    assert Unsent(done);
    SentInNone(done);
    SentInAppend(done, tail);
  }

  /** A successful run's log holds `completed` and never `error`. */
  lemma SuccessLogMarks(m: ExpandMessage, terms: Option<seq<string>>, pre: seq<Effect>, kws: seq<string>, ng: Ngrams, tail: seq<Effect>)
    requires AllQuiet(pre) && Registrations(tail)
    ensures var log := DoneEffects(m, terms, pre + Map(kws, ItemWriteOf(ng))) + tail;
      && MarkEffect(m, Completed) in log
      && MarkEffect(m, Error) !in log
  {
    var writes := Map(kws, ItemWriteOf(ng));
    var t := if terms.Some? then [SetReport(TermsPatch(terms.value))] else [];
    var log := DoneEffects(m, terms, pre + writes) + tail;
    assert log == pre + writes + t + [MarkEffect(m, Completed)] + tail;
    var bad := MarkEffect(m, Error);
    assert !Quiet(bad) && bad !in pre;
    ItemWritesAre(kws, ng);
    assert bad !in writes;
    assert bad !in t && bad != MarkEffect(m, Completed);
    assert bad !in tail;
  }

  /** A successful run: the report exists and the custom search had
      keywords; the items written are exactly the cleaned, deduplicated
      suggestions, in order; the messages sent are exactly the follow-up
      stages, over those same keywords; the run was marked `completed` and
      never `error`. */
  lemma ExpandSucceeds(m: ExpandMessage, c: Collaborators, known: bool, items: seq<IS.Item>, issued: nat)
    requires ExpandRun(m, c, known, items, issued).outcome == Reply(OK, true)
    ensures m.reportId.Some? && known && !MissingKeywords(m)
    ensures var r := ExpandRun(m, c, known, items, issued);
      var kws := KeywordsOf(Suggestions(m, c));
      && WrittenKeywords(r.effects) == kws
      && SentIn(r.effects) == SentIn(DispatchOnto(m, m.reportId.value, kws, issued, []))
      && MarkEffect(m, Completed) in r.effects
      && MarkEffect(m, Error) !in r.effects
      && StartEffects(m) <= r.effects
  {
    SuccessLog(m, c, known, items, issued);
    var id := m.reportId.value;
    var st := GatherStep(m, c, known, StartEffects(m));
    GatherGoesQuietly(m, c, known);
    var kws := KeywordsOf(st.suggestions);
    var ng := c.ngrams(AllKeywords(items, id, kws)).value;
    var tail := DispatchOnto(m, id, kws, issued, []);
    DispatchRegisters(m, id, kws, issued);
    SuccessLogWritten(m, c.terms, st.effects, kws, ng, tail);
    SuccessLogSent(m, c.terms, st.effects, kws, ng, tail);
    SuccessLogMarks(m, c.terms, st.effects, kws, ng, tail);
  }

  /** A successful run draws exactly one id per message it sends, and its
      `i`th message carries the `i`th id drawn. As `Expand.Expand` advances
      the supplier by the ids drawn, the next run starts past every id this
      one used. */
  lemma ExpandDrawsOnePerMessage(m: ExpandMessage, c: Collaborators, known: bool, items: seq<IS.Item>, issued: nat)
    requires ExpandRun(m, c, known, items, issued).outcome == Reply(OK, true)
    ensures var r := ExpandRun(m, c, known, items, issued);
      && IdsDrawn(r.effects) == |SentIn(r.effects)|
      && forall i :: 0 <= i < |SentIn(r.effects)| ==>
           !SentIn(r.effects)[i].Start? && SentIn(r.effects)[i].taskUuid == UuidText(issued + i)
  {
    SuccessLog(m, c, known, items, issued);
    var st := GatherStep(m, c, known, StartEffects(m));
    var kws := KeywordsOf(st.suggestions);
    var ng := c.ngrams(AllKeywords(items, m.reportId.value, kws)).value;
    var tail := DispatchOnto(m, m.reportId.value, kws, issued, []);
    QuietLogDrawsNothing(m, c, known, kws, ng);
    IdsDrawnAppend(DoneEffects(m, c.terms, st.effects + Map(kws, ItemWriteOf(ng))), tail);
    DispatchDrawn(m, m.reportId.value, kws, issued);
    DispatchIds(m, m.reportId.value, kws, issued);
    GatherGoesQuietly(m, c, known);
    SuccessLogSent(m, c.terms, st.effects, kws, ng, tail);
  }

  /** Before the follow-up stages, a successful run draws no id. */
  lemma QuietLogDrawsNothing(m: ExpandMessage, c: Collaborators, known: bool, kws: seq<string>, ng: Ngrams)
    requires GatherStep(m, c, known, StartEffects(m)).Go?
    ensures IdsDrawn(DoneEffects(m, c.terms, GatherStep(m, c, known, StartEffects(m)).effects + Map(kws, ItemWriteOf(ng)))) == 0
  {
    GatherGoesQuietly(m, c, known);
    ItemWritesAre(kws, ng);
    var done := DoneEffects(m, c.terms, GatherStep(m, c, known, StartEffects(m)).effects + Map(kws, ItemWriteOf(ng)));
    assert forall e :: e in done ==> !Registers(e);
    IdsDrawnNone(done);
  }

  // ---------------------------------------------------------------------
  // Runs that fail

  predicate Unsent(effs: seq<Effect>) {
    forall e :: e in effs ==> !e.Sent?
  }

  /** After the n-grams, a run that does not succeed sends nothing. */
  lemma FinishFailsUnsent(m: ExpandMessage, c: Collaborators, id: ReportId, known: bool,
                          kws: seq<string>, ng: Ngrams, issued: nat, effs: seq<Effect>)
    requires Unsent(effs)
    requires FinishRun(m, c, id, known, kws, ng, issued, effs).outcome != Reply(OK, true)
    ensures Unsent(FinishRun(m, c, id, known, kws, ng, issued, effs).effects)
  {
    var i := FindIndex(kws, c.itemWriteFails);
    ItemWritesQuiet(if i >= 0 then kws[..i + 1] else kws, ng);
  }

  /** After gathering, a run that does not succeed sends nothing. */
  lemma CompleteFailsUnsent(m: ExpandMessage, c: Collaborators, id: ReportId, known: bool, items: seq<IS.Item>, issued: nat,
                            effs: seq<Effect>, newSuggestions: seq<string>)
    requires Unsent(effs)
    requires CompleteRun(m, c, id, known, items, issued, effs, newSuggestions).outcome != Reply(OK, true)
    ensures Unsent(CompleteRun(m, c, id, known, items, issued, effs, newSuggestions).effects)
  {
    var kws := KeywordsOf(newSuggestions);
    var ng := c.ngrams(AllKeywords(items, id, kws));
    if ng.Some? {
      FinishFailsUnsent(m, c, id, known, kws, ng.value, issued, effs);
    }
  }

  /** A run that does not succeed sends nothing: messages go out only on
      success. */
  lemma ExpandFailsWithoutSending(m: ExpandMessage, c: Collaborators, known: bool, items: seq<IS.Item>, issued: nat)
    requires ExpandRun(m, c, known, items, issued).outcome != Reply(OK, true)
    ensures SentIn(ExpandRun(m, c, known, items, issued).effects) == []
  {
    var r := ExpandRun(m, c, known, items, issued);
    if m.reportId.Some? && (m.isNew || Present(m.taskUuid)) && !MissingKeywords(m) {
      var start := StartEffects(m);
      var st := GatherStep(m, c, known, start);
      GatherSpec(m, c, known, start);
      if st.Go? {
        GatherGoesQuietly(m, c, known);
        CompleteFailsUnsent(m, c, m.reportId.value, known, items, issued, st.effects, st.suggestions);
      }
    }
    SentInNone(r.effects);
  }

  /** A question or wildcard search without a seed, or a URL search
      without a URL or without keywords for it, fails with no status
      written beyond `processing`, no task, no item and no message: a first
      run leaves its report `processing`. */
  lemma ExpandStopsQuietly(m: ExpandMessage, c: Collaborators, known: bool, items: seq<IS.Item>, issued: nat)
    requires m.reportId.Some? && (m.isNew || Present(m.taskUuid))
    requires || (UsesStrategy(m) && !Present(m.seed))
             || (m.searchType == SearchUrl && !Present(m.url))
             || (m.searchType == SearchUrl && Present(m.url) &&
                 GetKeywordsForUrl(m.url.value, c.parse, c.credentials, c.ranked).keywords.None?)
    ensures var r := ExpandRun(m, c, known, items, issued);
      && r.outcome == Reply(OK, false)
      && StartEffects(m) <= r.effects
      && AllQuiet(r.effects)
  {
    GatherSpec(m, c, known, StartEffects(m));
  }

  /** A custom search without keywords, or a strategy that throws, records
      `error` as the run's last effect, writes no item and sends nothing;
      the reply is 404 or 200 respectively, unless the task write throws. */
  lemma ExpandRecordsError(m: ExpandMessage, c: Collaborators, known: bool, items: seq<IS.Item>, issued: nat)
    requires m.reportId.Some? && (m.isNew || Present(m.taskUuid))
    requires MissingKeywords(m) || (UsesStrategy(m) && Present(m.seed) && c.strategyThrows)
    ensures var r := ExpandRun(m, c, known, items, issued);
      && r.effects == StartEffects(m) + [MarkEffect(m, Error)]
      && r.outcome == (if MarkThrows(m, known) then Thrown else Reply(if MissingKeywords(m) then NOT_FOUND else OK, false))
      && SentIn(r.effects) == []
  {
    var r := ExpandRun(m, c, known, items, issued);
    SentInNone(r.effects);
  }

  /** When the n-grams of the report's keywords cannot be computed, the run
      records `error` right after gathering and ends with failure (or
      throws, on an unknown report's task): no keyword item is written and
      no message is sent. */
  lemma ExpandRecordsNgramsError(m: ExpandMessage, c: Collaborators, known: bool, items: seq<IS.Item>, issued: nat)
    requires m.reportId.Some? && (m.isNew || Present(m.taskUuid)) && !MissingKeywords(m)
    requires GatherStep(m, c, known, StartEffects(m)).Go?
    requires var st := GatherStep(m, c, known, StartEffects(m));
      c.ngrams(AllKeywords(items, m.reportId.value, KeywordsOf(st.suggestions))).None?
    ensures var r := ExpandRun(m, c, known, items, issued);
      var st := GatherStep(m, c, known, StartEffects(m));
      && r.effects == st.effects + [MarkEffect(m, Error)]
      && r.outcome == (if MarkThrows(m, known) then Thrown else Reply(OK, false))
      && WrittenKeywords(r.effects) == []
      && SentIn(r.effects) == []
  {
    var r := ExpandRun(m, c, known, items, issued);
    GatherGoesQuietly(m, c, known);
    assert AllQuiet(r.effects[..|r.effects| - 1]);
    WrittenNone(r.effects);
    SentInNone(r.effects);
  }

  /** How the wrap-up ends depends neither on the terms nor on the log so
      far. */
  lemma WrapUpOutcome(m: ExpandMessage, t1: Option<seq<string>>, t2: Option<seq<string>>, id: ReportId, known: bool,
                      kws: seq<string>, issued: nat, effs1: seq<Effect>, effs2: seq<Effect>)
    ensures WrapUpRun(m, t1, id, known, kws, issued, effs1).outcome == WrapUpRun(m, t2, id, known, kws, issued, effs2).outcome
  {
  }

  lemma CompleteTermsOutcome(m: ExpandMessage, c: Collaborators, id: ReportId, known: bool, items: seq<IS.Item>, issued: nat,
                             effs: seq<Effect>, newSuggestions: seq<string>)
    ensures CompleteRun(m, c.(terms := None), id, known, items, issued, effs, newSuggestions).outcome
         == CompleteRun(m, c, id, known, items, issued, effs, newSuggestions).outcome
  {
    var kws := KeywordsOf(newSuggestions);
    var ng := c.ngrams(AllKeywords(items, id, kws));
    if ng.Some? {
      var writes := ItemWrites(kws, ng.value, c.itemWriteFails);
      WrapUpOutcome(m, None, c.terms, id, known, kws, issued, effs + writes, effs + writes);
    }
  }

  /** Failing to compute the terms does not fail the run: it ends as it
      would have with the terms. */
  lemma TermsFailureStillCompletes(m: ExpandMessage, c: Collaborators, known: bool, items: seq<IS.Item>, issued: nat)
    ensures ExpandRun(m, c.(terms := None), known, items, issued).outcome == ExpandRun(m, c, known, items, issued).outcome
  {
    var c' := c.(terms := None);
    if m.reportId.Some? && (m.isNew || Present(m.taskUuid)) && !MissingKeywords(m) {
      var start := StartEffects(m);
      var st := GatherStep(m, c, known, start);
      assert GatherStep(m, c', known, start) == st;
      if st.Go? {
        CompleteTermsOutcome(m, c, m.reportId.value, known, items, issued, st.effects, st.suggestions);
      }
    }
  }

  // ---------------------------------------------------------------------
  // The report after a run

  /** The report after a successful first run's log, whatever its pieces. */
  lemma CompletedLogReport(m: ExpandMessage, terms: Option<seq<string>>, reports: map<ReportId, Report>, id: ReportId,
                           pre: seq<Effect>, writes: seq<Effect>, tail: seq<Effect>, now: Timestamp)
    requires m.isNew && id in reports
    requires AllQuiet(pre) && NoReportWrites(writes) && Registrations(tail)
    ensures var after := Replay(reports, id, DoneEffects(m, terms, pre + writes) + tail, now);
      && id in after
      && after[id].status == Completed
      && after[id].updatedAt == Some(now)
      && after[id].terms == (if terms.Some? then terms else reports[id].terms)
      && SameIdentity(after[id], reports[id])
  {
    var t := if terms.Some? then [SetReport(TermsPatch(terms.value))] else [];
    var done := DoneEffects(m, terms, pre + writes);
    assert NoTermsWrites(pre + writes);
    ReplayReport(reports, id, pre + writes, now);
    ReplayAppend(reports, id, pre + writes, t, now);
    assert done[..|done| - 1] == pre + writes + t;
    ReplayReport(reports, id, pre + writes + t, now);
    var mid := Replay(reports, id, done, now);
    assert NoReportWrites(tail);
    ReplayReport(mid, id, tail, now);
    ReplayAppend(reports, id, done, tail, now);
  }

  /** After a successful first run the report is `completed`, carries the
      computed terms (or keeps its old ones when they could not be
      computed), was updated at the run's time, and is otherwise the same
      report. */
  lemma ExpandCompletesReport(m: ExpandMessage, c: Collaborators, reports: map<ReportId, Report>, items: seq<IS.Item>, issued: nat)
    requires m.isNew && m.reportId.Some? && m.reportId.value in reports
    requires ExpandRun(m, c, true, items, issued).outcome == Reply(OK, true)
    ensures var id := m.reportId.value;
      var after := Replay(reports, id, ExpandRun(m, c, true, items, issued).effects, c.now);
      && id in after
      && after[id].status == Completed
      && after[id].updatedAt == Some(c.now)
      && after[id].terms == (if c.terms.Some? then c.terms else reports[id].terms)
      && SameIdentity(after[id], reports[id])
  {
    SuccessLog(m, c, true, items, issued);
    var id := m.reportId.value;
    var st := GatherStep(m, c, true, StartEffects(m));
    GatherGoesQuietly(m, c, true);
    var kws := KeywordsOf(st.suggestions);
    var ng := c.ngrams(AllKeywords(items, id, kws)).value;
    DispatchRegisters(m, id, kws, issued);
    ItemWritesQuiet(kws, ng);
    CompletedLogReport(m, c.terms, reports, id, st.effects, Map(kws, ItemWriteOf(ng)), DispatchOnto(m, id, kws, issued, []), c.now);
  }

  // ---------------------------------------------------------------------
  // The keywords

  /** The keywords of a run: no duplicates, each the cleaned form of some
      suggestion and every suggestion's cleaned form among them. */
  lemma KeywordsOfSpec(s: seq<string>)
    ensures NoDup(KeywordsOf(s))
    ensures forall kw :: kw in KeywordsOf(s) <==> exists i :: 0 <= i < |s| && kw == Cleaned(s[i])
  {
    MapMember(s, CleanSuggestion());
  }

  /** Each keyword of a run is lower case, in the keyword character class,
      with no two white-space characters in a row. */
  lemma KeywordsAreClean(s: seq<string>)
    ensures forall kw :: kw in KeywordsOf(s) ==> NoDoubleSpace(kw) && forall ch :: ch in kw ==> CleanChar(ch, false)
  {
    KeywordsOfSpec(s);
    forall kw | kw in KeywordsOf(s)
      ensures NoDoubleSpace(kw) && forall ch :: ch in kw ==> CleanChar(ch, false)
    {
      var i :| 0 <= i < |s| && kw == Cleaned(s[i]);
      CleanKeywordCharacters(UpdateKeywordYear(s[i]), false, false);
      CleanKeywordSingleSpaces(UpdateKeywordYear(s[i]), false);
    }
  }
}
