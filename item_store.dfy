/** The keyword-item collection (app/src/db/discovery-item.ts) as an
    in-memory list of items, in insertion order. */
module ItemStore {
  import opened Seqs
  import opened Records

  /** `IDiscoveryItem`: one keyword of one report, with the named fields the
      later stages fill in. */
  datatype Item = Item(report: ReportId, keyword: string, fields: map<string, string>)

  /** The filter `{ report, keyword }`. */
  function ItemIs(report: ReportId, keyword: string): Item -> bool {
    (it: Item) => it.report == report && it.keyword == keyword
  }

  /** The filter `{ report }`, narrowed by `keyword: { $in: keywords }` when
      the list is present and not empty. */
  predicate Selected(it: Item, report: ReportId, keywords: Option<seq<string>>) {
    && it.report == report
    && (keywords.None? || |keywords.value| == 0 || it.keyword in keywords.value)
  }

  function SelectedBy(report: ReportId, keywords: Option<seq<string>>): Item -> bool {
    (it: Item) => Selected(it, report, keywords)
  }

  /** What `dbGetDiscoveryItemsForReport` finds, in collection order. */
  function SelectItems(items: seq<Item>, report: ReportId, keywords: Option<seq<string>>): seq<Item> {
    Filter(items, SelectedBy(report, keywords))
  }

  /** Only items of the report are returned, and all of them when the
      keyword list is absent or empty; a non-empty list keeps exactly the
      listed keywords. */
  lemma SelectItemsSpec(items: seq<Item>, report: ReportId, keywords: Option<seq<string>>)
    ensures var r := SelectItems(items, report, keywords);
      && |r| <= |items|
      && (forall it :: it in r ==> it in items && it.report == report)
      && ((keywords.None? || keywords.value == []) ==> forall it :: it in items && it.report == report ==> it in r)
      && (keywords.Some? && keywords.value != [] ==>
            forall it :: it in r <==> it in items && it.report == report && it.keyword in keywords.value)
  {
    FilterMember(items, SelectedBy(report, keywords));
  }

  /** The list after `updateOne({ report, keyword }, { $set: patch })`: the
      first matching item gets the patch merged into its fields. */
  function UpdateFirst(items: seq<Item>, report: ReportId, keyword: string, patch: map<string, string>): seq<Item> {
    var i := FindIndex(items, ItemIs(report, keyword));
    if i < 0 then items else items[i := items[i].(fields := items[i].fields + patch)]
  }

  /** No item's report or keyword ever changes; an item that changes is the
      first match and gets exactly the patched fields; with no match nothing
      changes. */
  lemma UpdateFirstSpec(items: seq<Item>, report: ReportId, keyword: string, patch: map<string, string>)
    ensures var r := UpdateFirst(items, report, keyword, patch);
      && |r| == |items|
      && (forall j :: 0 <= j < |items| ==> r[j].report == items[j].report && r[j].keyword == items[j].keyword)
      && (forall j :: 0 <= j < |items| && r[j] != items[j] ==>
            && items[j].report == report && items[j].keyword == keyword
            && r[j].fields == items[j].fields + patch
            && (forall k :: 0 <= k < j ==> r[k] == items[k]))
      && ((forall j :: 0 <= j < |items| ==> !(items[j].report == report && items[j].keyword == keyword)) ==> r == items)
  {
    var p := ItemIs(report, keyword);
    FindIndexSpec(items, p);
    var i := FindIndex(items, p);
    if i >= 0 {
      assert p(items[i]);
    }
  }

  function OfOtherReport(report: ReportId): Item -> bool {
    (it: Item) => it.report != report
  }

  /** The list after `deleteMany({ report })`. */
  function WithoutReport(items: seq<Item>, report: ReportId): seq<Item> {
    Filter(items, OfOtherReport(report))
  }

  /** Every item of the report goes, every other item stays, and the list
      shrinks exactly when the report had an item. */
  lemma WithoutReportSpec(items: seq<Item>, report: ReportId)
    ensures var r := WithoutReport(items, report);
      && (forall it :: it in r <==> it in items && it.report != report)
      && (|r| < |items| <==> exists j :: 0 <= j < |items| && items[j].report == report)
  {
    FilterMember(items, OfOtherReport(report));
    FilterKeepsAll(items, OfOtherReport(report));
  }

  function NotListedFor(report: ReportId, keywords: seq<string>): Item -> bool {
    (it: Item) => !(it.report == report && it.keyword in keywords)
  }

  /** The list after `deleteMany({ report, keyword: { $in: keywords } })`. */
  function WithoutKeywords(items: seq<Item>, report: ReportId, keywords: seq<string>): seq<Item> {
    Filter(items, NotListedFor(report, keywords))
  }

  /** Only the report's items with a listed keyword go; the list shrinks
      exactly when there was one. */
  lemma WithoutKeywordsSpec(items: seq<Item>, report: ReportId, keywords: seq<string>)
    ensures var r := WithoutKeywords(items, report, keywords);
      && (forall it :: it in r <==> it in items && !(it.report == report && it.keyword in keywords))
      && (|r| < |items| <==> exists j :: 0 <= j < |items| && items[j].report == report && items[j].keyword in keywords)
  {
    FilterMember(items, NotListedFor(report, keywords));
    FilterKeepsAll(items, NotListedFor(report, keywords));
  }

  class ItemStore {
    var items: seq<Item>

    constructor()
      ensures items == []
    {
      items := [];
    }

    /** `dbGetDiscoveryItem`: nothing without a keyword; otherwise the first
        item of that report and keyword, if there is one. */
    function GetItem(report: ReportId, keyword: string): (r: Option<Item>)
      reads this
      ensures keyword == "" ==> r.None?
      ensures r.Some? ==> r.value in items && r.value.report == report && r.value.keyword == keyword
      ensures r.None? && keyword != "" ==>
        forall j :: 0 <= j < |items| ==> !(items[j].report == report && items[j].keyword == keyword)
    {
      if keyword == "" then None
      else
        var p := ItemIs(report, keyword);
        FindIndexSpec(items, p);
        var i := FindIndex(items, p);
        if i < 0 then None else Some(items[i])
    }

    /** `dbGetDiscoveryItemsForReport`. */
    function ItemsForReport(report: ReportId, keywords: Option<seq<string>>): seq<Item>
      reads this
    {
      SelectItems(items, report, keywords)
    }

    /** `dbCreateDiscoveryItem`: appended, with no check for an item of the
        same report and keyword. */
    method Create(item: Item)
      modifies this
      ensures items == old(items) + [item]
    {
      items := items + [item];
    }

    /** `dbUpdateDiscoveryItem`: true when the document changed. */
    method Update(report: ReportId, keyword: string, patch: map<string, string>) returns (modified: bool)
      modifies this
      ensures items == UpdateFirst(old(items), report, keyword, patch)
      ensures modified == (items != old(items))
    {
      var before := items;
      items := UpdateFirst(items, report, keyword, patch);
      modified := items != before;
    }

    /** `dbDeleteDiscoveryAllItemsForReport`: true when something was
        removed. */
    method DeleteAllForReport(report: ReportId) returns (deleted: bool)
      modifies this
      ensures items == WithoutReport(old(items), report)
      ensures deleted == (|items| < |old(items)|)
    {
      var before := items;
      items := WithoutReport(items, report);
      deleted := |items| < |before|;
    }

    /** `dbDeleteDiscoveryItemsForReport`: true when something was removed. */
    method DeleteForReport(report: ReportId, keywords: seq<string>) returns (deleted: bool)
      modifies this
      ensures items == WithoutKeywords(old(items), report, keywords)
      ensures deleted == (|items| < |old(items)|)
    {
      var before := items;
      items := WithoutKeywords(items, report, keywords);
      deleted := |items| < |before|;
    }
  }
}
