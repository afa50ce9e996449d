/** The knowledge base list: case-insensitive search over title, description and tags,
    combined with a category tab ("all" or one category). */
module KnowledgeBase {
  import opened Common
  import opened JsText

  datatype ItemType = Article | Video | Tutorial | Reference
  datatype Difficulty = Beginner | Intermediate | Advanced

  datatype Item = Item(id: string, title: string, kind: ItemType, category: string,
                       description: string, tags: seq<string>, difficulty: Difficulty,
                       rating: real, readTime: Option<string>, duration: Option<string>,
                       url: Option<string>)

  const AllCategories: string := "all"

  /** Case-insensitive substring test, `a.toLowerCase().includes(b.toLowerCase())`. */
  predicate ContainsFolded(text: string, term: string) {
    Includes(Lower(text), Lower(term))
  }

  /** Some tag contains the search term. */
  predicate SomeTagMatches(tags: seq<string>, term: string) {
    exists k :: 0 <= k < |tags| && ContainsFolded(tags[k], term)
  }

  /** The search test: the empty term matches every item, and a match in the title, the
      description or a tag is enough. */
  predicate MatchesSearch(item: Item, term: string)
    ensures term == [] ==> MatchesSearch(item, term)
    ensures ContainsFolded(item.description, term) || SomeTagMatches(item.tags, term) ==> MatchesSearch(item, term)
  {
    IncludesEmpty(Lower(item.title));
    || ContainsFolded(item.title, term)
    || ContainsFolded(item.description, term)
    || SomeTagMatches(item.tags, term)
  }

  /** The category tab: "all" shows every item, any other tab exactly the items of its
      category. */
  predicate MatchesCategory(item: Item, category: string)
    ensures category == AllCategories ==> MatchesCategory(item, category)
    ensures category != AllCategories ==> (MatchesCategory(item, category) <==> item.category == category)
  {
    category == AllCategories || item.category == category
  }

  /** Both tests together: with no search term only the tab decides, and on the "all" tab only
      the search decides. */
  predicate Visible(item: Item, term: string, category: string)
    ensures term == [] ==> (Visible(item, term, category) <==> MatchesCategory(item, category))
    ensures category == AllCategories ==> (Visible(item, term, category) <==> MatchesSearch(item, term))
  {
    MatchesSearch(item, term) && MatchesCategory(item, category)
  }

  /** `filteredItems`: the items passing both tests, in list order. */
  function FilteredItems(items: seq<Item>, term: string, category: string): (r: seq<Item>)
    ensures |r| <= |items|
    ensures forall x :: x in r <==> x in items && Visible(x, term, category)
  {
    if items == [] then []
    else
      var init := FilteredItems(items[..|items| - 1], term, category);
      var last := items[|items| - 1];
      assert forall x :: x in items <==> x in items[..|items| - 1] || x == last;
      if Visible(last, term, category) then init + [last] else init
  }

  /** The filter keeps list order and repeats: the result for `a + b` is that for `a`
      followed by that for `b`. */
  lemma {:induction false} FilteredItemsConcat(a: seq<Item>, b: seq<Item>, term: string, category: string)
    ensures FilteredItems(a + b, term, category) == FilteredItems(a, term, category) + FilteredItems(b, term, category)
  {
    if b == [] {
      assert a + b == a;
    } else {
      var init, last := b[..|b| - 1], b[|b| - 1];
      var tail := if Visible(last, term, category) then [last] else [];
      FilteredItemsConcat(a, init, term, category);
      assert (a + b)[..|a + b| - 1] == a + init;
      assert (a + b)[|a + b| - 1] == last;
      assert FilteredItems(a + b, term, category) == FilteredItems(a + init, term, category) + tail;
      assert FilteredItems(b, term, category) == FilteredItems(init, term, category) + tail;
      var fa, fi := FilteredItems(a, term, category), FilteredItems(init, term, category);
      assert (fa + fi) + tail == fa + (fi + tail);
    }
  }

  /** A single item is kept exactly when it qualifies. */
  lemma FilteredItemsSingle(term: string, category: string, x: Item)
    ensures FilteredItems([x], term, category) == if Visible(x, term, category) then [x] else []
  {
    assert [x][..0] == [];
  }

  /** When every item passes, nothing is filtered out and the order is kept. */
  lemma {:induction false} FilterKeepsAll(items: seq<Item>, term: string, category: string)
    requires forall k :: 0 <= k < |items| ==> Visible(items[k], term, category)
    ensures FilteredItems(items, term, category) == items
  {
    if items != [] {
      FilterKeepsAll(items[..|items| - 1], term, category);
      assert items[..|items| - 1] + [items[|items| - 1]] == items;
    }
  }

  /** The empty search term matches every item (every string includes ""). */
  lemma EmptyTermMatchesAll(item: Item)
    ensures MatchesSearch(item, [])
  {
    assert Lower([]) == [];
    IncludesEmpty(Lower(item.title));
  }

  lemma {:induction false} LowerIdempotent(s: string)
    ensures Lower(Lower(s)) == Lower(s)
  {
    var once := Lower(s);
    var twice := Lower(once);
    forall k | 0 <= k < |s| ensures twice[k] == once[k] {
      assert once[k] == LowerChar(s[k]);
    }
  }

  /** Search ignores ASCII case: a term and its lower-case form select the same items. */
  lemma SearchIgnoresCase(item: Item, term: string)
    ensures MatchesSearch(item, term) <==> MatchesSearch(item, Lower(term))
  {
    LowerIdempotent(term);
  }

  /** Choosing a category narrows the "all" result: it is the "all" result filtered by the
      category, in the same order. */
  lemma {:induction false} CategoryNarrowsAll(items: seq<Item>, term: string, category: string)
    ensures FilteredItems(items, term, category)
         == FilteredItems(FilteredItems(items, term, AllCategories), term, category)
  {
    if items != [] {
      var init := items[..|items| - 1];
      var last := items[|items| - 1];
      CategoryNarrowsAll(init, term, category);
      var all := FilteredItems(init, term, AllCategories);
      if Visible(last, term, AllCategories) {
        assert (all + [last])[..|all + [last]| - 1] == all;
      }
    }
  }

  /** The "no results" placeholder is shown exactly when no item passes both tests. */
  predicate ShowsPlaceholder(items: seq<Item>, term: string, category: string) {
    |FilteredItems(items, term, category)| == 0
  }

  lemma PlaceholderIffNoMatch(items: seq<Item>, term: string, category: string)
    ensures ShowsPlaceholder(items, term, category) <==>
            forall k :: 0 <= k < |items| ==> !Visible(items[k], term, category)
  {
    var r := FilteredItems(items, term, category);
    if !ShowsPlaceholder(items, term, category) {
      assert r[0] in r;
    }
    if exists k :: 0 <= k < |items| && Visible(items[k], term, category) {
      var k :| 0 <= k < |items| && Visible(items[k], term, category);
      assert items[k] in r;
    }
  }

  function SampleItems(): seq<Item> {
    [Item("1", "数据可视化设计原则", Article, "设计理论",
          "深入了解有效数据可视化的核心设计原则，包括颜色理论、布局设计和用户体验。",
          ["设计", "颜色理论", "UX"], Beginner, 4.8, Some("15分钟"), None, None),
     Item("2", "React图表组件开发实战", Video, "技术实现",
          "从零开始构建可复用的React图表组件，涵盖D3.js集成和性能优化技巧。",
          ["React", "D3.js", "组件开发"], Intermediate, 4.9, None, Some("45分钟"), None),
     Item("3", "AI驱动的数据洞察生成", Tutorial, "AI应用",
          "学习如何使用机器学习算法自动发现数据中的模式和异常，生成智能洞察。",
          ["机器学习", "异常检测", "自动化"], Advanced, 4.7, Some("30分钟"), None, None),
     Item("4", "Echarts API参考手册", Reference, "技术文档",
          "完整的Echarts配置选项和API文档，包含所有图表类型的详细参数说明。",
          ["Echarts", "API", "参考文档"], Intermediate, 4.6, None, None,
          Some("https://echarts.apache.org/zh/api.html")),
     Item("5", "大屏数据可视化最佳实践", Article, "实战案例",
          "企业级数据大屏设计与实现的完整指南，包含布局设计、性能优化和实时数据处理。",
          ["大屏设计", "实时数据", "性能优化"], Advanced, 4.9, Some("25分钟"), None, None)]
  }

  /** With an empty search box the "all" tab shows the whole sample library, in order. */
  lemma SampleAllTab()
    ensures FilteredItems(SampleItems(), [], AllCategories) == SampleItems()
  {
    var items := SampleItems();
    forall k | 0 <= k < |items| ensures MatchesSearch(items[k], []) {
      EmptyTermMatchesAll(items[k]);
    }
    FilterKeepsAll(items, [], AllCategories);
  }
}
