/** The sidebar navigation: five fixed items, the one matching the current path highlighted,
    a progress bar coloured by status and progress, and a chevron on the hovered item. */
module Sidebar {
  import opened Common

  datatype NavItem = NavItem(id: string, name: string, href: string, progress: int, status: string)

  const Items: seq<NavItem> := [
    NavItem("home", "首页", "/", 100, "completed"),
    NavItem("visualization", "数据可视化", "/dashboard", 82, "active"),
    NavItem("ai-insights", "AI洞察", "/analytics", 100, "completed"),
    NavItem("reports", "报告生成", "/reports", 73, "processing"),
    NavItem("development", "开发模块", "/learning", 90, "active")
  ]

  /** The path assumed when none is given. */
  const DefaultPath: string := "/"

  /** `getProgressColor`: the status decides first (completed before processing); any other
      status is blue from 80 up and gray below. */
  function ProgressColor(progress: int, status: string): (c: string)
    ensures status == "completed" ==> c == "bg-green-500"
    ensures status != "completed" && status == "processing" ==> c == "bg-yellow-500"
    ensures status != "completed" && status != "processing" ==>
              (c == "bg-blue-500" <==> progress >= 80) && (c == "bg-gray-400" <==> progress < 80)
  {
    if status == "completed" then "bg-green-500"
    else if status == "processing" then "bg-yellow-500"
    else if progress >= 80 then "bg-blue-500"
    else "bg-gray-400"
  }

  /** The colour does not depend on progress unless the status is neither completed nor
      processing. */
  lemma ProgressMattersOnlyForOtherStatuses(p1: int, p2: int, status: string)
    ensures ProgressColor(p1, status) != ProgressColor(p2, status) ==>
              status != "completed" && status != "processing"
              && (p1 >= 80 <==> p2 < 80)
  {
  }

  /** The bars as drawn: green, blue, green, yellow, blue. */
  lemma ItemColors()
    ensures ProgressColor(Items[0].progress, Items[0].status) == "bg-green-500"
    ensures ProgressColor(Items[1].progress, Items[1].status) == "bg-blue-500"
    ensures ProgressColor(Items[2].progress, Items[2].status) == "bg-green-500"
    ensures ProgressColor(Items[3].progress, Items[3].status) == "bg-yellow-500"
    ensures ProgressColor(Items[4].progress, Items[4].status) == "bg-blue-500"
  {
  }

  /** Which items are highlighted for a path. */
  function Highlighted(path: string): (r: seq<bool>)
    ensures |r| == |Items|
    ensures forall k :: 0 <= k < |Items| ==> (r[k] <==> Items[k].href == path)
  {
    seq(|Items|, k requires 0 <= k < |Items| => Items[k].href == path)
  }

  /** The five hrefs are distinct, so at most one item is highlighted; the default path
      highlights the home item alone, and a path outside the list highlights none. */
  lemma HighlightedItems(path: string)
    ensures forall k, k' :: 0 <= k < k' < |Items| ==> !(Highlighted(path)[k] && Highlighted(path)[k'])
    ensures Highlighted(DefaultPath) == [true, false, false, false, false]
    ensures (forall k :: 0 <= k < |Items| ==> Items[k].href != path) ==>
              Highlighted(path) == [false, false, false, false, false]
  {
    var h := Highlighted(path);
    forall k, k' | 0 <= k < k' < |Items|
      ensures !(h[k] && h[k'])
    {
      assert Items[k].href != Items[k'].href;
    }
  }

  class SidebarNavigation {
    const currentPath: string
    var hoveredItem: Option<string>

    /** `currentPath` defaults to the root path. */
    constructor (path: Option<string>)
      ensures currentPath == path.GetOr(DefaultPath) && hoveredItem == None
    {
      currentPath := path.GetOr(DefaultPath);
      hoveredItem := None;
    }

    /** Whether item k is drawn highlighted. */
    function IsActive(k: nat): (r: bool)
      requires k < |Items|
      reads this
      ensures r <==> currentPath == Items[k].href
      ensures r ==> forall k' :: 0 <= k' < |Items| && k' != k ==> currentPath != Items[k'].href
    {
      HighlightedItems(currentPath);
      Highlighted(currentPath)[k]
    }

    /** The mouse enters item k. */
    method Enter(k: nat)
      requires k < |Items|
      modifies this`hoveredItem
      ensures hoveredItem == Some(Items[k].id)
      ensures ChevronShown(k)
    {
      hoveredItem := Some(Items[k].id);
    }

    /** The mouse leaves an item: the hover is cleared, whichever item it was on. */
    method Leave()
      modifies this`hoveredItem
      ensures hoveredItem == None
      ensures forall k :: 0 <= k < |Items| ==> !ChevronShown(k)
    {
      hoveredItem := None;
    }

    /** The chevron is shown on item k only while it is the hovered item; the ids are distinct,
        so no other item shows it at the same time. */
    function ChevronShown(k: nat): (r: bool)
      requires k < |Items|
      reads this
      ensures r <==> hoveredItem == Some(Items[k].id)
      ensures r ==> forall k' :: 0 <= k' < |Items| && k' != k ==> Items[k'].id != Items[k].id
    {
      hoveredItem == Some(Items[k].id)
    }
  }
}
