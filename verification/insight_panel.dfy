/** The AI insight panel: a spinner shown while loading or animating, a list of insights
    otherwise, and a click that selects or deselects one insight for its details. */
module InsightPanel {
  import opened Common

  datatype InsightType = Trend | Anomaly | Recommendation | Prediction
  datatype Impact = High | Medium | Low

  datatype InsightItem = InsightItem(id: string, kind: InsightType, title: string,
                                     description: string, confidence: int, impact: Impact)

  /** The click handler: the active insight is cleared, otherwise this one becomes active. */
  function Toggle(active: Option<string>, id: string): (r: Option<string>)
    ensures r.None? <==> active == Some(id)
    ensures r.Some? ==> r == Some(id)
  {
    if active == Some(id) then None else Some(id)
  }

  /** Clicking the same insight twice restores the selection exactly when nothing or that very
      insight was selected before; from another selection it ends with nothing selected. */
  lemma ToggleTwice(active: Option<string>, id: string)
    ensures Toggle(Toggle(active, id), id) == active <==> active == None || active == Some(id)
    ensures Toggle(Toggle(active, id), id) == None || Toggle(Toggle(active, id), id) == active
  {
  }

  /** Which items are drawn highlighted for a selection. */
  function Highlighted(items: seq<InsightItem>, active: Option<string>): (r: seq<bool>)
    ensures |r| == |items|
    ensures forall k :: 0 <= k < |items| ==> (r[k] <==> active == Some(items[k].id))
  {
    seq(|items|, k requires 0 <= k < |items| => active == Some(items[k].id))
  }

  ghost predicate DistinctIds(items: seq<InsightItem>) {
    forall k, k' :: 0 <= k < k' < |items| ==> items[k].id != items[k'].id
  }

  /** With distinct ids at most one item is highlighted. */
  lemma AtMostOneHighlighted(items: seq<InsightItem>, active: Option<string>)
    requires DistinctIds(items)
    ensures forall k, k' :: 0 <= k < k' < |items| ==>
              !(Highlighted(items, active)[k] && Highlighted(items, active)[k'])
  {
  }

  /** The impact badge text. */
  function ImpactLabel(impact: Impact): (l: string)
    ensures l == "高影响" <==> impact == High
    ensures l == "中影响" <==> impact == Medium
    ensures l == "低影响" <==> impact == Low
  {
    match impact
    case High => "高影响"
    case Medium => "中影响"
    case Low => "低影响"
  }

  /** The impact badge colour: high is red and low is green. */
  function ImpactColor(impact: Impact): (c: string)
    ensures c == "bg-red-100 text-red-800" <==> impact == High
    ensures c == "bg-yellow-100 text-yellow-800" <==> impact == Medium
    ensures c == "bg-green-100 text-green-800" <==> impact == Low
  {
    match impact
    case High => "bg-red-100 text-red-800"
    case Medium => "bg-yellow-100 text-yellow-800"
    case Low => "bg-green-100 text-green-800"
  }

  function Ids(items: seq<InsightItem>): (r: seq<string>)
    ensures |r| == |items| && forall k :: 0 <= k < |items| ==> r[k] == items[k].id
  {
    seq(|items|, k requires 0 <= k < |items| => items[k].id)
  }

  class AIInsightPanel {
    const insights: seq<InsightItem>
    var isLoading: bool
    var activeInsight: Option<string>
    var processingAnimation: bool
    /** The two-second timeout scheduled by the loading effect and not yet fired or cleared. */
    var timerPending: bool

    /** Only a listed insight can be active, and a pending timer belongs to the current
        loading phase, whose animation it will end. */
    ghost predicate Valid()
      reads this
    {
      && (activeInsight.Some? ==> activeInsight.value in Ids(insights))
      && (timerPending ==> isLoading && processingAnimation)
    }

    /** Mounting, followed by the loading effect. */
    constructor (items: seq<InsightItem>, loading: bool)
      ensures Valid()
      ensures insights == items && isLoading == loading && activeInsight == None
      ensures processingAnimation == loading && timerPending == loading
    {
      insights := items;
      isLoading := loading;
      activeInsight := None;
      processingAnimation := loading;
      timerPending := loading;
    }

    /** The spinner is drawn while loading or animating. */
    function SpinnerShown(): (r: bool)
      reads this
      ensures r <==> isLoading || processingAnimation
    {
      isLoading || processingAnimation
    }

    /** The list is drawn only when neither loading nor animating. */
    function ListShown(): (r: bool)
      reads this
      ensures r <==> !SpinnerShown()
    {
      !isLoading && !processingAnimation
    }

    /** An empty list shows the placeholder in its place. */
    function PlaceholderShown(): (r: bool)
      reads this
      ensures r ==> ListShown()
      ensures r <==> ListShown() && |insights| == 0
    {
      ListShown() && |insights| == 0
    }

    /** A new `isLoading` value. When it differs, the previous effect's cleanup clears a pending
        timer; a change to true starts the animation and schedules its end. */
    method SetLoading(loading: bool)
      requires Valid()
      modifies this`isLoading, this`processingAnimation, this`timerPending
      ensures Valid()
      ensures isLoading == loading
      ensures loading == old(isLoading) ==>
                processingAnimation == old(processingAnimation) && timerPending == old(timerPending)
      ensures loading && !old(isLoading) ==> processingAnimation && timerPending
      ensures !loading && old(isLoading) ==>
                processingAnimation == old(processingAnimation) && !timerPending
    {
      if loading != isLoading {
        timerPending := false;
        isLoading := loading;
        if loading {
          processingAnimation := true;
          timerPending := true;
        }
      }
    }

    /** The scheduled timeout fires and ends the animation. */
    method TimerFires()
      requires Valid() && timerPending
      modifies this`processingAnimation, this`timerPending
      ensures Valid()
      ensures !processingAnimation && !timerPending
      ensures ListShown() <==> !isLoading
    {
      processingAnimation := false;
      timerPending := false;
    }

    /** The refresh button, disabled while loading: it starts the animation and schedules
        nothing to end it. */
    method Refresh()
      requires Valid() && !isLoading
      modifies this`processingAnimation
      ensures Valid()
      ensures processingAnimation && !ListShown()
    {
      processingAnimation := true;
    }

    /** A click on a listed insight. */
    method Click(id: string)
      requires Valid() && ListShown() && id in Ids(insights)
      modifies this`activeInsight
      ensures Valid()
      ensures activeInsight == Toggle(old(activeInsight), id)
    {
      if activeInsight == Some(id) {
        activeInsight := None;
      } else {
        activeInsight := Some(id);
      }
    }
  }

  /** Refreshing an idle panel hides the list, and no timer is pending to show it again: only a
      later change of `isLoading` can. */
  method IdleRefresh(items: seq<InsightItem>) returns (panel: AIInsightPanel)
    ensures panel.Valid()
    ensures !panel.isLoading && !panel.ListShown() && !panel.timerPending
  {
    panel := new AIInsightPanel(items, false);
    panel.Refresh();
  }

  /** Loading that ends before the two seconds are up clears the timer that would have ended
      the animation, so the list stays hidden although nothing is loading. */
  method ShortLoading(items: seq<InsightItem>) returns (panel: AIInsightPanel)
    ensures panel.Valid()
    ensures !panel.isLoading && !panel.ListShown() && !panel.timerPending
  {
    panel := new AIInsightPanel(items, false);
    panel.SetLoading(true);
    panel.SetLoading(false);
  }
}
