/** The rendering decisions of frontend/components/response-display.tsx: the
    colour tier of the score card and what each learning-plan row shows.
    Markup is left out; what is kept is every choice the component makes. */
module ResponseDisplay {
  import opened Wrappers
  import opened Strings
  import opened Analysis

  /** The three colour tiers of the score card. */
  datatype Tier = Green | Yellow | Red {
    /** Position in the order red < yellow < green. */
    function Rank(): nat {
      match this
      case Red => 0
      case Yellow => 1
      case Green => 2
    }
  }

  /** The Tailwind colour name of each tier. */
  function ColourName(t: Tier): string {
    match t
    case Green => "green"
    case Yellow => "yellow"
    case Red => "red"
  }

  /** The text classes of each tier, as `getScoreColor` returns them
      (`text-green-600 dark:text-green-400` for green). */
  function TextClass(t: Tier): string {
    "text-" + ColourName(t) + "-600 dark:text-" + ColourName(t) + "-400"
  }

  /** The background classes of each tier, as `getScoreBgColor` returns them
      (`bg-green-50 dark:bg-green-900/20 border-green-200 dark:border-green-800`
      for green). */
  function BgClass(t: Tier): string {
    var c := ColourName(t);
    "bg-" + c + "-50 dark:bg-" + c + "-900/20 border-" + c + "-200 dark:border-" + c + "-800"
  }

  /** The tier a score belongs to: green from 80, yellow from 60, red below. */
  function TierOf(score: int): (t: Tier)
    ensures t == Green <==> score >= 80
    ensures t == Yellow <==> 60 <= score < 80
    ensures t == Red <==> score < 60
  {
    if score >= 80 then Green else if score >= 60 then Yellow else Red
  }

  /** `getScoreColor`: the thresholds, highest first. */
  function ScoreColor(score: int): (cls: string)
    ensures cls == TextClass(TierOf(score))
  {
    if score >= 80 then TextClass(Green)
    else if score >= 60 then TextClass(Yellow)
    else TextClass(Red)
  }

  /** `getScoreBgColor`: the same thresholds. */
  function ScoreBgColor(score: int): (cls: string)
    ensures cls == BgClass(TierOf(score))
  {
    if score >= 80 then BgClass(Green)
    else if score >= 60 then BgClass(Yellow)
    else BgClass(Red)
  }

  /** Different tiers have different text classes: the colour name starts
      right after `text-`. */
  lemma TextClassInjective(a: Tier, b: Tier)
    ensures TextClass(a) == TextClass(b) ==> a == b
  {
    assert TextClass(a)[5] == ColourName(a)[0];
    assert TextClass(b)[5] == ColourName(b)[0];
  }

  /** Different tiers have different background classes: the colour name
      starts right after `bg-`. */
  lemma BgClassInjective(a: Tier, b: Tier)
    ensures BgClass(a) == BgClass(b) ==> a == b
  {
    assert BgClass(a)[3] == ColourName(a)[0];
    assert BgClass(b)[3] == ColourName(b)[0];
  }

  /** The text colour and the card background always agree on the tier. */
  lemma ColoursAgree(score: int, t: Tier)
    ensures ScoreColor(score) == TextClass(t) <==> ScoreBgColor(score) == BgClass(t)
  {
    TextClassInjective(TierOf(score), t);
    BgClassInjective(TierOf(score), t);
  }

  /** A higher score never lands in a lower tier. */
  lemma TierMonotone(a: int, b: int)
    requires a <= b
    ensures TierOf(a).Rank() <= TierOf(b).Rank()
  {
  }

  /** What one learning-plan row shows: its heading, the thumbnail image if
      any, and the "Watch on YouTube" link if any. */
  datatype Row = Row(heading: string, thumbnail: Option<string>, link: Option<string>)

  /** The placeholder heading of the row at `index` (0-based). */
  function PlaceholderTitle(index: nat): string {
    "Video " + NatToDecimal(index + 1)
  }

  /** The row for `item` at position `index` of the plan (lines 72-111). */
  function RenderRow(item: Video, index: nat): (row: Row)
    ensures row.heading != ""
    ensures item.title != "" ==> row.heading == item.title
    ensures item.title == "" ==> row.heading == PlaceholderTitle(index)
    ensures row.thumbnail.Some? <==> item.thumbnail != ""
    ensures row.thumbnail.Some? ==> row.thumbnail.value == item.thumbnail
    ensures row.link.Some? <==> item.video != ""
    ensures row.link.Some? ==> row.link.value == item.video
  {
    Row(
      if item.title != "" then item.title else PlaceholderTitle(index),
      if item.thumbnail != "" then Some(item.thumbnail) else None,
      if item.video != "" then Some(item.video) else None)
  }

  /** The placeholder names the row's position counting from one. */
  lemma PlaceholderNamesPosition(index: nat)
    ensures StartsWith(PlaceholderTitle(index), "Video ")
    ensures var digits := PlaceholderTitle(index)[6..];
      AllDigits(digits) && DigitsValue(digits) == index + 1
  {
    var t := PlaceholderTitle(index);
    assert t[6..] == NatToDecimal(index + 1);
    DecimalRoundTrip(index + 1);
  }

  /** `learning_plan.map(...)`: the rows of the plan, one per item, in order. */
  function RenderRows(plan: seq<Video>): (rows: seq<Row>)
    ensures |rows| == |plan|
    ensures forall i :: 0 <= i < |plan| ==> rows[i] == RenderRow(plan[i], i)
    decreases |plan|
  {
    if plan == [] then []
    else
      var front := RenderRows(plan[..|plan| - 1]);
      front + [RenderRow(plan[|plan| - 1], |plan| - 1)]
  }

  /** `response.learning_plan && response.learning_plan.length > 0`: the plan
      card is drawn only for a present, non-empty list. */
  function LearningPlanRows(plan: Option<seq<Video>>): (rows: Option<seq<Row>>)
    ensures rows.Some? <==> plan.Some? && plan.value != []
    ensures rows.Some? ==> rows.value == RenderRows(plan.value)
  {
    match plan
    case Some(items) => if items != [] then Some(RenderRows(items)) else None
    case None => None
  }
}
