/** The two rules of the todo card that are not layout: the priority label and the move menu. */
module Card {
  import opened Seqs
  import opened TodoModel
  import opened ViewModel

  /** `getPriorityText`: 3 is High, 1 is Low, every other value reads Medium. */
  function GetPriorityText(priority: Int): (r: string)
    ensures priority == 3 ==> r == "High"
    ensures priority == 1 ==> r == "Low"
    ensures priority != 1 && priority != 3 ==> r == "Medium"
  {
    if priority == 3 then "High"
    else if priority == 1 then "Low"
    else "Medium"
  }

  /** The card's container colour, chosen by priority. */
  datatype CardColor = ErrorContainer | SurfaceVariant | Surface

  /** The card's `containerColor`: 3 is the error container, 1 the surface variant, any other the surface. */
  function ContainerColor(priority: Int): (c: CardColor)
    ensures priority == 3 ==> c == ErrorContainer
    ensures priority == 1 ==> c == SurfaceVariant
    ensures priority != 1 && priority != 3 ==> c == Surface
  {
    if priority == 3 then ErrorContainer
    else if priority == 1 then SurfaceVariant
    else Surface
  }

  /** The colour and the label split the priorities the same way. */
  lemma ColorMatchesLabel(p: Int, q: Int)
    ensures ContainerColor(p) == ContainerColor(q) <==> GetPriorityText(p) == GetPriorityText(q)
    ensures ContainerColor(p) == ErrorContainer <==> GetPriorityText(p) == "High"
    ensures ContainerColor(p) == SurfaceVariant <==> GetPriorityText(p) == "Low"
  {
  }

  function IsNot(current: Quadrant): Quadrant -> bool {
    (q: Quadrant) => q != current
  }

  /** The quadrants the move menu offers: every quadrant but the todo's own, in enum order. */
  function MoveTargets(current: Quadrant): (r: seq<Quadrant>)
    ensures |r| == 3
    ensures current !in r
    ensures forall q :: q != current ==> q in r
  {
    var r := Filter(AllQuadrants, IsNot(current));
    FilterMembers(AllQuadrants, IsNot(current));
    assert forall q :: q in AllQuadrants;
    r
  }

  /** The menu's labels: no label is the heading of the todo's own quadrant. */
  lemma MoveTargetLabels(current: Quadrant, i: int)
    requires 0 <= i < |MoveTargets(current)|
    ensures GetQuadrantTitle(MoveTargets(current)[i]) != GetQuadrantTitle(current)
  {
    GetQuadrantTitleInjective(MoveTargets(current)[i], current);
  }
}
