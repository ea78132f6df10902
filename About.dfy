/** app/about/page.tsx: each current goal's card is coloured by its status. */
module About {
  import opened JsValues

  const YellowOrange := "from-yellow-500/20 to-orange-500/20 text-yellow-500"
  const BluePurple := "from-blue-500/20 to-purple-500/20 text-blue-500"
  const GreenEmerald := "from-green-500/20 to-emerald-500/20 text-green-500"
  const RedPink := "from-red-500/20 to-pink-500/20 text-red-500"
  const GreyDefault := "from-gray-500/20 to-gray-400/20 text-gray-500"

  /** The colour table of `getStatusColor`. */
  const StatusColors: map<string, string> := map[
    "Just Started" := YellowOrange,
    "In Progress" := BluePurple,
    "Almost There" := GreenEmerald,
    "On Hold" := RedPink,
    "Planning" := YellowOrange,
    "Active" := GreenEmerald
  ]

  /** `getStatusColor`: `colors[status] || default`. */
  function StatusColor(status: string): (c: string)
    ensures status in StatusColors ==> c == StatusColors[status]
    ensures status !in StatusColors ==> c == GreyDefault
  {
    Or(Lookup(StatusColors, status), GreyDefault)
  }

  /** The six statuses share four colours: 'Planning' looks like 'Just Started' and
      'Active' like 'Almost There'; the others differ, and none is the default. */
  lemma StatusColorClasses()
    ensures StatusColor("Planning") == StatusColor("Just Started") == YellowOrange
    ensures StatusColor("Active") == StatusColor("Almost There") == GreenEmerald
    ensures StatusColor("In Progress") == BluePurple && StatusColor("On Hold") == RedPink
    ensures forall s :: s in StatusColors ==> StatusColor(s) != GreyDefault
    ensures YellowOrange != BluePurple && YellowOrange != GreenEmerald && YellowOrange != RedPink
    ensures BluePurple != GreenEmerald && BluePurple != RedPink && GreenEmerald != RedPink
  {
  }

  /** An unknown status, a different capitalisation included, is grey. */
  lemma UnknownStatusGrey()
    ensures StatusColor("Done") == GreyDefault && StatusColor("in progress") == GreyDefault
  {
  }

  /** The statuses of the four current goals, in page order. */
  const GoalStatuses: seq<string> := ["In Progress", "In Progress", "Planning", "Active"]

  /** Every goal's status is a key of the table, so no goal card is grey. */
  lemma GoalsColoured()
    ensures forall i :: 0 <= i < |GoalStatuses| ==> GoalStatuses[i] in StatusColors
    ensures forall i :: 0 <= i < |GoalStatuses| ==> StatusColor(GoalStatuses[i]) != GreyDefault
  {
    StatusColorClasses();
  }
}
