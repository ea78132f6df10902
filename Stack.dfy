/** app/stack/page.tsx: each skill card draws a bar whose width and colour
    follow the skill's level. The level type (types/index.ts) allows five
    values; the card distinguishes three of them. */
module Stack {

  datatype SkillLevel = Learning | Beginner | Intermediate | Advanced | Expert

  /** The bar's width in percent. */
  function BarWidth(level: SkillLevel): (width: nat)
    ensures width == 100 <==> level == Advanced
    ensures width == 75 <==> level == Intermediate
    ensures width == 50 <==> level == Beginner
    ensures width == 25 <==> (level == Learning || level == Expert)
  {
    match level
    case Advanced => 100
    case Intermediate => 75
    case Beginner => 50
    case _ => 25
  }

  /** The bar's colour class. */
  function BarColor(level: SkillLevel): (color: string)
    ensures level == Advanced ==> color == "bg-green-500"
    ensures level == Intermediate ==> color == "bg-blue-500"
    ensures level == Beginner ==> color == "bg-yellow-500"
    ensures level == Learning || level == Expert ==> color == "bg-purple-500"
  {
    match level
    case Advanced => "bg-green-500"
    case Intermediate => "bg-blue-500"
    case Beginner => "bg-yellow-500"
    case _ => "bg-purple-500"
  }

  /** The rank of the three levels the card orders. */
  function Rank(level: SkillLevel): nat {
    match level
    case Beginner => 1
    case Intermediate => 2
    case Advanced => 3
    case _ => 0
  }

  /** Width grows strictly with the level over Beginner, Intermediate and Advanced, and
      every level gets a bar at least a quarter wide. */
  lemma WidthMonotone(a: SkillLevel, b: SkillLevel)
    requires Rank(a) > 0 && Rank(b) > 0
    ensures Rank(a) < Rank(b) <==> BarWidth(a) < BarWidth(b)
    ensures BarWidth(a) >= 25
  {
  }

  /** 'Expert', which the level type permits, is drawn exactly like 'Learning', below
      'Beginner'. */
  lemma ExpertDrawnAsLearning()
    ensures BarWidth(Expert) == BarWidth(Learning) && BarColor(Expert) == BarColor(Learning)
    ensures BarWidth(Expert) < BarWidth(Beginner)
  {
  }
}
