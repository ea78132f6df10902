/** app/experience/page.tsx: each position's company avatar shows the first
    letter of the company name on a gradient chosen by that letter. */
module Experience {
  import opened JsValues

  /** The gradient table, keyed by capital letter. */
  const Gradients: map<string, string> := map[
    "A" := "from-green-500 to-green-700",
    "T" := "from-blue-500 to-cyan-500",
    "S" := "from-purple-500 to-pink-500",
    "B" := "from-orange-500 to-red-500"
  ]

  const DefaultGradient := "from-gray-500 to-gray-700"

  /** `getGradientByLetter`: `gradients[letter] || default`. */
  function GradientByLetter(letter: string): (g: string)
    ensures letter in Gradients ==> g == Gradients[letter]
    ensures letter !in Gradients ==> g == DefaultGradient
  {
    Or(Lookup(Gradients, letter), DefaultGradient)
  }

  /** The four letters get four different gradients, none of them the default; the
      lookup is case-sensitive, so a lower-case letter or the empty string gets the default. */
  lemma GradientsDistinct()
    ensures forall a, b :: a in Gradients && b in Gradients && a != b ==> GradientByLetter(a) != GradientByLetter(b)
    ensures forall a :: a in Gradients ==> GradientByLetter(a) != DefaultGradient
    ensures GradientByLetter("a") == DefaultGradient && GradientByLetter("") == DefaultGradient
  {
  }

  /** `company.charAt(0)`: the first character, or the empty string for an empty name. */
  function CharAt0(s: string): (c: string)
    ensures |s| == 0 ==> c == ""
    ensures |s| > 0 ==> c == [s[0]]
  {
    if |s| == 0 then "" else [s[0]]
  }

  /** The avatar's gradient for a company name; an empty name gets the default. */
  function AvatarGradient(company: string): (g: string)
    ensures company == "" ==> g == DefaultGradient
    ensures company != "" ==> g == GradientByLetter([company[0]])
  {
    GradientByLetter(CharAt0(company))
  }

  /** The companies of the four positions, in page order. */
  const Companies: seq<string> := [
    "AMN Technology and Investment",
    "Tuberia Industrial del Norte",
    "Senorita's Mexicana Taqueria",
    "Bon Air Fire Company"
  ]

  /** Every listed company starts with a letter of the table, and no two of them share
      a gradient. */
  lemma CompaniesHaveGradients()
    ensures forall i :: 0 <= i < |Companies| ==> CharAt0(Companies[i]) in Gradients
    ensures forall i, j :: 0 <= i < |Companies| && 0 <= j < |Companies| && i != j ==>
              AvatarGradient(Companies[i]) != AvatarGradient(Companies[j])
  {
    assert CharAt0(Companies[0]) == "A" && CharAt0(Companies[1]) == "T";
    assert CharAt0(Companies[2]) == "S" && CharAt0(Companies[3]) == "B";
    GradientsDistinct();
  }
}
