/** app/thoughts/page.tsx: a category bar filters a constant list of
    thoughts, and each card carries a badge coloured by the thought's status. */
module Thoughts {
  import opened Seqs

  /** A thought: the fields the filter and the badge read (the dates, tags, texts
      and images are left out). */
  datatype Thought = Thought(id: nat, title: string, category: string, status: string)

  const AllThoughts: seq<Thought> := [
    Thought(1, "Securing Summer Tech Internships", "career", "In Progress"),
    Thought(2, "Apple Developer Academy Application", "career", "Planning"),
    Thought(3, "Mastering Modern Development Stack", "technical", "Planning"),
    Thought(4, "Developing Meetly App", "projects", "In Progress"),
    Thought(5, "Participating in Apple Event", "projects", "Planning"),
    Thought(6, "Finishing Personal Portfolio", "career", "In Progress")
  ]

  /** The ids of the category buttons, in bar order. */
  const CategoryIds: seq<string> := ["all", "projects", "career", "learning"]

  /** The filter's test: `activeCategory === 'all' || thought.category === activeCategory`. */
  function ShownUnder(activeCategory: string): Thought -> bool {
    (t: Thought) => activeCategory == "all" || t.category == activeCategory
  }

  /** `filteredThoughts`: every thought under 'all', otherwise exactly the thoughts of
      the active category. */
  function FilteredThoughts(thoughts: seq<Thought>, activeCategory: string): (r: seq<Thought>)
    ensures activeCategory == "all" ==> r == thoughts
    ensures forall t :: t in r <==> t in thoughts && (activeCategory == "all" || t.category == activeCategory)
  {
    var keep := ShownUnder(activeCategory);
    if activeCategory == "all" then
      FilterAll(thoughts, keep);
      Filter(thoughts, keep)
    else
      Filter(thoughts, keep)
  }

  /** The filtered list keeps list order and the multiplicity of every thought it shows. */
  lemma FilteredThoughtsInOrder(thoughts: seq<Thought>, activeCategory: string, t: Thought)
    ensures IsSubsequence(FilteredThoughts(thoughts, activeCategory), thoughts)
    ensures multiset(FilteredThoughts(thoughts, activeCategory))[t]
         == if activeCategory == "all" || t.category == activeCategory then multiset(thoughts)[t] else 0
  {
    FilterIsSubsequence(thoughts, ShownUnder(activeCategory));
    FilterCounts(thoughts, ShownUnder(activeCategory), t);
  }

  /** A category that no thought of the list has shows an empty list. */
  lemma NoneOfCategory(thoughts: seq<Thought>, category: string)
    requires category != "all"
    requires forall i :: 0 <= i < |thoughts| ==> thoughts[i].category != category
    ensures FilteredThoughts(thoughts, category) == []
  {
    FilterNone(thoughts, ShownUnder(category));
  }

  /** A category held by exactly the thoughts at `lo` up to `hi` shows that stretch. */
  lemma CategoryInMiddle(thoughts: seq<Thought>, category: string, lo: nat, hi: nat)
    requires category != "all" && lo <= hi <= |thoughts|
    requires forall i :: 0 <= i < |thoughts| ==> (thoughts[i].category == category <==> lo <= i < hi)
    ensures FilteredThoughts(thoughts, category) == thoughts[lo..hi]
  {
    var a, b, c := thoughts[..lo], thoughts[lo..hi], thoughts[hi..];
    assert thoughts == a + b + c;
    FilterMiddle(a, b, c, ShownUnder(category));
  }

  /** A category held by exactly the thoughts before `lo` and from `hi` on shows those
      two stretches. */
  lemma CategoryAtEnds(thoughts: seq<Thought>, category: string, lo: nat, hi: nat)
    requires category != "all" && lo <= hi <= |thoughts|
    requires forall i :: 0 <= i < |thoughts| ==> (thoughts[i].category == category <==> i < lo || hi <= i)
    ensures FilteredThoughts(thoughts, category) == thoughts[..lo] + thoughts[hi..]
  {
    var a, b, c := thoughts[..lo], thoughts[lo..hi], thoughts[hi..];
    assert thoughts == a + b + c;
    FilterOuter(a, b, c, ShownUnder(category));
  }

  /** A thought whose category no button offers but 'all' is shown only under 'all'. */
  lemma OnlyUnderAll(thoughts: seq<Thought>, i: int, buttons: seq<string>)
    requires 0 <= i < |thoughts| && thoughts[i].category != "all"
    requires forall c :: c in buttons ==> c != thoughts[i].category
    ensures forall c :: c in buttons ==> (thoughts[i] in FilteredThoughts(thoughts, c) <==> c == "all")
  {
  }

  /** No thought has the category 'learning', so its button shows an empty list. */
  lemma LearningEmpty()
    ensures FilteredThoughts(AllThoughts, "learning") == []
  {
    NoneOfCategory(AllThoughts, "learning");
  }

  /** Thought 3 has the category 'technical', which no button offers: only 'all' shows it. */
  lemma Thought3OnlyUnderAll()
    ensures forall c :: c in CategoryIds ==> (AllThoughts[2] in FilteredThoughts(AllThoughts, c) <==> c == "all")
  {
    OnlyUnderAll(AllThoughts, 2, CategoryIds);
  }

  /** The Projects button shows thoughts 4 and 5. */
  lemma ProjectsContents()
    ensures FilteredThoughts(AllThoughts, "projects") == AllThoughts[3..5]
  {
    CategoryInMiddle(AllThoughts, "projects", 3, 5);
  }

  /** The Career button shows thoughts 1, 2 and 6. */
  lemma CareerContents()
    ensures FilteredThoughts(AllThoughts, "career") == AllThoughts[..2] + AllThoughts[5..]
  {
    CategoryAtEnds(AllThoughts, "career", 2, 5);
  }

  const BlueBadge := "bg-blue-500/20 text-blue-400"
  const YellowBadge := "bg-yellow-500/20 text-yellow-400"
  const GreenBadge := "bg-green-500/20 text-green-400"

  /** The status badge's colour classes. */
  function StatusBadge(status: string): (badge: string)
    ensures badge == BlueBadge <==> status == "In Progress"
    ensures badge == YellowBadge <==> status == "Planning"
    ensures badge == GreenBadge <==> status != "In Progress" && status != "Planning"
  {
    if status == "In Progress" then BlueBadge
    else if status == "Planning" then YellowBadge
    else GreenBadge
  }

  /** Every listed thought is in progress or planned, so no card shows a green badge. */
  lemma NoGreenBadge()
    ensures forall i :: 0 <= i < |AllThoughts| ==> StatusBadge(AllThoughts[i].status) != GreenBadge
  {
  }
}
