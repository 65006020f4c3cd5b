/**
 * The skills section: a static list of skills, each in one of three
 * categories, shown through a four-valued filter (all, or one category),
 * with the one-shot reveal flag.
 */
module Skills {
  import Reveal

  datatype Category = Language | Framework | Tool

  /** The filter buttons: `'all'`, or one of the three categories. */
  datatype Filter = All | Only(category: Category)

  /** A skill as the filter sees it: its name (the list key) and its category. */
  datatype Skill = Skill(name: string, category: Category)

  /** The section's static list, in display order: three languages, three frameworks, three tools. */
  const Catalog: seq<Skill> := Languages + Frameworks + Tools

  const Languages: seq<Skill> := [Skill("C++", Language), Skill("Java", Language), Skill("JavaScript", Language)]
  const Frameworks: seq<Skill> := [Skill("Node.js", Framework), Skill("React", Framework), Skill("Bootstrap", Framework)]
  const Tools: seq<Skill> := [Skill("MongoDB", Tool), Skill("MySQL", Tool), Skill("GitHub", Tool)]

  /** The transition delay step of the skill cards, in ms. */
  const StaggerStepMs: nat := 100

  /**
   * `skills.filter(skill => skill.category === c)`: every skill it returns
   * has category `c`; `OfCategoryCounts` and `OfCategoryMembers` state that
   * nothing of category `c` is lost.
   */
  function OfCategory(c: Category, skills: seq<Skill>): (r: seq<Skill>)
    ensures |r| <= |skills|
    ensures forall k :: 0 <= k < |r| ==> r[k].category == c
  {
    if skills == [] then []
    else
      assert skills == [skills[0]] + skills[1..];
      (if skills[0].category == c then [skills[0]] else []) + OfCategory(c, skills[1..])
  }

  /** Completeness counted with multiplicity: each skill of category `c` appears as often as in the list. */
  lemma {:induction false} OfCategoryCounts(c: Category, skills: seq<Skill>, x: Skill)
    ensures multiset(OfCategory(c, skills))[x] == if x.category == c then multiset(skills)[x] else 0
    decreases |skills|
  {
    if skills != [] {
      OfCategoryCounts(c, skills[1..], x);
      var head := if skills[0].category == c then [skills[0]] else [];
      var rest := OfCategory(c, skills[1..]);
      assert OfCategory(c, skills) == head + rest;
      assert multiset(head + rest) == multiset(head) + multiset(rest);
      assert skills == [skills[0]] + skills[1..];
      assert multiset(skills) == multiset([skills[0]]) + multiset(skills[1..]);
    }
  }

  /** The skills the filter returns are exactly the skills of category `c` in the list. */
  lemma OfCategoryMembers(c: Category, skills: seq<Skill>)
    ensures forall x :: x in OfCategory(c, skills) <==> x in skills && x.category == c
  {
    forall x {
      OfCategoryCounts(c, skills, x);
    }
  }

  /** The list the effect installs for `filter`: everything for `All`, else the skills of that category. */
  function Visible(filter: Filter, skills: seq<Skill>): (r: seq<Skill>)
    ensures filter == All ==> r == skills
    ensures filter.Only? ==> |r| <= |skills| && forall k :: 0 <= k < |r| ==> r[k].category == filter.category
  {
    match filter
    case All => skills
    case Only(c) => OfCategory(c, skills)
  }

  /** `xs` is `ys` with some entries left out and the rest in their original order. */
  predicate IsSubsequence<T(==)>(xs: seq<T>, ys: seq<T>)
    decreases |ys|
  {
    if xs == [] then true
    else if ys == [] then false
    else if xs[0] == ys[0] then IsSubsequence(xs[1..], ys[1..])
    else IsSubsequence(xs, ys[1..])
  }

  lemma {:induction false} SubsequenceOfSelf<T>(ys: seq<T>)
    ensures IsSubsequence(ys, ys)
    decreases |ys|
  {
    if ys != [] {
      SubsequenceOfSelf(ys[1..]);
    }
  }

  /** Filtering keeps the relative order of the skills it keeps. */
  lemma {:induction false} FilterPreservesOrder(filter: Filter, skills: seq<Skill>)
    ensures IsSubsequence(Visible(filter, skills), skills)
    decreases |skills|
  {
    match filter
    case All => SubsequenceOfSelf(skills);
    case Only(c) =>
      if skills != [] {
        FilterPreservesOrder(filter, skills[1..]);
        var rest := OfCategory(c, skills[1..]);
        if skills[0].category == c {
          assert OfCategory(c, skills) == [skills[0]] + rest;
          assert ([skills[0]] + rest)[1..] == rest;
        } else {
          assert OfCategory(c, skills) == rest;
          if rest != [] {
            assert rest[0].category == c;
          }
        }
      }
  }

  /**
   * Every skill has exactly one category, so the three category filters
   * split the list: their sizes add up to the size of the whole list.
   */
  lemma {:induction false} CategoriesPartition(skills: seq<Skill>)
    ensures |OfCategory(Language, skills)| + |OfCategory(Framework, skills)| + |OfCategory(Tool, skills)| == |skills|
  {
    if skills != [] {
      CategoriesPartition(skills[1..]);
    }
  }

  /** Filtering a concatenation filters each part. */
  lemma {:induction false} OfCategoryAppend(c: Category, xs: seq<Skill>, ys: seq<Skill>)
    ensures OfCategory(c, xs + ys) == OfCategory(c, xs) + OfCategory(c, ys)
    decreases |xs|
  {
    if xs != [] {
      var head := if xs[0].category == c then [xs[0]] else [];
      assert (xs + ys)[0] == xs[0];
      assert (xs + ys)[1..] == xs[1..] + ys;
      assert OfCategory(c, xs + ys) == head + OfCategory(c, xs[1..] + ys);
      OfCategoryAppend(c, xs[1..], ys);
      var a, b := OfCategory(c, xs[1..]), OfCategory(c, ys);
      assert OfCategory(c, xs) == head + a;
      assert head + (a + b) == (head + a) + b;
    } else {
      assert xs + ys == ys;
    }
  }

  /** All skills of `xs` have category `d`. */
  predicate AllOf(d: Category, xs: seq<Skill>) {
    forall k :: 0 <= k < |xs| ==> xs[k].category == d
  }

  /** A block of skills that share one category is kept whole or dropped whole. */
  lemma {:induction false} OfCategoryUniform(c: Category, d: Category, xs: seq<Skill>)
    requires AllOf(d, xs)
    ensures OfCategory(c, xs) == if c == d then xs else []
    decreases |xs|
  {
    if xs != [] {
      var rest := xs[1..];
      assert forall k :: 0 <= k < |rest| ==> rest[k] == xs[k + 1];
      assert AllOf(d, rest);
      OfCategoryUniform(c, d, rest);
      assert xs == [xs[0]] + rest;
    }
  }

  /** Filtering a list made of a language block, a framework block and a tool block keeps exactly one block. */
  lemma BlocksFilter(c: Category, xs: seq<Skill>, ys: seq<Skill>, zs: seq<Skill>)
    requires AllOf(Language, xs) && AllOf(Framework, ys) && AllOf(Tool, zs)
    ensures OfCategory(c, xs + ys + zs) == match c case Language => xs case Framework => ys case Tool => zs
  {
    OfCategoryUniform(c, Language, xs);
    OfCategoryUniform(c, Framework, ys);
    OfCategoryUniform(c, Tool, zs);
    OfCategoryAppend(c, xs, ys);
    OfCategoryAppend(c, xs + ys, zs);
  }

  /** The static list has three skills in each category, and the category filters return its three blocks. */
  lemma CatalogHasThreePerCategory()
    ensures Visible(Only(Language), Catalog) == Languages && |Languages| == 3
    ensures Visible(Only(Framework), Catalog) == Frameworks && |Frameworks| == 3
    ensures Visible(Only(Tool), Catalog) == Tools && |Tools| == 3
    ensures |Visible(All, Catalog)| == 9
  {
    assert AllOf(Language, Languages) && AllOf(Framework, Frameworks) && AllOf(Tool, Tools);
    BlocksFilter(Language, Languages, Frameworks, Tools);
    BlocksFilter(Framework, Languages, Frameworks, Tools);
    BlocksFilter(Tool, Languages, Frameworks, Tools);
  }

  class SkillsSection {
    var activeFilter: Filter
    var visibleSkills: seq<Skill>
    var animated: bool

    /** The list on screen is always the one the active filter selects. */
    ghost predicate Valid()
      reads this
    {
      visibleSkills == Visible(activeFilter, Catalog)
    }

    /** On mount: filter `'all'`, every skill shown, not yet revealed. */
    constructor ()
      ensures Valid()
      ensures activeFilter == All && visibleSkills == Catalog && !animated
    {
      activeFilter := All;
      visibleSkills := Catalog;
      animated := false;
    }

    /**
     * A filter button click (`setActiveFilter`) followed by the effect that
     * recomputes `visibleSkills` for the new filter.
     */
    method SelectFilter(filter: Filter)
      requires Valid()
      modifies this`activeFilter, this`visibleSkills
      ensures Valid()
      ensures activeFilter == filter
      ensures visibleSkills == Visible(filter, Catalog)
    {
      activeFilter := filter;
      visibleSkills := Visible(filter, Catalog);
    }

    /** The cards on screen: the visible skills with their staggered delays. */
    function Cards(): (cards: seq<Reveal.Staggered<Skill>>)
      reads this
      ensures |cards| == |visibleSkills|
      ensures forall i :: 0 <= i < |cards| ==> cards[i].item == visibleSkills[i] && cards[i].delayMs == i * StaggerStepMs
    {
      Reveal.Stagger(visibleSkills, StaggerStepMs)
    }

    /** The section's intersection observer callback. */
    method OnIntersection(isIntersecting: bool)
      modifies this`animated
      ensures animated == Reveal.Observe(old(animated), isIntersecting)
    {
      if isIntersecting && !animated {
        animated := true;
      }
    }
  }

  /** Choosing a category shows exactly that category's skills, in catalogue order; choosing `'all'` again restores the list. */
  method FilterThenShowAll(c: Category) returns (filtered: seq<Skill>, restored: seq<Skill>)
    ensures forall x :: x in filtered <==> x in Catalog && x.category == c
    ensures IsSubsequence(filtered, Catalog)
    ensures restored == Catalog
  {
    var section := new SkillsSection();
    section.SelectFilter(Only(c));
    filtered := section.visibleSkills;
    section.SelectFilter(All);
    restored := section.visibleSkills;
    OfCategoryMembers(c, Catalog);
    FilterPreservesOrder(Only(c), Catalog);
  }
}
