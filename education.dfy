/**
 * The education section: a two-tab selector choosing between the education
 * list and the achievements list, with the one-shot reveal flag and
 * staggered card delays.
 */
module Education {
  import opened Wrappers
  import Reveal

  datatype Tab = EducationTab | AchievementsTab

  /** Entries as the section's logic sees them: their key and their heading. */
  datatype EducationItem = EducationItem(id: nat, institution: string)
  datatype AchievementItem = AchievementItem(id: nat, title: string)

  const EducationData: seq<EducationItem> := [
    EducationItem(1, "Lovely Professional University"), EducationItem(2, "Indian Public School")
  ]
  const AchievementsData: seq<AchievementItem> := [
    AchievementItem(1, "Smart India Hackathon"), AchievementItem(2, "Community Development Project")
  ]

  /** The transition delay step of the cards in either list, in ms. */
  const StaggerStepMs: nat := 200

  /**
   * The two conditional blocks of the tab body: `activeTab === 'education'
   * && …` and `activeTab === 'achievements' && …`. `None` is a block that
   * renders nothing.
   */
  datatype TabBody = TabBody(
    education: Option<seq<Reveal.Staggered<EducationItem>>>,
    achievements: Option<seq<Reveal.Staggered<AchievementItem>>>)

  /**
   * What the tab body shows: exactly one of the two lists, the one the
   * active tab names, its i-th card delayed by `i * 200` ms.
   */
  function Body(tab: Tab): (body: TabBody)
    ensures body.education.Some? <==> tab == EducationTab
    ensures body.achievements.Some? <==> tab == AchievementsTab
    ensures body.education.Some? != body.achievements.Some?
    ensures body.education.Some? ==>
      |body.education.value| == |EducationData| &&
      forall i :: 0 <= i < |EducationData| ==>
        body.education.value[i] == Reveal.Staggered(EducationData[i], i * StaggerStepMs)
    ensures body.achievements.Some? ==>
      |body.achievements.value| == |AchievementsData| &&
      forall i :: 0 <= i < |AchievementsData| ==>
        body.achievements.value[i] == Reveal.Staggered(AchievementsData[i], i * StaggerStepMs)
  {
    TabBody(
      if tab == EducationTab then Some(Reveal.Stagger(EducationData, StaggerStepMs)) else None,
      if tab == AchievementsTab then Some(Reveal.Stagger(AchievementsData, StaggerStepMs)) else None)
  }

  class EducationSection {
    var activeTab: Tab
    var animated: bool

    /** On mount: the education tab, not yet revealed. */
    constructor ()
      ensures activeTab == EducationTab && !animated
    {
      activeTab := EducationTab;
      animated := false;
    }

    /** A tab button click (`setActiveTab`): the clicked tab becomes active; clicking the active tab changes nothing. */
    method SelectTab(tab: Tab)
      modifies this`activeTab
      ensures activeTab == tab
      ensures old(activeTab) == tab ==> unchanged(this)
    {
      activeTab := tab;
    }

    /** The section's intersection observer callback. */
    method OnIntersection(isIntersecting: bool)
      modifies this`animated
      ensures animated == Reveal.Observe(old(animated), isIntersecting)
    {
      if isIntersecting && !animated {
        animated := true;
      }
    }

    function Shown(): TabBody
      reads this
    {
      Body(activeTab)
    }
  }

  /** On mount the education list is shown; after a click on "Achievements" the achievements list is, and only it. */
  method SwitchToAchievements() returns (before: TabBody, after: TabBody)
    ensures before.education.Some? && before.achievements.None?
    ensures after.education.None? && after.achievements.Some?
    ensures |after.achievements.value| == |AchievementsData|
  {
    var section := new EducationSection();
    before := section.Shown();
    section.SelectTab(AchievementsTab);
    after := section.Shown();
  }
}
