/**
 * The projects section's detail modal: a single slot holding the project
 * whose details are shown (or nothing), opened from a card's "View Details"
 * button and closed by its close button or by a click on the backdrop. While
 * it is open the page behind it does not scroll.
 */
module Projects {
  import opened Wrappers

  /** A project as the modal sees it: its key and its title (the other display fields carry no behaviour). */
  datatype Project = Project(id: nat, title: string)

  /** `document.body.style.overflow`: untouched by this section until the first open, then `'hidden'` or `'auto'`. */
  datatype Overflow = Unset | Hidden | Auto

  /** Where a click on the modal overlay landed: inside the content box (`modalRef`) or on the backdrop around it. */
  datatype ClickTarget = InsideContent | Backdrop

  class ProjectsSection {
    var activeProject: Option<Project>
    ghost var bodyOverflow: Overflow

    /** Background scrolling is suppressed exactly while a modal is open. */
    ghost predicate Valid()
      reads this
    {
      activeProject.Some? <==> bodyOverflow == Hidden
    }

    /** On mount no modal is open and the body's overflow is untouched. */
    constructor ()
      ensures Valid()
      ensures activeProject == None && bodyOverflow == Unset
    {
      activeProject := None;
      bodyOverflow := Unset;
    }

    /**
     * `openModal(p)`: `p` becomes the one project shown, replacing any
     * project shown before, and the page stops scrolling.
     */
    method OpenModal(p: Project)
      modifies this
      ensures Valid()
      ensures activeProject == Some(p) && bodyOverflow == Hidden
    {
      activeProject := Some(p);
      bodyOverflow := Hidden;
    }

    /** `closeModal()`: from any state, no modal is shown and scrolling is restored. */
    method CloseModal()
      modifies this
      ensures Valid()
      ensures activeProject == None && bodyOverflow == Auto
    {
      activeProject := None;
      bodyOverflow := Auto;
    }

    /**
     * `handleModalClick`, the overlay's click handler (the overlay, and so
     * the handler, exist only while a modal is open): a click on the
     * backdrop closes the modal, a click inside the content changes nothing.
     */
    method HandleModalClick(target: ClickTarget)
      requires Valid() && activeProject.Some?
      modifies this
      ensures Valid()
      ensures target == Backdrop ==> activeProject == None && bodyOverflow == Auto
      ensures target == InsideContent ==> activeProject == old(activeProject) && bodyOverflow == old(bodyOverflow)
    {
      if target == Backdrop {
        CloseModal();
      }
    }
  }

  /**
   * Opening `a` and then `b` leaves `b` as the one open project; closing
   * then leaves none, and closing again changes nothing.
   */
  method OpenTwiceThenCloseTwice(a: Project, b: Project) returns (shown: Option<Project>, afterClose: Option<Project>, afterSecondClose: Option<Project>)
    ensures shown == Some(b)
    ensures afterClose == None && afterSecondClose == None
  {
    var section := new ProjectsSection();
    section.OpenModal(a);
    section.OpenModal(b);
    shown := section.activeProject;
    section.CloseModal();
    afterClose := section.activeProject;
    section.CloseModal();
    afterSecondClose := section.activeProject;
    assert section.bodyOverflow == Auto;
  }

  /** A click inside the content keeps the modal open on the same project; a backdrop click then closes it. */
  method ClickInsideThenOutside(p: Project) returns (afterInside: Option<Project>, afterBackdrop: Option<Project>)
    ensures afterInside == Some(p)
    ensures afterBackdrop == None
  {
    var section := new ProjectsSection();
    section.OpenModal(p);
    section.HandleModalClick(InsideContent);
    afterInside := section.activeProject;
    section.HandleModalClick(Backdrop);
    afterBackdrop := section.activeProject;
  }
}
