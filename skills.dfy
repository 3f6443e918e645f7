/** The skills panel of the settings page: a grid of included skills with an
    on/off switch each, a list of excluded skills with remove buttons and an
    input that adds one, and a modal that reorders a working copy of the
    included skills by drag and drop. */
module Skills {
  import opened Options
  import opened Text
  import opened Seqs

  datatype IncludedSkill = IncludedSkill(name: string, active: bool)

  /** The four buttons of the priority modal. */
  datatype ModalButton = CloseIcon | Reset | Cancel | Save

  const InitialIncludedSkills: seq<IncludedSkill> := [
      IncludedSkill("API Development", true),
      IncludedSkill("API Integration", true),
      IncludedSkill("Android App Development", true),
      IncludedSkill("Apache", true),
      IncludedSkill("App Development", true),
      IncludedSkill("Backend Development", true),
      IncludedSkill("Blockchain", true),
      IncludedSkill("Bootstrap", true),
      IncludedSkill("Core PHP", true),
      IncludedSkill("Cryptocurrency", true),
      IncludedSkill("Database Development", true),
      IncludedSkill("Desktop Application", true),
      IncludedSkill("Electron JS", true),
      IncludedSkill("ERP Software", true),
      IncludedSkill("Express JS", true),
      IncludedSkill("Facebook Marketing", true),
      IncludedSkill("FastAPI", true),
      IncludedSkill("Figma", true),
      IncludedSkill("Full Stack Development", true),
      IncludedSkill("Git", true),
      IncludedSkill("Google Analytics", true),
      IncludedSkill("GraphQL", true),
      IncludedSkill("HTML", true),
      IncludedSkill("JavaScript", true),
      IncludedSkill("Machine Learning (ML)", true),
      IncludedSkill("MongoDB", true),
      IncludedSkill("MySQL", true),
      IncludedSkill("Next.js", true),
      IncludedSkill("Node.js", true),
      IncludedSkill("PHP", true),
      IncludedSkill("React Native", true),
      IncludedSkill("React.js", true),
      IncludedSkill("Redux.js", true),
      IncludedSkill("Shopify", true),
      IncludedSkill("Tailwind CSS", true),
      IncludedSkill("TypeScript", true),
      IncludedSkill("UI / User Interface", true),
      IncludedSkill("UX / User Experience", true),
      IncludedSkill("Vercel", true),
      IncludedSkill("Web Design", true),
      IncludedSkill("Web Development", true),
      IncludedSkill("WordPress", true),
      IncludedSkill("Zapier", true)
  ]

  const InitialExcludedSkills: seq<string> := ["Python", "C# Programming", "Java", "Oracle", "Moodle", "Sharepoint", "Mac OS X"]

  function SkillName(k: IncludedSkill): string
  {
    k.name
  }

  /** The names of the skills, in order. */
  function Names(s: seq<IncludedSkill>): (r: seq<string>)
    ensures |r| == |s| && forall i :: 0 <= i < |s| ==> r[i] == s[i].name
  {
    Map(s, SkillName)
  }

  /** toggleIncludedSkill's update: the switch at position idx flips, every
      other entry and every name stay as they were. */
  function ToggledAt(s: seq<IncludedSkill>, idx: int): (r: seq<IncludedSkill>)
    ensures |r| == |s| && Names(r) == Names(s)
    ensures forall i :: 0 <= i < |s| && i != idx ==> r[i] == s[i]
    ensures 0 <= idx < |s| ==> r[idx].active == !s[idx].active
  {
    var r := seq(|s|, i requires 0 <= i < |s| => if i == idx then s[i].(active := !s[i].active) else s[i]);
    assert Names(r) == Names(s);
    r
  }

  /** Flipping the same switch twice restores the list. */
  lemma ToggleTwiceIsIdentity(s: seq<IncludedSkill>, idx: int)
    ensures ToggledAt(ToggledAt(s, idx), idx) == s
  {
    var r := ToggledAt(ToggledAt(s, idx), idx);
    assert forall i :: 0 <= i < |s| ==> r[i] == s[i];
  }

  /** addExcludedSkill's update: the trimmed input at the end when it is not
      blank, the list as it was otherwise. */
  function WithExcluded(list: seq<string>, input: string): (r: seq<string>)
    ensures Trim(input) == [] ==> r == list
    ensures Trim(input) != [] ==> |r| == |list| + 1 && r[..|list|] == list && r[|list|] == Trim(input)
  {
    if Trim(input) != [] then list + [Trim(input)] else list
  }

  /** No duplicate check is made: an entry already on the list is added again. */
  lemma WithExcludedAllowsDuplicates(list: seq<string>, input: string)
    requires Trim(input) != [] && Trim(input) in list
    ensures multiset(WithExcluded(list, input))[Trim(input)] == multiset(list)[Trim(input)] + 1
  {
  }

  /** Array.prototype.findIndex on the names: the first position holding the
      name, or -1 when none does. */
  function FindIndex(s: seq<IncludedSkill>, name: string): (r: int)
    ensures -1 <= r < |s|
    ensures r == -1 <==> name !in Names(s)
    ensures r >= 0 ==> s[r].name == name && forall i :: 0 <= i < r ==> s[i].name != name
  {
    if s == [] then -1
    else if s[0].name == name then 0
    else
      var k := FindIndex(s[1..], name);
      assert forall i :: 1 <= i < |s| ==> Names(s)[i] == Names(s[1..])[i - 1];
      if k == -1 then -1 else k + 1
  }

  /** The names of a reordered list are the names of the original, reordered
      the same way, so no name is lost or repeated. */
  lemma NamesOfMove(s: seq<IncludedSkill>, from: int, to: int)
    requires 0 <= from < |s| && 0 <= to < |s|
    ensures multiset(Names(ArrayMove(s, from, to))) == multiset(Names(s))
  {
    MapArrayMove(s, SkillName, from, to);
  }

  class SkillsSettings {
    const initialIncludedSkills: seq<IncludedSkill>
    var includedSkills: seq<IncludedSkill>
    var excludedSkills: seq<string>
    var showProjects: bool
    var newExcludedSkill: string
    var isPriorityModalOpen: bool
    var prioritizedSkills: seq<IncludedSkill>

    /** The included skills and their working copy carry the initial names,
        each as often as at the start: toggles, drags, resets and saves only
        reorder them or flip switches. */
    predicate Valid()
      reads this
    {
      multiset(Names(includedSkills)) == multiset(Names(initialIncludedSkills))
      && multiset(Names(prioritizedSkills)) == multiset(Names(initialIncludedSkills))
    }

    constructor ()
      ensures Valid()
      ensures initialIncludedSkills == InitialIncludedSkills && includedSkills == InitialIncludedSkills
      ensures excludedSkills == InitialExcludedSkills && prioritizedSkills == InitialIncludedSkills
      ensures !showProjects && newExcludedSkill == "" && !isPriorityModalOpen
    {
      initialIncludedSkills := InitialIncludedSkills;
      includedSkills := InitialIncludedSkills;
      excludedSkills := InitialExcludedSkills;
      showProjects := false;
      newExcludedSkill := "";
      isPriorityModalOpen := false;
      prioritizedSkills := InitialIncludedSkills;
    }

    /** toggleIncludedSkill. */
    method ToggleIncludedSkill(idx: int)
      requires Valid()
      modifies this`includedSkills
      ensures Valid() && includedSkills == ToggledAt(old(includedSkills), idx)
    {
      includedSkills := ToggledAt(includedSkills, idx);
    }

    /** removeExcludedSkill: every entry except the one at idx, in order. */
    method RemoveExcludedSkill(idx: int)
      requires Valid()
      modifies this`excludedSkills
      ensures Valid() && excludedSkills == RemoveAt(old(excludedSkills), idx)
    {
      excludedSkills := RemoveAt(excludedSkills, idx);
    }

    method SetNewExcludedSkill(v: string)
      requires Valid()
      modifies this`newExcludedSkill
      ensures Valid() && newExcludedSkill == v
    {
      newExcludedSkill := v;
    }

    /** addExcludedSkill: a non-blank input is added trimmed and the input is
        cleared; a blank one changes nothing. */
    method AddExcludedSkill()
      requires Valid()
      modifies this`excludedSkills, this`newExcludedSkill
      ensures Valid()
      ensures excludedSkills == WithExcluded(old(excludedSkills), old(newExcludedSkill))
      ensures Trim(old(newExcludedSkill)) == [] ==> unchanged(this)
      ensures Trim(old(newExcludedSkill)) != [] ==> |newExcludedSkill| == 0
    {
      if Trim(newExcludedSkill) != [] {
        excludedSkills := WithExcluded(excludedSkills, newExcludedSkill);
        newExcludedSkill := "";
      }
    }

    method ToggleShowProjects()
      requires Valid()
      modifies this`showProjects
      ensures Valid() && showProjects == !old(showProjects)
    {
      showProjects := !showProjects;
    }

    /** openPriorityModal: the working copy starts as the current order. */
    method OpenPriorityModal()
      requires Valid()
      modifies this`prioritizedSkills, this`isPriorityModalOpen
      ensures Valid() && prioritizedSkills == includedSkills && isPriorityModalOpen
    {
      prioritizedSkills := includedSkills;
      isPriorityModalOpen := true;
    }

    /** closePriorityModal. */
    method ClosePriorityModal()
      requires Valid()
      modifies this`isPriorityModalOpen
      ensures Valid() && !isPriorityModalOpen
    {
      isPriorityModalOpen := false;
    }

    /** resetPriorities: the working copy goes back to the initial order. */
    method ResetPriorities()
      requires Valid()
      modifies this`prioritizedSkills
      ensures Valid() && prioritizedSkills == initialIncludedSkills
    {
      prioritizedSkills := initialIncludedSkills;
    }

    /** savePriorities: the working copy becomes the included skills and the
        modal closes. */
    method SavePriorities()
      requires Valid()
      modifies this`includedSkills, this`isPriorityModalOpen
      ensures Valid() && includedSkills == prioritizedSkills && !isPriorityModalOpen
    {
      includedSkills := prioritizedSkills;
      isPriorityModalOpen := false;
    }

    /** handleDragEnd: nothing happens without a drop target or when a skill is
        dropped on itself; otherwise the dragged skill moves to the position of
        the skill it was dropped on. The ids dnd-kit reports are names of
        skills in the working copy. */
    method HandleDragEnd(activeId: string, overId: Option<string>)
      requires Valid() && isPriorityModalOpen
      requires activeId in Names(prioritizedSkills)
      requires overId.Some? ==> overId.value in Names(prioritizedSkills)
      modifies this`prioritizedSkills
      ensures Valid()
      ensures overId.None? || overId.value == activeId ==> prioritizedSkills == old(prioritizedSkills)
      ensures overId.Some? && overId.value != activeId ==>
        prioritizedSkills == ArrayMove(old(prioritizedSkills), FindIndex(old(prioritizedSkills), activeId),
                                       FindIndex(old(prioritizedSkills), overId.value))
    {
      if overId.None? || activeId == overId.value {
        return;
      }
      var s := prioritizedSkills;
      var oldIndex := FindIndex(s, activeId);
      var newIndex := FindIndex(s, overId.value);
      var moved := ArrayMove(s, oldIndex, newIndex);
      NamesOfMove(s, oldIndex, newIndex);
      assert multiset(Names(moved)) == multiset(Names(initialIncludedSkills));
      prioritizedSkills := moved;
    }

    /** The modal's buttons as they are wired: Reset calls resetPriorities,
        and the close icon, Cancel and Save all call closePriorityModal. No
        button changes the included skills. */
    method PressModalButton(b: ModalButton)
      requires Valid()
      modifies this`prioritizedSkills, this`isPriorityModalOpen
      ensures Valid()
      ensures b == Reset ==> prioritizedSkills == initialIncludedSkills && isPriorityModalOpen == old(isPriorityModalOpen)
      ensures b != Reset ==> prioritizedSkills == old(prioritizedSkills) && !isPriorityModalOpen
    {
      if b == Reset {
        ResetPriorities();
      } else {
        ClosePriorityModal();
      }
    }

    /** The wiring the code evidently intends: Save calls savePriorities. */
    method PressModalButtonIntended(b: ModalButton)
      requires Valid()
      modifies this`includedSkills, this`prioritizedSkills, this`isPriorityModalOpen
      ensures Valid()
      ensures b == Reset ==> prioritizedSkills == initialIncludedSkills && unchanged(this`includedSkills, this`isPriorityModalOpen)
      ensures b == Save ==> includedSkills == old(prioritizedSkills) && prioritizedSkills == old(prioritizedSkills) && !isPriorityModalOpen
      ensures b == Cancel || b == CloseIcon ==> unchanged(this`includedSkills, this`prioritizedSkills) && !isPriorityModalOpen
    {
      if b == Reset {
        ResetPriorities();
      } else if b == Save {
        SavePriorities();
      } else {
        ClosePriorityModal();
      }
    }

    /** Reordering and then pressing Save, as wired: the dialog closes and the
        included skills keep their old order, which now differs from the order
        shown in the dialog. */
    method DragThenSaveAsWritten(activeId: string, overId: string)
      requires Valid() && isPriorityModalOpen && prioritizedSkills == includedSkills
      requires activeId in Names(prioritizedSkills) && overId in Names(prioritizedSkills) && activeId != overId
      modifies this`prioritizedSkills, this`isPriorityModalOpen
      ensures includedSkills == old(includedSkills) && prioritizedSkills != includedSkills && !isPriorityModalOpen
    {
      var before := prioritizedSkills;
      HandleDragEnd(activeId, Some(overId));
      var moved := prioritizedSkills;
      ArrayMoveChangesOrder(before, FindIndex(before, activeId), FindIndex(before, overId));
      assert moved != before;
      PressModalButton(Save);
      assert prioritizedSkills == moved && includedSkills == before;
    }

    /** The same steps with the intended wiring: the new order is kept. */
    method DragThenSaveIntended(activeId: string, overId: string)
      requires Valid() && isPriorityModalOpen && prioritizedSkills == includedSkills
      requires activeId in Names(prioritizedSkills) && overId in Names(prioritizedSkills) && activeId != overId
      modifies this`includedSkills, this`prioritizedSkills, this`isPriorityModalOpen
      ensures includedSkills == prioritizedSkills && includedSkills != old(includedSkills) && !isPriorityModalOpen
    {
      var before := prioritizedSkills;
      HandleDragEnd(activeId, Some(overId));
      ArrayMoveChangesOrder(before, FindIndex(before, activeId), FindIndex(before, overId));
      PressModalButtonIntended(Save);
    }
  }
}
