/** The freelancer profiles page: a searchable list of profiles and the edit
    dialog's checklist of applicable skills. */
module Profiles {
  import opened Text
  import opened Seqs

  datatype Profile = Profile(id: int, title: string, skills: string)

  const SeedProfiles: seq<Profile> := [
    Profile(1, "CMS Developer", "WordPress, Shopify Development, WordPress Plugin, Wix"),
    Profile(2, "MERN Stack Expert", "node.js, Next.js, React.js"),
    Profile(3, "LAMP Stack Expert", "PHP, Core PHP, Laravel, WordPress, WordPress Plugin")
  ]

  /** The skills the edit dialog offers. */
  const AllSkills: seq<string> := [
    "Blog Design", "CMS", "Core PHP", "CSS", "Elementor", "HTML", "Landing Pages",
    "Laravel", "Mobile App Development", "MySQL", "PSD to HTML", "React.js",
    "Shopify", "Shopify Development", "Shopify Templates", "Squarespace",
    "Website Design", "Wix", "WordPress", "WordPress Design", "WordPress Multilingual",
    "WordPress Plugin", "Next.js", "Node.js", "PHP"
  ]

  /** No offered skill is listed twice. */
  lemma AllSkillsDistinct()
    ensures NoDuplicates(AllSkills)
  {
    var s := AllSkills;
    forall i, j | 0 <= i < j < |s| ensures s[i] != s[j] {
    }
  }

  /** The skills the dialog starts with checked. */
  const InitialSelectedSkills: seq<string> := ["Shopify Development", "WordPress Plugin", "Wix", "WordPress"]

  /** The lower-cased title or the lower-cased skills contain the lower-cased term. */
  predicate ProfileMatches(term: string, p: Profile)
  {
    ContainsIgnoringCase(p.title, term) || ContainsIgnoringCase(p.skills, term)
  }

  function ProfileTest(term: string): Profile -> bool
  {
    p => ProfileMatches(term, p)
  }

  /** filteredProfiles: the matching profiles in list order; the empty term
      keeps them all. */
  function FilterProfiles(profiles: seq<Profile>, term: string): (r: seq<Profile>)
    ensures Subsequence(r, profiles)
    ensures forall p :: p in r <==> p in profiles && ProfileMatches(term, p)
    ensures term == "" ==> r == profiles
  {
    FilterIsSubsequence(profiles, ProfileTest(term));
    if term == "" then
      forall p | p in profiles ensures ProfileTest(term)(p) {
        ContainsEmpty(Lower(p.title));
      }
      FilterAll(profiles, ProfileTest(term));
      Filter(profiles, ProfileTest(term))
    else
      Filter(profiles, ProfileTest(term))
  }

  function OtherThan(skill: string): string -> bool
  {
    s => s != skill
  }

  /** toggleSkill's update. A checked skill is removed, every occurrence of
      it; an unchecked one is appended. Every other skill keeps its place. */
  function Toggled(selected: seq<string>, skill: string): (r: seq<string>)
    ensures skill in r <==> skill !in selected
    ensures forall x :: x != skill ==> (x in r <==> x in selected)
    ensures skill in selected ==> Subsequence(r, selected)
    ensures skill !in selected ==> r == selected + [skill]
    ensures NoDuplicates(selected) ==> NoDuplicates(r)
  {
    if skill in selected then
      FilterIsSubsequence(selected, OtherThan(skill));
      FilterKeepsNoDuplicates(selected, OtherThan(skill));
      Filter(selected, OtherThan(skill))
    else
      selected + [skill]
  }

  lemma {:induction false} FilterKeepsNoDuplicates(s: seq<string>, p: string -> bool)
    ensures NoDuplicates(s) ==> NoDuplicates(Filter(s, p))
  {
    if s != [] && NoDuplicates(s) {
      var tail := s[1..];
      assert NoDuplicates(tail) by {
        forall i, j | 0 <= i < j < |tail| ensures tail[i] != tail[j] {
          assert tail[i] == s[i + 1] && tail[j] == s[j + 1];
        }
      }
      FilterKeepsNoDuplicates(tail, p);
      var rest := Filter(tail, p);
      if p(s[0]) {
        var r := [s[0]] + rest;
        forall i, j | 0 <= i < j < |r| ensures r[i] != r[j] {
          if i == 0 {
            var k :| 0 <= k < |tail| && tail[k] == rest[j - 1];
            assert s[k + 1] == r[j];
          } else {
            assert r[i] == rest[i - 1] && r[j] == rest[j - 1];
          }
        }
        assert Filter(s, p) == r;
      } else {
        assert Filter(s, p) == rest;
      }
    }
  }

  /** Checking an unchecked skill and unchecking it again restores the selection. */
  lemma ToggleTwiceRestores(selected: seq<string>, skill: string)
    requires skill !in selected
    ensures Toggled(Toggled(selected, skill), skill) == selected
  {
    FilterAppend(selected, [skill], OtherThan(skill));
    FilterAll(selected, OtherThan(skill));
    assert Filter([skill], OtherThan(skill)) == [];
  }

  /** The profile list and its search box. */
  class FreelancerProfiles {
    const profiles: seq<Profile>
    var searchTerm: string
    var isEditOpen: bool

    constructor ()
      ensures profiles == SeedProfiles && searchTerm == "" && !isEditOpen
    {
      profiles := SeedProfiles;
      searchTerm := "";
      isEditOpen := false;
    }

    function FilteredProfiles(): (r: seq<Profile>)
      reads this
      ensures forall p :: p in r <==> p in profiles && ProfileMatches(searchTerm, p)
      ensures searchTerm == "" ==> r == profiles
    {
      FilterProfiles(profiles, searchTerm)
    }

    method SetSearchTerm(term: string)
      modifies this`searchTerm
      ensures searchTerm == term
    {
      searchTerm := term;
    }

    /** The edit buttons open the dialog. */
    method OpenEdit()
      modifies this`isEditOpen
      ensures isEditOpen
    {
      isEditOpen := true;
    }

    /** The dialog's onClose closes it. */
    method CloseEdit()
      modifies this`isEditOpen
      ensures !isEditOpen
    {
      isEditOpen := false;
    }
  }

  /** The edit dialog's skill checklist. Its selection never repeats a skill. */
  class EditFreelancerProfileModal {
    const allSkills: seq<string>
    var selectedSkills: seq<string>

    predicate Valid()
      reads this
    {
      NoDuplicates(allSkills) && NoDuplicates(selectedSkills)
    }

    constructor ()
      ensures Valid() && allSkills == AllSkills && selectedSkills == InitialSelectedSkills
    {
      allSkills := AllSkills;
      selectedSkills := InitialSelectedSkills;
      AllSkillsDistinct();
    }

    /** toggleSkill. */
    method ToggleSkill(skill: string)
      requires Valid()
      modifies this`selectedSkills
      ensures Valid() && selectedSkills == Toggled(old(selectedSkills), skill)
    {
      selectedSkills := Toggled(selectedSkills, skill);
    }

    /** checkAll: every offered skill, in the offered order. */
    method CheckAll()
      requires Valid()
      modifies this`selectedSkills
      ensures Valid() && selectedSkills == allSkills
    {
      selectedSkills := allSkills;
    }

    /** uncheckAll: nothing selected. */
    method UncheckAll()
      requires Valid()
      modifies this`selectedSkills
      ensures Valid() && |selectedSkills| == 0
    {
      selectedSkills := [];
    }
  }
}
