/** The skill-set table of the settings page: a list of named skill sets with
    a search box, a page-size selector, a previous/next page cursor and a modal
    form that adds or edits one entry. */
module Skillsets {
  import opened Options
  import opened Text
  import opened Seqs
  import Paging

  datatype Skillset = Skillset(id: int, name: string, skills: string)

  datatype ModalMode = Add | Edit

  datatype PageDirection = Prev | Next

  /** What an entry saved with blank skills shows instead. */
  const NoSkillsListed := "No skills listed"

  /** The page sizes the selector offers. */
  const PageSizes: set<int> := {10, 20, 30}

  /** No two entries share an id. */
  predicate UniqueIds(items: seq<Skillset>)
  {
    forall i, j :: 0 <= i < j < |items| ==> items[i].id != items[j].id
  }

  // ---------------------------------------------------------------------------
  // Search

  /** The lower-cased name or the lower-cased skills contain the lower-cased term. */
  predicate Matches(term: string, item: Skillset)
  {
    ContainsIgnoringCase(item.name, term) || ContainsIgnoringCase(item.skills, term)
  }

  function MatchTest(term: string): Skillset -> bool
  {
    item => Matches(term, item)
  }

  /** filteredSkillsets: the entries the search term matches, in table order;
      the empty term matches every entry. */
  function Search(items: seq<Skillset>, term: string): (r: seq<Skillset>)
    ensures Subsequence(r, items)
    ensures forall x :: x in r <==> x in items && Matches(term, x)
    ensures term == "" ==> r == items
  {
    FilterIsSubsequence(items, MatchTest(term));
    if term == "" then
      forall x | x in items ensures MatchTest(term)(x) {
        ContainsEmpty(Lower(x.name));
      }
      FilterAll(items, MatchTest(term));
      Filter(items, MatchTest(term))
    else
      Filter(items, MatchTest(term))
  }

  // ---------------------------------------------------------------------------
  // Page cursor

  function Max(a: int, b: int): int
  {
    if a >= b then a else b
  }

  /** handlePageChange: 'prev' steps back unless on page 1, 'next' steps
      forward unless on the last page. A page between 1 and max(1, totalPages)
      stays in that range. */
  function PageStep(page: int, dir: PageDirection, totalPages: int): (r: int)
    ensures dir == Prev ==> (if page > 1 then r == page - 1 else r == page)
    ensures dir == Next ==> (if page < totalPages then r == page + 1 else r == page)
    ensures 1 <= page <= Max(1, totalPages) ==> 1 <= r <= Max(1, totalPages)
  {
    match dir
    case Prev => if page > 1 then page - 1 else page
    case Next => if page < totalPages then page + 1 else page
  }

  // ---------------------------------------------------------------------------
  // Editing the list

  /** skillsField.trim() || 'No skills listed'. */
  function SkillsText(field: string): (r: string)
    ensures Trim(field) != [] ==> r == Trim(field)
    ensures Trim(field) == [] ==> r == NoSkillsListed
    ensures r != []
  {
    var t := Trim(field);
    if t != [] then t else NoSkillsListed
  }

  /** The greatest id in a non-empty list. */
  function MaxId(items: seq<Skillset>): (r: int)
    requires items != []
    ensures forall i :: 0 <= i < |items| ==> items[i].id <= r
    ensures exists i :: 0 <= i < |items| && items[i].id == r
  {
    if |items| == 1 then items[0].id
    else
      var m := MaxId(items[1..]);
      assert forall i :: 1 <= i < |items| ==> items[i] == items[1..][i - 1];
      if items[0].id >= m then items[0].id else m
  }

  /** The id a new entry receives: one more than the greatest id, or 1 for an
      empty list. It is larger than every id in use. */
  function NextId(items: seq<Skillset>): (r: int)
    ensures forall i :: 0 <= i < |items| ==> items[i].id < r
    ensures items != [] ==> exists i :: 0 <= i < |items| && items[i].id == r - 1
    ensures items == [] ==> r == 1
  {
    if items != [] then MaxId(items) + 1 else 1
  }

  /** The list after the add form is submitted: one entry more, at the end,
      with a fresh id, the trimmed name and the skills text. */
  function Added(items: seq<Skillset>, nameField: string, skillsField: string): (r: seq<Skillset>)
    ensures |r| == |items| + 1 && r[..|items|] == items
    ensures r[|items|].id == NextId(items)
    ensures forall i :: 0 <= i < |items| ==> r[|items|].id != items[i].id
    ensures r[|items|].name == Trim(nameField) && r[|items|].skills == SkillsText(skillsField)
    ensures UniqueIds(items) ==> UniqueIds(r)
  {
    items + [Skillset(NextId(items), Trim(nameField), SkillsText(skillsField))]
  }

  /** The list after the edit form is submitted for the entry with id `id`,
      given the trimmed name and the skills text: that entry (every entry with
      that id) takes them, and nothing else changes. */
  function Edited(items: seq<Skillset>, id: int, name: string, skills: string): (r: seq<Skillset>)
    ensures |r| == |items|
    ensures forall i :: 0 <= i < |items| ==> r[i].id == items[i].id
    ensures forall i :: 0 <= i < |items| && items[i].id != id ==> r[i] == items[i]
    ensures forall i :: 0 <= i < |items| && items[i].id == id ==> r[i].name == name && r[i].skills == skills
    ensures UniqueIds(items) ==> UniqueIds(r)
  {
    seq(|items|, i requires 0 <= i < |items| =>
      if items[i].id == id then items[i].(name := name, skills := skills) else items[i])
  }

  /** The list after the form is submitted: unchanged when the trimmed name
      is empty, otherwise with the entry added or the edited entry changed.
      Either way ids stay unique. */
  function Submitted(items: seq<Skillset>, mode: ModalMode, editing: Option<Skillset>,
                     nameField: string, skillsField: string): (r: seq<Skillset>)
    requires mode == Edit ==> editing.Some?
    ensures Trim(nameField) == [] ==> r == items
    ensures Trim(nameField) != [] && mode == Add ==> r == Added(items, nameField, skillsField)
    ensures Trim(nameField) != [] && mode == Edit ==>
      r == Edited(items, editing.value.id, Trim(nameField), SkillsText(skillsField))
    ensures UniqueIds(items) ==> UniqueIds(r)
  {
    if Trim(nameField) == [] then items
    else if mode == Add then Added(items, nameField, skillsField)
    else Edited(items, editing.value.id, Trim(nameField), SkillsText(skillsField))
  }

  function KeepTest(id: int): Skillset -> bool
  {
    (s: Skillset) => s.id != id
  }

  /** The list after a confirmed delete of id: every other entry, in order. */
  function Deleted(items: seq<Skillset>, id: int): (r: seq<Skillset>)
    ensures Subsequence(r, items)
    ensures forall x :: x in r <==> x in items && x.id != id
    ensures UniqueIds(items) ==> UniqueIds(r)
  {
    FilterIsSubsequence(items, KeepTest(id));
    FilterKeepsUniqueIds(items, KeepTest(id));
    Filter(items, KeepTest(id))
  }

  lemma {:induction false} FilterKeepsUniqueIds(items: seq<Skillset>, p: Skillset -> bool)
    ensures UniqueIds(items) ==> UniqueIds(Filter(items, p))
  {
    if items != [] && UniqueIds(items) {
      var tail := items[1..];
      assert UniqueIds(tail) by {
        forall i, j | 0 <= i < j < |tail| ensures tail[i].id != tail[j].id {
          assert tail[i] == items[i + 1] && tail[j] == items[j + 1];
        }
      }
      FilterKeepsUniqueIds(tail, p);
      var rest := Filter(tail, p);
      if p(items[0]) {
        var r := [items[0]] + rest;
        forall i, j | 0 <= i < j < |r| ensures r[i].id != r[j].id {
          if i == 0 {
            var k :| 0 <= k < |tail| && tail[k] == rest[j - 1];
            assert items[k + 1] == r[j];
          } else {
            assert r[i] == rest[i - 1] && r[j] == rest[j - 1];
          }
        }
        assert Filter(items, p) == r;
      } else {
        assert Filter(items, p) == rest;
      }
    }
  }

  /** Deleting the entry just added gives back the list as it was: the new
      id is fresh, so no older entry goes with it. */
  lemma DeleteUndoesAdd(items: seq<Skillset>, nameField: string, skillsField: string)
    ensures Deleted(Added(items, nameField, skillsField), NextId(items)) == items
  {
    var id := NextId(items);
    var added := Added(items, nameField, skillsField);
    assert added == items + [added[|items|]];
    FilterAppend(items, [added[|items|]], KeepTest(id));
    FilterAll(items, KeepTest(id));
    assert Filter([added[|items|]], KeepTest(id)) == [];
  }

  /** Editing an id no entry carries changes nothing. */
  lemma EditMissingIdChangesNothing(items: seq<Skillset>, id: int, name: string, skills: string)
    requires forall i :: 0 <= i < |items| ==> items[i].id != id
    ensures Edited(items, id, name, skills) == items
  {
  }

  /** Saving the same edit twice is saving it once. */
  lemma EditIdempotent(items: seq<Skillset>, id: int, name: string, skills: string)
    ensures Edited(Edited(items, id, name, skills), id, name, skills) == Edited(items, id, name, skills)
  {
  }

  /** The ten skill sets the table starts with (two of them share the name
      "Frontend"; only the ids tell them apart). */
  function SeedSkillsets(): seq<Skillset>
  {
    [ Skillset(1, "API", ApiSkills),
      Skillset(2, "Automation", AutomationSkills),
      Skillset(3, "CMS", CmsSkills),
      Skillset(4, "Desktop & ERP", DesktopErpSkills),
      Skillset(5, "Frontend", FrontendSkills),
      Skillset(6, "Frontend", FrontendReactSkills),
      Skillset(7, "LAMP", LampSkills),
      Skillset(8, "MERN", MernSkills),
      Skillset(9, "Mobile", MobileSkills),
      Skillset(10, "Wordpress", WordpressSkills) ]
  }

  const ApiSkills: string := "API, API Development, API Integration, FastAPI, GraphQL, REST API, RESTful API, Web API"

  const AutomationSkills: string := "Automation, Make.com, Zapier"

  const CmsSkills: string := "CMS, Shopify, Shopify Development, Squarespace, Webflow, Wix"

  const DesktopErpSkills: string := "Desktop Application, ERP Software"

  const FrontendSkills: string := "Angular, Bootstrap, CSS, Frontend Development, HTML, HTML5, Next.js, PSD to HTML, React.js, React.js Framework, TailWind, Tailwind CSS, Web Design, Website Design"

  const FrontendReactSkills: string := "Next.js, React.js, React.js Framework, Redux.js"

  const LampSkills: string := "Core PHP, Laravel, PHP"

  const MernSkills: string := "Backend Development, Database Development, Express JS, Google Firebase, MongoDB, Node.js"

  const MobileSkills: string := "Android App Development, App Developer, App Development, Hybrid App, Mobile App Development, Progressive Web Apps, React Native, Web Application"

  const WordpressSkills: string := "Elementor, WordPress, WordPress Design, WordPress Plugin"

  /** The seed ids are 1 to 10 in order, so no two entries share one. */
  lemma SeedIdsUnique()
    ensures UniqueIds(SeedSkillsets())
  {
    var s := SeedSkillsets();
    assert forall i :: 0 <= i < |s| ==> s[i].id == i + 1;
  }

  /** The first entry added to the seed list receives id 11. */
  lemma SeedNextId()
    ensures NextId(SeedSkillsets()) == 11
  {
    var s := SeedSkillsets();
    assert forall i :: 0 <= i < |s| ==> s[i].id == i + 1;
    assert s[9].id == 10;
  }

  class SkillsetsSettings {
    var skillsets: seq<Skillset>
    var searchTerm: string
    var showEntries: int
    var currentPage: int
    var isModalOpen: bool
    var modalMode: ModalMode
    var editingSkillset: Option<Skillset>
    var nameField: string
    var skillsField: string

    /** The page size is positive, the page is at least 1, ids are unique, and
        an open edit form knows which entry it edits. */
    predicate Valid()
      reads this
    {
      showEntries > 0 && currentPage >= 1 && UniqueIds(skillsets)
      && (isModalOpen && modalMode == Edit ==> editingSkillset.Some?)
    }

    constructor ()
      ensures Valid()
      ensures skillsets == SeedSkillsets() && searchTerm == "" && showEntries == 10 && currentPage == 1
      ensures !isModalOpen && modalMode == Add && editingSkillset == None && nameField == "" && skillsField == ""
    {
      skillsets := SeedSkillsets();
      searchTerm := "";
      showEntries := 10;
      currentPage := 1;
      isModalOpen := false;
      modalMode := Add;
      editingSkillset := None;
      nameField := "";
      skillsField := "";
      SeedIdsUnique();
    }

    /** The entries the search term matches. */
    function FilteredSkillsets(): (r: seq<Skillset>)
      reads this
      ensures forall x :: x in r <==> x in skillsets && Matches(searchTerm, x)
      ensures searchTerm == "" ==> r == skillsets
    {
      Search(skillsets, searchTerm)
    }

    /** Math.ceil(totalEntries / showEntries). */
    function TotalPages(): (r: nat)
      reads this
      requires showEntries > 0
      ensures r * showEntries >= |FilteredSkillsets()|
      ensures (r - 1) * showEntries < |FilteredSkillsets()|
    {
      Paging.CeilDiv(|FilteredSkillsets()|, showEntries)
    }

    /** currentPageData: the slice [(page - 1) * size, (page - 1) * size + size)
        of the matches; non-empty exactly on the pages 1 to totalPages. */
    function CurrentPageData(): (r: seq<Skillset>)
      reads this
      requires showEntries > 0
      ensures |r| <= showEntries
      ensures
        var all := FilteredSkillsets();
        currentPage >= 1 ==>
          r == all[Paging.Min((currentPage - 1) * showEntries, |all|)..Paging.Min((currentPage - 1) * showEntries + showEntries, |all|)]
      ensures currentPage >= 1 ==> (r != [] <==> currentPage <= TotalPages())
    {
      Paging.Page(FilteredSkillsets(), currentPage, showEntries)
    }

    /** handlePageChange: the previous or next page within the table's pages. */
    method HandlePageChange(dir: PageDirection)
      requires Valid()
      modifies this`currentPage
      ensures Valid()
      ensures currentPage == PageStep(old(currentPage), dir, TotalPages())
    {
      if dir == Prev && currentPage > 1 {
        currentPage := currentPage - 1;
      } else if dir == Next && currentPage < TotalPages() {
        currentPage := currentPage + 1;
      }
    }

    /** The page-size selector: the new size, back to page 1. */
    method SetShowEntries(n: int)
      requires Valid() && n in PageSizes
      modifies this`showEntries, this`currentPage
      ensures Valid()
      ensures showEntries == n && currentPage == 1
    {
      showEntries := n;
      currentPage := 1;
    }

    /** The search box: the new term, back to page 1. */
    method SetSearchTerm(term: string)
      requires Valid()
      modifies this`searchTerm, this`currentPage
      ensures Valid()
      ensures searchTerm == term && currentPage == 1
    {
      searchTerm := term;
      currentPage := 1;
    }

    /** openAddModal: an empty form in add mode. */
    method OpenAddModal()
      requires Valid()
      modifies this`modalMode, this`nameField, this`skillsField, this`editingSkillset, this`isModalOpen
      ensures Valid()
      ensures modalMode == Add && FormCleared() && isModalOpen
    {
      modalMode := Add;
      ResetForm();
      isModalOpen := true;
    }

    /** openEditModal: the form in edit mode, filled from the entry. */
    method OpenEditModal(item: Skillset)
      requires Valid()
      modifies this`modalMode, this`nameField, this`skillsField, this`editingSkillset, this`isModalOpen
      ensures Valid()
      ensures modalMode == Edit && editingSkillset == Some(item)
      ensures nameField == item.name && skillsField == item.skills && isModalOpen
    {
      modalMode := Edit;
      editingSkillset := Some(item);
      nameField := item.name;
      skillsField := item.skills;
      isModalOpen := true;
    }

    /** The form holds nothing and edits nothing. */
    predicate FormCleared()
      reads this
    {
      nameField == "" && skillsField == "" && editingSkillset == None
    }

    /** resetForm: empty fields and no entry being edited. Every caller either
        has switched the form to add mode or is closing it. */
    method ResetForm()
      requires Valid() && (!isModalOpen || modalMode == Add)
      modifies this`nameField, this`skillsField, this`editingSkillset
      ensures Valid() && FormCleared()
    {
      nameField := "";
      skillsField := "";
      editingSkillset := None;
    }

    /** closeModal: hides the form and keeps what was typed. */
    method CloseModal()
      requires Valid()
      modifies this`isModalOpen
      ensures Valid() && !isModalOpen
    {
      isModalOpen := false;
    }

    method SetNameField(v: string)
      requires Valid()
      modifies this`nameField
      ensures Valid() && nameField == v
    {
      nameField := v;
    }

    method SetSkillsField(v: string)
      requires Valid()
      modifies this`skillsField
      ensures Valid() && skillsField == v
    {
      skillsField := v;
    }

    /** handleModalSubmit. A name that is blank after trimming is refused and
        nothing changes. Otherwise the entry is added or edited, the form is
        cleared and the modal closes. */
    method HandleModalSubmit()
      requires Valid() && isModalOpen
      modifies this`skillsets, this`nameField, this`skillsField, this`editingSkillset, this`isModalOpen
      ensures Valid()
      ensures skillsets == Submitted(old(skillsets), modalMode, old(editingSkillset), old(nameField), old(skillsField))
      ensures Trim(old(nameField)) == [] ==> unchanged(this)
      ensures Trim(old(nameField)) != [] ==> FormCleared() && !isModalOpen
    {
      if Trim(nameField) == [] {
        return;
      }
      var next;
      if modalMode == Add {
        next := Added(skillsets, nameField, skillsField);
      } else {
        next := Edited(skillsets, editingSkillset.value.id, Trim(nameField), SkillsText(skillsField));
      }
      assert next == Submitted(skillsets, modalMode, editingSkillset, nameField, skillsField);
      Commit(next);
    }

    /** The submit's cleanup: the new list is stored, the form cleared and
        closed. React applies the updates together; closing first keeps
        Valid() in between. */
    method Commit(next: seq<Skillset>)
      requires Valid() && isModalOpen && UniqueIds(next)
      modifies this`skillsets, this`nameField, this`skillsField, this`editingSkillset, this`isModalOpen
      ensures Valid() && skillsets == next && FormCleared() && !isModalOpen
    {
      skillsets := next;
      isModalOpen := false;
      ResetForm();
    }

    /** handleDelete: with the confirmation given, every entry with the id is
        removed; without it nothing changes. */
    method HandleDelete(id: int, confirmed: bool)
      requires Valid()
      modifies this`skillsets
      ensures Valid()
      ensures skillsets == if confirmed then Deleted(old(skillsets), id) else old(skillsets)
    {
      if confirmed {
        skillsets := Deleted(skillsets, id);
      }
    }
  }
}
