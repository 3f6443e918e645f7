/** The country toggles of the AI bidding settings: a list of shared
    {name, active} records, one switch per record. */
module Countries {
  import opened Seqs

  /** One record of the list. Its name never changes; its switch does, in place. */
  class Country {
    const name: string
    var active: bool

    constructor (name: string)
      ensures this.name == name && active
    {
      this.name := name;
      active := true;
    }
  }

  /** The names the dialog starts with, in display order. */
  const SeedCountryNames: seq<string> := [
    "Afghanistan", "Albania", "Algeria", "American Samoa", "Andorra", "Angola",
    "Antigua and Barbuda", "Argentina", "Armenia", "Australia", "Austria",
    "Azerbaijan", "Bahamas", "Bahrain", "Bangladesh", "Barbados", "Belarus",
    "Belgium", "Belize", "Benin", "Bhutan", "Bolivia", "Bosnia and Herzegovina",
    "Botswana", "Brazil", "Brunei", "Bulgaria", "Burkina Faso", "Burundi"
  ]

  /** The switch positions after one switch is set: position i holds v and
      every other position is as it was. */
  function SetActive(actives: seq<bool>, i: int, v: bool): (r: seq<bool>)
    requires 0 <= i < |actives|
    ensures |r| == |actives| && r[i] == v
    ensures forall k :: 0 <= k < |r| && k != i ==> r[k] == actives[k]
  {
    actives[i := v]
  }

  /** Setting a switch twice to the same value is setting it once. */
  lemma SetActiveIdempotent(actives: seq<bool>, i: int, v: bool)
    requires 0 <= i < |actives|
    ensures SetActive(SetActive(actives, i, v), i, v) == SetActive(actives, i, v)
  {
  }

  /** Setting a switch to the position it already has changes nothing. */
  lemma SetActiveUnchanged(actives: seq<bool>, i: int)
    requires 0 <= i < |actives|
    ensures SetActive(actives, i, actives[i]) == actives
  {
  }

  /** Setting two different switches can be done in either order. */
  lemma SetActiveCommutes(actives: seq<bool>, i: int, v: bool, j: int, w: bool)
    requires 0 <= i < |actives| && 0 <= j < |actives| && i != j
    ensures SetActive(SetActive(actives, i, v), j, w) == SetActive(SetActive(actives, j, w), i, v)
  {
  }

  /** The ManageCountries dialog's state. */
  class ManageCountries {
    var countries: seq<Country>

    /** No record appears twice, so writing one switch leaves the others alone. */
    predicate Valid()
      reads this
    {
      NoDuplicates(countries)
    }

    function Names(): (r: seq<string>)
      reads this
      ensures |r| == |countries| && forall i :: 0 <= i < |r| ==> r[i] == countries[i].name
    {
      seq(|countries|, i requires 0 <= i < |countries| reads this => countries[i].name)
    }

    function Actives(): (r: seq<bool>)
      reads this, countries
      ensures |r| == |countries| && forall i :: 0 <= i < |r| ==> r[i] == countries[i].active
    {
      seq(|countries|, i requires 0 <= i < |countries| reads this, countries => countries[i].active)
    }

    /** The initial list: every seed name, in order, each with its switch on. */
    constructor ()
      ensures Valid() && fresh(countries)
      ensures Names() == SeedCountryNames && |countries| == 29
      ensures forall i :: 0 <= i < |countries| ==> countries[i].active
    {
      var cs: seq<Country> := [];
      for i := 0 to |SeedCountryNames|
        invariant |cs| == i && NoDuplicates(cs) && fresh(cs)
        invariant forall k :: 0 <= k < i ==> cs[k].name == SeedCountryNames[k] && cs[k].active
      {
        var c := new Country(SeedCountryNames[i]);
        cs := cs + [c];
      }
      countries := cs;
      new;
      assert Names() == SeedCountryNames;
    }

    /** toggleCountry: copies the list and sets the switch on the shared
        record, so the copy holds the very same records. */
    method ToggleCountry(index: int, newVal: bool)
      requires Valid() && 0 <= index < |countries|
      modifies this, countries[index]
      ensures Valid() && countries == old(countries)
      ensures Actives() == SetActive(old(Actives()), index, newVal)
      ensures Names() == old(Names())
    {
      var updated := countries;
      updated[index].active := newVal;
      countries := updated;
    }
  }
}
