# bidbuddy dashboard: a Dafny model of its list views and settings forms

bidbuddy is a React dashboard for a bidding assistant. This project models the
state logic behind its pages. Presentation is not modelled.

- **Bid list** (`bids.dfy`). Ten bid records pass through four filters, a
  status, a project query, an amount range and a date range. They are then
  put in order by a stable sort on one column and shown five rows per page.
- **Skill sets table** (`skillsets.dfy`). It has a search box, entry
  counts of 10/20/30 per page, Prev/Next paging, and an add/edit dialog with
  name validation. Deletion asks for confirmation first.
- **Skills settings** (`skills.dfy`). There is a list of included skills
  with on/off switches and a list of excluded skills that can be added to and
  removed from. A drag-and-drop dialog sets the priority order of the
  included skills.
- **Freelancer profiles** (`profiles.dfy`). A searchable profile list, plus
  the edit dialog's checklist of applicable skills: toggle, check all and
  uncheck all.
- **Change password** (`password.dfy`). The three-way submit check over
  the old, new and confirm fields.
- **Country toggles** (`countries.dfy`). The AI-bidding dialog's 29
  country records. Each has a switch that is written in place on the shared
  record.

The shared modules model the JavaScript built-ins the views rely on:

- `text.dfy`: `String.prototype.trim` with the ECMAScript white-space and
  line-terminator set, ASCII `toLowerCase`, `includes`, and the `<` order on
  strings.
- `seqs.dfy`: `Array.prototype.filter`, removal by index, and `arrayMove`
  of @dnd-kit/sortable.
- `paging.dfy`: `Array.prototype.slice` and `Math.ceil` as the paginations use
  them.

Each React component becomes a class:

- Each `useState` variable is a field.
- Each handler is a method that writes exactly the fields its setters write.
- `prev => ...` updaters are pure functions.
- Derived views, such as the filtered, sorted and current-page lists, are
  `reads this` functions.

A handler that calls several setters is modelled by its combined effect,
because React applies the updates of one event together.

## Model

| member | source | states |
|---|---|---|
| Text.Trim | components/BidsList.jsx:89 | `trim()`: the result is the middle of the input between a blank prefix and a blank suffix. It is empty exactly when the input is all white space, and otherwise starts and ends with a non-space character. |
| Text.LeadingSpaces | components/Settings/SkillsetsSettings.jsx:187 | Counts the white space the string starts with: that prefix is all white space, and the character after it is not. |
| Text.TrimStart | components/Settings/SkillsetsSettings.jsx:187 | Drops exactly the leading white space: the result is a suffix of the input, starts with a non-space character or is empty, and what was dropped is all white space. |
| Text.TrimEnd | components/Settings/SkillsetsSettings.jsx:187 | Drops exactly the trailing white space: the result is a prefix of the input, ends with a non-space character or is empty, and what was dropped is all white space. |
| Text.IsSpace | components/Settings/SkillsetsSettings.jsx:187 | The white-space and line-terminator characters `trim()` removes. |
| Text.BlankTrimsToEmpty | components/Settings/SkillsetsSettings.jsx:187 | An all-white-space string trims to the empty string, so it counts as missing. |
| Text.EmptyTrimIsBlank | components/Settings/SkillsetsSettings.jsx:187 | A string that trims to empty is all white space. |
| Text.TrimIdempotent | components/Settings/SkillsSettings.jsx:320-321 | Trimming twice is trimming once, so the appended excluded skill is already trimmed. |
| Text.LowerChar | components/BidsList.jsx:91 | `toLowerCase` on one character: upper-case ASCII letters map to lower case, and everything else is unchanged. |
| Text.Lower | components/BidsList.jsx:91 | `toLowerCase` keeps the length and lowers each character. |
| Text.LowerIdempotent | components/BidsList.jsx:91 | Lowering twice is lowering once. |
| Text.ContainsIff | components/BidsList.jsx:91 | `includes` holds exactly when the needle occurs at some position of the haystack. |
| Text.Contains | components/BidsList.jsx:91 | `includes`: the needle occurs at the start of the haystack or somewhere later. |
| Text.ContainsIgnoringCase | components/BidsList.jsx:91 | `a.toLowerCase().includes(b.toLowerCase())`. |
| Text.ContainsEmpty | components/Settings/SkillsetsSettings.jsx:140-143 | Every string includes the empty string, so an empty search term matches everything. |
| Text.ContainsSelf | components/Settings/SkillsetsSettings.jsx:140-143 | Every string includes itself. |
| Text.StrLess | components/BidsList.jsx:33-38 | The relational `<` on strings: the first differing character decides, and a proper prefix is below. |
| Text.StrLessIrreflexive | components/BidsList.jsx:33-38 | No string is below itself under `<`. |
| Text.StrLessAsymmetric | components/BidsList.jsx:33-38 | `a < b` and `b < a` never both hold. |
| Text.StrLessTransitive | components/BidsList.jsx:33-38 | `<` on strings is transitive. |
| Text.StrLessTotal | components/BidsList.jsx:33-38 | Two different strings are ordered one way or the other. |
| Seqs.Filter | components/BidsList.jsx:85 | `filter`: nothing is added, every kept element passes, and every passing element is kept. |
| Seqs.FilterMembers | components/BidsList.jsx:81-111 | An element is in a filter result exactly when it is in the input and passes the test. |
| Seqs.FilterIsSubsequence | components/BidsList.jsx:81-93 | A filter result is a subsequence of the input, so the original order is kept. |
| Seqs.FilterAll | components/BidsList.jsx:81-93 | Filtering by a test every element passes returns the input. |
| Seqs.FilterNone | components/BidsList.jsx:106-111 | Filtering by a test no element passes returns the empty list. |
| Seqs.FilterFilter | components/BidsList.jsx:81-111 | Two filters in a row are one filter by the conjunction of their tests. |
| Seqs.FilterCongruent | components/BidsList.jsx:81-111 | Tests that agree on the list give the same filter result. |
| Seqs.FilterConsCongruent | components/BidsList.jsx:33-39 | Lists with equal filter results keep them equal behind a common first element. |
| Seqs.FilterAppend | components/Settings/FreelancerProfiles.jsx:261-263 | Filtering distributes over concatenation. |
| Seqs.RemoveAt | components/Settings/SkillsSettings.jsx:314-316 | `filter((_, i) => i !== idx)`: position idx is gone, and the elements before and after it keep their order. An index outside the list changes nothing. |
| Seqs.InsertAt | components/Settings/SkillsSettings.jsx:163 | Splicing x in so that it sits at position i, with the elements before and after i kept in place. |
| Seqs.InsertUndoesRemove | components/Settings/SkillsSettings.jsx:163 | Putting a removed element back where it was restores the list. |
| Seqs.RemoveUndoesInsert | components/Settings/SkillsSettings.jsx:163 | Removing an element just inserted restores the list. |
| Seqs.MultisetRemoveAt | components/Settings/SkillsSettings.jsx:163 | Removal takes exactly one copy of the removed element out of the multiset. |
| Seqs.ArrayMove | components/Settings/SkillsSettings.jsx:163 | `arrayMove`: the same length; the moved element lands at the target index. The others keep their relative order, and the result is a permutation. |
| Seqs.ArrayMoveBack | components/Settings/SkillsSettings.jsx:163 | Moving from the target back to the source undoes a move. |
| Seqs.ArrayMoveChangesOrder | components/Settings/SkillsSettings.jsx:163 | A move onto a different element changes the list. |
| Seqs.Map | components/Settings/SkillsSettings.jsx:191 | `map`: the same length, with f applied at every position. |
| Seqs.MapArrayMove | components/Settings/SkillsSettings.jsx:191 | Mapping names commutes with a move, so the sortable ids move with the items. |
| Seqs.SortedByCons | components/BidsList.jsx:33-39 | A sorted list stays sorted when a first element that may stand before all of it is put in front. |
| Paging.SliceIndex | components/BidsList.jsx:129 | The index `slice` reads: a non-negative index capped at the length, a negative one counted back from the end and floored at 0. |
| Paging.Slice | components/BidsList.jsx:129 | `slice(start, end)` with 0 <= start <= end is the clamped subrange, of at most end - start elements. |
| Paging.CeilDiv | components/BidsList.jsx:130 | `Math.ceil(n / size)` is the least page count whose capacity holds n entries. |
| Paging.Page | components/BidsList.jsx:127-130 | Page p of size k holds at most k rows. For p >= 1 it is the slice `[(p-1)*k, p*k)` clamped to the list, and it is non-empty exactly when p is at most the page count. |
| Paging.FirstRowOnPage | components/BidsList.jsx:127-130 | Page p starts inside the list exactly when p is at most the page count. |
| Paging.PrefixThenSlice | components/BidsList.jsx:127-129 | The rows before a page followed by the page are the rows up to the end of that page. |
| Paging.PagesUpToIsPrefix | components/BidsList.jsx:127-129 | Pages 1..k concatenated are the first k*size rows. |
| Paging.AllPagesCoverList | components/BidsList.jsx:127-130 | Pages 1..totalPages concatenated are the whole list, in order. |
| Paging.SeveralPagesIff | components/BidsList.jsx:321 | There is more than one page exactly when the list is longer than a page. |
| Bids.DateLeIff | components/BidsList.jsx:106-111 | "Same day or earlier" is equality or strictly earlier. |
| Bids.WithinInterval | components/BidsList.jsx:109 | `isWithinInterval(date, {start, end})`: the day lies between the two ends, both included, whichever of them is the earlier. |
| Bids.StripAmount | components/BidsList.jsx:29 | `replace(/[^0-9.-]+/g, '')` keeps exactly the digits, '.' and '-' of the amount, in their order. |
| Bids.LeadingDigits | components/BidsList.jsx:29 | Finds the longest all-digit prefix, as `parseFloat` reads an integer. |
| Bids.ParseLeadingInt | components/BidsList.jsx:29 | `parseFloat` on a whole number: a number exactly when the text starts with a digit or with '-' and a digit; not positive after '-', not negative otherwise. |
| Bids.AmountOf | components/BidsList.jsx:98 | The amount's value after stripping and `parseFloat`; it is a number only when the amount text holds a digit. |
| Bids.DecimalText | components/BidsList.jsx:57-66 | The decimal text of a number is non-empty and all digits. |
| Bids.DecimalTextValue | components/BidsList.jsx:57-66 | Reading the decimal digits of n back gives n. |
| Bids.LeadingDigitsOfDigits | components/BidsList.jsx:29 | An all-digit text is its own digit prefix. |
| Bids.AmountOfDollarText | components/BidsList.jsx:29 | Round trip: the amount read from "$" followed by the digits of n is n. |
| Bids.ApplyFilters | components/BidsList.jsx:80-111 | The four-stage filter chain returns a subsequence of the bids. A bid is in it exactly when it passes all four filters. |
| Bids.StatusMatches | components/BidsList.jsx:84-86 | The status filter: every bid under 'all', otherwise the bids with that status. |
| Bids.ProjectMatches | components/BidsList.jsx:88-93 | The project filter applies once the trimmed query is non-empty; then the lower-cased project must include the lower-cased, untrimmed query. |
| Bids.WithinAmountBounds | components/BidsList.jsx:97-101 | `amount >= min && amount <= max`, with an unset minimum as `Number.MIN_VALUE` and an unset maximum as no bound; a NaN amount fails. |
| Bids.AmountMatches | components/BidsList.jsx:96-102 | The amount filter applies once either bound is set. |
| Bids.DateMatches | components/BidsList.jsx:106-110 | The date filter applies once both dates are picked, and then keeps the bids within the interval. |
| Bids.Visible | components/BidsList.jsx:80-111 | A bid is shown when it passes all four filters. |
| Bids.StageIsFilter | components/BidsList.jsx:84-111 | A stage that is switched off behaves as a filter by a test that passes everything. |
| Bids.ChainIsOneFilter | components/BidsList.jsx:80-111 | The stage-by-stage chain equals one filter by the conjunction of the four tests. |
| Bids.NoFiltersKeepEverything | components/BidsList.jsx:80-111 | With all filters at their initial values, every bid is kept, in order. |
| Bids.DefaultViewIsRecords | components/BidsList.jsx:80-124 | With no filter set and no sort, the displayed list is the records in their order. |
| Bids.OnlyMaxDropsNonPositive | components/BidsList.jsx:96-103 | With only a maximum set, a bid whose amount is zero or negative is dropped, because the missing minimum is Number.MIN_VALUE. |
| Bids.DateFilterInclusive | components/BidsList.jsx:106-111 | With both dates picked, the start no later than the end, a bid that passes the other filters is kept exactly when start <= date <= end. |
| Bids.InvertedIntervalIsOrdered | components/BidsList.jsx:106-111 | With the end picked before the start, a bid that passes the other filters is kept exactly when end <= date <= start. |
| Bids.IntervalEndsCommute | components/BidsList.jsx:109 | `isWithinInterval` does not depend on which end is given as the start. |
| Bids.KeyLessWeakOrder | components/BidsList.jsx:22-38 | The comparator's `<` is a strict weak order on every key: irreflexive, asymmetric, negatively transitive. |
| Bids.KeyLess | components/BidsList.jsx:18-33 | `aValue < bValue` for the key: string order for project and status, calendar order for the date, numeric order for the amount, where NaN is neither below nor above anything. |
| Bids.Compare | components/BidsList.jsx:17-40 | The comparator returns -1, 0 or 1, and 0 exactly when neither key is below the other. |
| Bids.CompareFlips | components/BidsList.jsx:33-39 | The comparator is antisymmetric: a positive result one way is a negative result the other way. |
| Bids.PrecedesTransitive | components/BidsList.jsx:33-39 | "Not after" under the comparator is transitive. |
| Bids.SameKeyTransitive | components/BidsList.jsx:33-39 | Comparator ties are transitive. |
| Bids.Insert | components/BidsList.jsx:17 | Inserting one bid adds exactly that bid to the multiset. |
| Bids.InsertionSort | components/BidsList.jsx:17 | The sort returns a permutation of its input. |
| Bids.SortData | components/BidsList.jsx:14-17 | With no key, the input itself is returned. Otherwise the result has the same length, the same multiset and the same members. |
| Bids.SortedCons | components/BidsList.jsx:33-39 | A bid that precedes every bid of a sorted list can be put in front of it and the list stays sorted. |
| Bids.InsertSorted | components/BidsList.jsx:33-39 | Inserting into a sorted list keeps it sorted. |
| Bids.InsertionSortSorted | components/BidsList.jsx:17-40 | The sort's result is ordered by the comparator. |
| Bids.SortDataSorted | components/BidsList.jsx:14-40 | With a key chosen, every pair in the result is in comparator order. |
| Bids.SortByAmountOrder | components/BidsList.jsx:27-38 | Sorting by amount orders by the stripped numeric value: nondecreasing ascending, nonincreasing descending. |
| Bids.SortByDateOrder | components/BidsList.jsx:22-38 | Sorting by date orders by calendar day in the chosen direction. |
| Bids.SortByProjectOrder | components/BidsList.jsx:33-38 | Sorting by project orders by the string `<` in the chosen direction. |
| Bids.InsertStable | components/BidsList.jsx:33-39 | Inserting keeps the relative order of the bids that tie with a given bid. |
| Bids.InsertionSortStable | components/BidsList.jsx:33-39 | The sort keeps the input order of the bids in every tie class. |
| Bids.SortDataStable | components/BidsList.jsx:14-39 | sortData is stable: within a tie class the bids appear in input order. |
| Bids.NextSort | components/BidsList.jsx:71-77 | requestSort picks the requested key. It picks descending exactly when the current configuration is that key, ascending. |
| Bids.NextSortAlternates | components/BidsList.jsx:71-77 | Requesting the same key repeatedly alternates the direction. |
| Bids.HundredsText | components/BidsList.jsx:56-68 | A three-digit whole-dollar amount reads as "$" followed by its three digits. |
| Bids.SeedDollarTexts | components/BidsList.jsx:56-68 | The stored amounts are the dollar texts of 500, 750, 600, 900, 450, 800, 700, 650, 550, 950. |
| Bids.SeedAmountsAreNumbers | components/BidsList.jsx:56-68 | Every stored amount reads as a number, so sorting by amount orders all of them. |
| Bids.BidsList.constructor | components/BidsList.jsx:45-68 | The view starts with the ten records, no filter, no sort and page 1. |
| Bids.BidsList.FilteredAndSortedBids | components/BidsList.jsx:80-124 | The displayed list holds exactly the bids that pass the filters. It is no longer than the records and, unsorted, a subsequence of them. With no filter and no sort it is the records themselves. |
| Bids.BidsList.TotalPages | components/BidsList.jsx:130 | totalPages is the fewest pages of five that hold the displayed list. |
| Bids.BidsList.ShowsPageButtons | components/BidsList.jsx:321-326 | The page buttons are drawn exactly when more than five bids pass. |
| Bids.BidsList.CurrentBids | components/BidsList.jsx:127-129 | The current page has at most five rows and is its slice of the list. It is non-empty for pages 1..totalPages and empty past the last page. |
| Bids.BidsList.RequestSort | components/BidsList.jsx:71-77 | Sets the sort configuration to NextSort of the old one and changes nothing else. |
| Bids.BidsList.HandlePageChange | components/BidsList.jsx:132-134 | Sets the current page to the pressed number and changes nothing else. |
| Bids.BidsList.ResetFilters | components/BidsList.jsx:137-146 | From any state, it restores all filters, the sort and page 1, after which the list is the records in their order. |
| Bids.BidsList.SetFilterStatus | components/BidsList.jsx:171 | Writes the status filter only; the page is not reset. |
| Bids.BidsList.SetFilterProject | components/BidsList.jsx:188 | Writes the project query only. |
| Bids.BidsList.SetFilterAmountMin | components/BidsList.jsx:203 | Writes the minimum only. |
| Bids.BidsList.SetFilterAmountMax | components/BidsList.jsx:215 | Writes the maximum only. |
| Bids.BidsList.SetFilterDateStart | components/BidsList.jsx:231 | Writes the start date only. |
| Bids.BidsList.SetFilterDateEnd | components/BidsList.jsx:240-244 | Writes the end date only. The picker offers no day before the start. |
| Skillsets.Search | components/Settings/SkillsetsSettings.jsx:140-143 | Keeps an entry exactly when its lower-cased name or skills include the lower-cased term. Order is kept, and an empty term keeps everything. |
| Skillsets.Matches | components/Settings/SkillsetsSettings.jsx:140-143 | An entry matches when its lower-cased name or skills include the lower-cased term. |
| Skillsets.PageStep | components/Settings/SkillsetsSettings.jsx:151-157 | Prev decrements only above page 1, and Next increments only below totalPages. A page inside [1, max(1, totalPages)] stays inside it. |
| Skillsets.SkillsText | components/Settings/SkillsetsSettings.jsx:198-208 | The trimmed skills, or "No skills listed" when they trim to empty. The result is never empty. |
| Skillsets.MaxId | components/Settings/SkillsetsSettings.jsx:194 | `Math.max` of the ids bounds every id and is one of them. |
| Skillsets.NextId | components/Settings/SkillsetsSettings.jsx:194 | The new id is one more than the greatest existing id (it is above every id and one above some id), and 1 for an empty list. |
| Skillsets.Added | components/Settings/SkillsetsSettings.jsx:192-200 | Add appends one entry after the unchanged list. The entry's id is NextId (one more than the greatest), so it is fresh. It has the trimmed name and the skills text, and ids stay unique. |
| Skillsets.Edited | components/Settings/SkillsetsSettings.jsx:202-213 | Edit keeps length, order and ids, and leaves every entry with another id unchanged. Entries with the edited id get the new name and skills, and ids stay unique. |
| Skillsets.Submitted | components/Settings/SkillsetsSettings.jsx:184-214 | A name that trims to empty leaves the list unchanged. Otherwise the result is Add's or Edit's, with the trimmed fields. |
| Skillsets.Deleted | components/Settings/SkillsetsSettings.jsx:440 | Removes exactly the entries with the id and keeps the rest in order. |
| Skillsets.FilterKeepsUniqueIds | components/Settings/SkillsetsSettings.jsx:440 | Filtering a list with unique ids keeps them unique. |
| Skillsets.DeleteUndoesAdd | components/Settings/SkillsetsSettings.jsx:192-200 | Deleting the entry just added restores the list. |
| Skillsets.EditMissingIdChangesNothing | components/Settings/SkillsetsSettings.jsx:202-213 | Editing an id that no entry has changes nothing. |
| Skillsets.EditIdempotent | components/Settings/SkillsetsSettings.jsx:202-213 | Submitting the same edit twice is submitting it once. |
| Skillsets.SeedIdsUnique | components/Settings/SkillsetsSettings.jsx:69-120 | The ten seed entries have distinct ids. |
| Skillsets.SeedNextId | components/Settings/SkillsetsSettings.jsx:69-120 | The first added entry gets id 11. |
| Skillsets.SkillsetsSettings.constructor | components/Settings/SkillsetsSettings.jsx:123-137 | Starts with the seed, an empty search, 10 entries per page, page 1 and a closed, empty dialog in add mode. |
| Skillsets.SkillsetsSettings.FilteredSkillsets | components/Settings/SkillsetsSettings.jsx:140-143 | The table holds exactly the entries matching the search term; an empty term keeps all. |
| Skillsets.SkillsetsSettings.TotalPages | components/Settings/SkillsetsSettings.jsx:145-146 | totalPages is the fewest pages of showEntries rows that hold the filtered list. |
| Skillsets.SkillsetsSettings.CurrentPageData | components/Settings/SkillsetsSettings.jsx:147-149 | The page is the slice `[(p-1)*n, (p-1)*n+n)` of the filtered list, at most n rows. It is non-empty exactly for pages up to totalPages. |
| Skillsets.SkillsetsSettings.HandlePageChange | components/Settings/SkillsetsSettings.jsx:151-157 | The page becomes PageStep of the old page, and nothing else changes. |
| Skillsets.SkillsetsSettings.SetShowEntries | components/Settings/SkillsetsSettings.jsx:253-256 | Changing the page size resets the page to 1. |
| Skillsets.SkillsetsSettings.SetSearchTerm | components/Settings/SkillsetsSettings.jsx:274-277 | Changing the search term resets the page to 1. |
| Skillsets.SkillsetsSettings.OpenAddModal | components/Settings/SkillsetsSettings.jsx:160-164 | Opens the dialog in add mode with cleared fields and nothing being edited. |
| Skillsets.SkillsetsSettings.OpenEditModal | components/Settings/SkillsetsSettings.jsx:166-172 | Opens the dialog in edit mode, filled with the entry's name and skills. |
| Skillsets.SkillsetsSettings.ResetForm | components/Settings/SkillsetsSettings.jsx:178-182 | Clears both fields and the entry being edited. |
| Skillsets.SkillsetsSettings.Commit | components/Settings/SkillsetsSettings.jsx:200-218 | Stores the new list, which must keep ids unique, then clears the form and closes the dialog. |
| Skillsets.SkillsetsSettings.CloseModal | components/Settings/SkillsetsSettings.jsx:174-176 | Closes the dialog and changes nothing else. |
| Skillsets.SkillsetsSettings.SetNameField | components/Settings/SkillsetsSettings.jsx:136 | Writes the name field only. |
| Skillsets.SkillsetsSettings.SetSkillsField | components/Settings/SkillsetsSettings.jsx:137 | Writes the skills field only. |
| Skillsets.SkillsetsSettings.HandleModalSubmit | components/Settings/SkillsetsSettings.jsx:184-219 | With a name that trims to empty, nothing changes. Otherwise the list becomes Submitted's, the form is cleared and the dialog closes; ids stay unique. |
| Skillsets.SkillsetsSettings.HandleDelete | components/Settings/SkillsetsSettings.jsx:437-442 | A confirmed delete removes exactly that id. An unconfirmed one changes nothing. |
| Skills.Names | components/Settings/SkillsSettings.jsx:191 | The names of the skills, position by position. |
| Skills.ToggledAt | components/Settings/SkillsSettings.jsx:305-311 | Flips `active` only at idx; names, length and every other entry are unchanged. |
| Skills.ToggleTwiceIsIdentity | components/Settings/SkillsSettings.jsx:305-311 | Toggling the same position twice restores the list. |
| Skills.WithExcluded | components/Settings/SkillsSettings.jsx:319-324 | A blank input leaves the list unchanged. Otherwise the trimmed input is appended after the unchanged list. |
| Skills.WithExcludedAllowsDuplicates | components/Settings/SkillsSettings.jsx:319-324 | Adding a skill already excluded adds a second copy; no duplicate check is made. |
| Skills.FindIndex | components/Settings/SkillsSettings.jsx:161-162 | `findIndex` by name returns the first position with the name, or -1 exactly when no skill has it. |
| Skills.NamesOfMove | components/Settings/SkillsSettings.jsx:163 | A move keeps the multiset of names. |
| Skills.SkillsSettings.constructor | components/Settings/SkillsSettings.jsx:240-302 | Starts with the 43 included seed skills, the 7 excluded ones, projects hidden, an empty input and the dialog closed. |
| Skills.SkillsSettings.ToggleIncludedSkill | components/Settings/SkillsSettings.jsx:305-311 | The included list becomes ToggledAt of the old one. |
| Skills.SkillsSettings.RemoveExcludedSkill | components/Settings/SkillsSettings.jsx:314-316 | The excluded list loses exactly position idx. |
| Skills.SkillsSettings.SetNewExcludedSkill | components/Settings/SkillsSettings.jsx:446-447 | Writes the input only. |
| Skills.SkillsSettings.AddExcludedSkill | components/Settings/SkillsSettings.jsx:319-324 | A non-blank input is appended trimmed and the input is cleared. A blank one changes nothing at all. |
| Skills.SkillsSettings.ToggleShowProjects | components/Settings/SkillsSettings.jsx:421-424 | Flips the show-projects switch. |
| Skills.SkillsSettings.OpenPriorityModal | components/Settings/SkillsSettings.jsx:326-330 | The priority order starts as a copy of the current included order, and the dialog opens. |
| Skills.SkillsSettings.ClosePriorityModal | components/Settings/SkillsSettings.jsx:332-334 | Closes the dialog only. |
| Skills.SkillsSettings.ResetPriorities | components/Settings/SkillsSettings.jsx:336-339 | The priority order returns to the initial seed order. |
| Skills.SkillsSettings.SavePriorities | components/Settings/SkillsSettings.jsx:341-344 | The included list takes the priority order and the dialog closes. |
| Skills.SkillsSettings.HandleDragEnd | components/Settings/SkillsSettings.jsx:157-165 | With no drop target, or a drop onto itself, nothing changes. Otherwise the skill found by name moves to the target's index: a permutation, with the moved skill at the target and the others in order. |
| Skills.SkillsSettings.PressModalButton | components/Settings/SkillsSettings.jsx:211-228 | As wired: Reset restores the seed order, and every other button, Save included, only closes the dialog. The included list cannot change. |
| Skills.SkillsSettings.PressModalButtonIntended | components/Settings/SkillsSettings.jsx:211-228 | Save applies savePriorities; Cancel and the close icon only close; Reset restores the seed order. |
| Skills.SkillsSettings.DragThenSaveAsWritten | components/Settings/SkillsSettings.jsx:223-228 | Dragging one skill onto another and pressing Save closes the dialog with the included list unchanged, and the new order is lost. |
| Skills.SkillsSettings.DragThenSaveIntended | components/Settings/SkillsSettings.jsx:341-344 | The same drag followed by savePriorities makes the included list the new, different order. |
| Profiles.AllSkillsDistinct | components/Settings/FreelancerProfiles.jsx:247-253 | The 25 offered skills are distinct. |
| Profiles.FilterProfiles | components/Settings/FreelancerProfiles.jsx:77-80 | Keeps a profile exactly when its lower-cased title or skills include the lower-cased term. The result is a subsequence, and an empty term keeps all. |
| Profiles.ProfileMatches | components/Settings/FreelancerProfiles.jsx:77-80 | A profile matches when its lower-cased title or skills include the lower-cased term. |
| Profiles.Toggled | components/Settings/FreelancerProfiles.jsx:258-266 | Flips membership of the skill and leaves every other skill's membership alone. A present skill has every occurrence removed, with the rest kept in order. An absent one is appended at the end. No-duplicates is preserved. |
| Profiles.FilterKeepsNoDuplicates | components/Settings/FreelancerProfiles.jsx:261 | Filtering a list without duplicates leaves none. |
| Profiles.ToggleTwiceRestores | components/Settings/FreelancerProfiles.jsx:258-266 | Checking an unchecked skill and unchecking it again restores the selection. |
| Profiles.FreelancerProfiles.constructor | components/Settings/FreelancerProfiles.jsx:46-68 | Starts with the three seed profiles, an empty search and the dialog closed. |
| Profiles.FreelancerProfiles.FilteredProfiles | components/Settings/FreelancerProfiles.jsx:77-80 | The shown profiles are exactly those matching the search term. |
| Profiles.FreelancerProfiles.SetSearchTerm | components/Settings/FreelancerProfiles.jsx:146 | Writes the search term only. |
| Profiles.FreelancerProfiles.OpenEdit | components/Settings/FreelancerProfiles.jsx:179 | Opens the edit dialog. |
| Profiles.FreelancerProfiles.CloseEdit | components/Settings/FreelancerProfiles.jsx:226 | Closes the edit dialog. |
| Profiles.EditFreelancerProfileModal.constructor | components/Settings/FreelancerProfiles.jsx:247-256 | Starts with the 25 offered skills and the four initially checked ones, neither list repeating a skill. |
| Profiles.EditFreelancerProfileModal.ToggleSkill | components/Settings/FreelancerProfiles.jsx:258-266 | The selection becomes Toggled of the old one and never repeats a skill. |
| Profiles.EditFreelancerProfileModal.CheckAll | components/Settings/FreelancerProfiles.jsx:268-270 | The selection becomes exactly the offered skills, in their order. |
| Profiles.EditFreelancerProfileModal.UncheckAll | components/Settings/FreelancerProfiles.jsx:272-274 | The selection becomes empty. |
| Password.Validate | components/Settings/ChangePassword.jsx:47-59 | "All fields are required" exactly when a field is empty. "Do not match" exactly when all are present and new differs from confirm. Success exactly when all are present and new equals confirm. |
| Password.Message | components/Settings/ChangePassword.jsx:50-58 | The alert text of each outcome. |
| Password.RequiredTakesPrecedence | components/Settings/ChangePassword.jsx:49-56 | A missing field is reported even when new and confirm also differ. |
| Password.OldPasswordOnlyPresence | components/Settings/ChangePassword.jsx:49-58 | The outcome depends on the old password only through whether it is empty. |
| Password.SamePasswordAccepted | components/Settings/ChangePassword.jsx:49-58 | The old password is never compared with the new one: reusing it succeeds. |
| Password.MessagesDistinct | components/Settings/ChangePassword.jsx:50-58 | The three alerts are different texts. |
| Countries.Country.constructor | components/Settings/AIBiddingSettings.jsx:275 | A record starts with its name and its switch on. |
| Countries.SetActive | components/Settings/AIBiddingSettings.jsx:306-312 | Setting a switch: the same length, v at the index, every other position unchanged. |
| Countries.SetActiveIdempotent | components/Settings/AIBiddingSettings.jsx:306-312 | Setting a switch twice to the same value is setting it once. |
| Countries.SetActiveUnchanged | components/Settings/AIBiddingSettings.jsx:306-312 | Setting a switch to its current value changes nothing. |
| Countries.SetActiveCommutes | components/Settings/AIBiddingSettings.jsx:306-312 | Switches at different indices can be set in either order. |
| Countries.ManageCountries.Names | components/Settings/AIBiddingSettings.jsx:350-358 | The names of the records, position by position. |
| Countries.ManageCountries.Actives | components/Settings/AIBiddingSettings.jsx:360-362 | The switch positions of the records, position by position. |
| Countries.ManageCountries.constructor | components/Settings/AIBiddingSettings.jsx:274-304 | The initial list has the 29 seed names in order, each record distinct and active. |
| Countries.ManageCountries.ToggleCountry | components/Settings/AIBiddingSettings.jsx:306-312 | Writes the switch on the shared record at the index. The list holds the same records and the names are unchanged. The switches are SetActive of the old ones. |

## Left out

- Rendering is not modelled: JSX, Tailwind classes, framer-motion and CSS animation, Headless UI menus and dialogs, icons, translations and the sort-icon helper.
- `alert`, `confirm`, toasts and timers are not modelled. `confirm`'s answer is a boolean parameter of `HandleDelete`. The 3-second success banner of the profiles page and its refresh button are left out.
- Bids.AmountOf: reads only an optional '-' followed by digits, not `parseFloat`'s fractions and exponents. The stored amounts are whole dollars, so it is exact on them.
- Bids.Filters: the typed amount bounds are integers or unset, so a bound that `parseFloat` reads as NaN is not represented. `Number.MAX_VALUE` becomes "no upper bound".
- Bids.Date: a picked date is a calendar day. The time of day that a date picker's `Date` carries, and date-fns parsing and `isWithinInterval` at sub-day precision, are not modelled.
- Bids.InvertedIntervalIsOrdered: the date filter follows `isWithinInterval` of date-fns 3 and later, which orders the two ends, so an end picked before the start keeps the bids from the end to the start. With date-fns 2, `isWithinInterval` throws a RangeError for that interval and the list fails to render; the model does not represent that failure. The version of date-fns is not fixed by the files modelled. The start picker has no `maxDate`, so a user can reach the state by picking the end first and then a later start.
- Text.Lower: lowers ASCII letters only, not the full Unicode case mapping of `toLowerCase`.
- Text.StrLess: compares characters by code point, not by UTF-16 code unit; the two agree on the texts the views hold.
- Bids.BidsList.RequestSort: no element of the view calls `requestSort`, so the sort in the view stays unsorted. The model keeps the handler and its properties.
- Skills.SkillsSettings.HandleDragEnd: requires the dragged and target names to be in the list, as @dnd-kit guarantees for its sortable ids; the -1 index case of `arrayMove` is not modelled.
- The Sync and Submit buttons of the settings pages, the AI-bidding form fields and ManageCountries' `handleSubmit` only alert or do nothing, and are not modelled. Nothing is persisted.
- The dashboard and settings pages, login, routing, the language context, the charts, the three.js background and the AI bid log are not part of this model.

## Findings

| source | as written | input that shows it | evidently intended | confidence | as-written member | corrected member |
|---|---|---|---|---|---|---|
| components/Settings/SkillsSettings.jsx:223-228 | The dialog's Save button calls `onClose`, and `savePriorities` is never passed to the dialog. | Open the dialog, drag one skill onto another, press Save: the included list keeps its old order. | Save applies the dragged order to the included skills (`savePriorities`) and closes. | not executed | Skills.SkillsSettings.DragThenSaveAsWritten | Skills.SkillsSettings.DragThenSaveIntended |
