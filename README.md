# dotcom typo generator — a Dafny model

`dotcom` generates typo variants of a domain label and can look each variant up
with a registrar, keeping the answers in a cache. This project models that core in
Dafny and proves properties of the model:

- the five mutation functions of `src/typo.py`: drop one character, swap two
  neighbouring characters, double one character, replace a character with each of
  its keyboard or look-alike neighbours, and insert each neighbour before and after
  a character. Each one is a method with the source's loop, proved equal to a
  declarative description of the whole list, with lemmas on count, length, order
  and the shape of every variant (`Mutations.dfy`);
- the four neighbour tables of `src/const.py`, as `map<char, seq<char>>`
  constants (`Const.dfy`). For each table the model proves its key set, that
  every list is non-empty and what characters it holds, whether the table is
  symmetric, and that no key lists itself. The keyboard-letter and look-alike
  character tables are not symmetric; the two digit tables are;
- the availability cache (`Availability.dfy`). It is a class with a `map` field.
  Ghost counters record registrar requests, saves of the cache file and
  one-second pauses. It is specified by a pure function `LookupStep` on a value
  snapshot `Store`;
- `generate_typos`: lower-casing, the nine-entry rarity table `A1`..`D2`, the
  filter, the cache lookup of every typo and the `freq` tag. It is written as a
  method that returns everything the generator yields when drained, plus the
  exception that ended it, if any. The method is proved equal to the
  specification `GenerateSpec`, a plan of typos folded through the cache
  (`Typo.dfy`);
- `get_loglevl` and the second cache of `src/utils.py` (`Utils.dfy`).

`Wrappers.dfy`, `CaseMap.dfy` (ASCII `lower`/`upper`), `Seqs.dfy` (concatenation of
a list of lists) and `Values.dfy` (JSON values, dictionaries, the two exceptions)
hold the shared vocabulary.

The registrar is a parameter `service: string -> Record`, fixed for the length of a
run. A response is an error when it has an `"error"` key whose value is truthy.

Two behaviours of the code worth noting:

- A character that has no entry in the table counts as one variant, itself,
  because the lookup defaults to the character (`src/typo.py:65`). It does not
  count as zero.
- The look-alike table `VISUALLYSIMILARCHARS` has upper-case keys `B`..`Z`
  (`src/const.py:122-142`). Every lookup lower-cases the character first, so
  those keys are never reached. The table does not act case-sensitively.

`_swap_letters` on a one-letter label raises `IndexError`. The model keeps that
error path. It does not add a precondition, and the pipeline ends with that
exception after yielding the typos of the codes before `B2`.

## Model

| member | source | states |
|---|---|---|
| Mutations.NeighborsSpec | src/typo.py:65 | an unmapped character is its own only neighbour; a mapped one gets the table's list for its lower-case form |
| Mutations.OneOut | src/typo.py:51-57 | the loop returns exactly `Deletions(w)`: variant `i` drops position `i`, in ascending order |
| Mutations.DeletionsSpec | src/typo.py:51-57 | `|w|` variants, each of length `|w|-1`, and putting `w[i]` back into variant `i` restores `w` |
| Mutations.SwapLetters | src/typo.py:31-39 | the loop returns `SwapOutcome(w)`, and it raises `IndexError` exactly when `|w| == 1` |
| Mutations.TranspositionsSpec | src/typo.py:31-39 | `|w|-1` variants for `|w| >= 2`; variant `i` is `w` with positions `i` and `i+1` exchanged, of the same length, and swapping again restores `w` |
| Mutations.SwapOutcomeSpec | src/typo.py:35-38 | the empty word yields no variants, a one-letter word raises `IndexError`, longer words yield `|w|-1` transpositions |
| Mutations.DoubleLetter | src/typo.py:42-48 | the loop returns exactly `Doublings(w)` |
| Mutations.DoublingsSpec | src/typo.py:42-48 | `|w|` variants of length `|w|+1`; variant `i` repeats `w[i]` at `i` and `i+1`, and deleting position `i` restores `w` |
| Mutations.ReplaceWithNeighbor | src/typo.py:60-68 | the nested loop returns exactly `Substitutions(w, table)`, position first, then table order |
| Mutations.SubstitutionRowsPrefixLength | src/typo.py:64-66 | the variants of the first `k` positions number the neighbours of those positions |
| Mutations.SubstitutionsCount | src/typo.py:60-68 | the count is the sum over positions of the neighbour-list length, counting 1 for an unmapped character |
| Mutations.SubstitutionsAt | src/typo.py:64-66 | neighbour `j` of position `i` sits at offset `NeighborCount(w[..i]) + j` and is `w` with position `i` replaced by it |
| Mutations.SubstitutionsShape | src/typo.py:60-68 | every variant has length `|w|` and differs from `w` at most at one position |
| Mutations.SubstitutionsUnmapped | src/typo.py:65-66 | an unmapped character yields `w` itself at its position |
| Mutations.VisualUpperHalfUnreachable | src/const.py:122-142 | the upper-case keys of the look-alike table never match the lower-cased lookup |
| Mutations.SubstitutionsVisualLowerHalf | src/typo.py:126 | `C1` substitutions from the whole look-alike table equal those from its lower-case half alone |
| Mutations.BeforeAfterWithNeighbor | src/typo.py:71-80 | the nested loop returns exactly `Insertions(w, table)` |
| Mutations.InsertAround | src/typo.py:75-78 | the inner loop for position `i` appends exactly that position's row of variants |
| Mutations.InsertionRowAt | src/typo.py:76-78 | within one position, neighbour `j` gives its "before" variant at `2j` and its "after" variant at `2j+1` |
| Mutations.InsertionRowLength | src/typo.py:76-78 | one position yields twice its neighbour count |
| Mutations.InsertionRowsPrefixLength | src/typo.py:75-78 | the variants of the first `k` positions number twice their neighbours |
| Mutations.InsertionsCount | src/typo.py:71-80 | twice the substitution count |
| Mutations.InsertionsAtRow | src/typo.py:75-78 | the row of position `i` starts at twice the neighbour count of the positions before it |
| Mutations.InsertionsAt | src/typo.py:76-78 | "before" `w[..i]+n+w[i..]` sits at `2(offset+j)`, immediately followed by "after" `w[..i+1]+n+w[i+1..]` |
| Mutations.InsertionsLength | src/typo.py:71-80 | every variant has length `|w|+1` |
| Mutations.InsertionRowMemberLength | src/typo.py:77-78 | each variant of one position is one character longer than the word |
| Mutations.InsertionsUnmapped | src/typo.py:76-78 | for an unmapped character the before and after variants are the same string, the doubling of that position |
| Const.NeighboringLettersKeys | src/const.py:42-69 | the keys are exactly `a`..`z` |
| Const.NeighboringLettersLists | src/const.py:42-69 | every list is non-empty and holds only lower-case letters |
| Const.NeighboringLettersIrreflexive | src/const.py:42-69 | no letter lists itself |
| Const.NeighboringLettersNotSymmetric | src/const.py:65 | `w` lists `d` but `d` does not list `w` |
| Const.NeighboringNumpadDigitsKeys | src/const.py:71-82 | the keys are exactly `0`..`9` |
| Const.NeighboringNumpadDigitsLists | src/const.py:71-82 | every list is non-empty and holds only digits |
| Const.NeighboringNumpadDigitsSymmetric | src/const.py:71-82 | `x` lists `y` exactly when `y` lists `x` |
| Const.NeighboringNumpadDigitsIrreflexive | src/const.py:71-82 | no digit lists itself |
| Const.VisuallySimilarDigitsKeys | src/const.py:84-95 | the keys are exactly `0`..`9` |
| Const.VisuallySimilarDigitsLists | src/const.py:84-95 | every list is non-empty and holds only digits |
| Const.VisuallySimilarDigitsSymmetric | src/const.py:84-95 | `x` lists `y` exactly when `y` lists `x` |
| Const.VisuallySimilarDigitsIrreflexive | src/const.py:84-95 | no digit lists itself |
| Const.VisuallySimilarLowerCharsIrreflexive | src/const.py:97-121 | no key of the lower-case half lists itself |
| Const.VisuallySimilarUpperCharsIrreflexive | src/const.py:122-142 | no key of the upper-case half lists itself |
| Const.VisuallySimilarCharsIrreflexive | src/const.py:97-143 | no key of the whole look-alike table lists itself |
| Const.VisuallySimilarCharsKeys | src/const.py:97-143 | the keys are the ten digits, `b c e g i m n o p q u v y z`, and `B`..`Z` except `H J K R`, split between the two halves |
| Const.VisuallySimilarLowerCharsLists | src/const.py:97-121 | every list of the first half is non-empty and holds only ASCII letters and digits |
| Const.VisuallySimilarUpperCharsLists | src/const.py:122-142 | every list of the upper-case half is non-empty and holds only ASCII letters and digits |
| Const.VisuallySimilarCharsLists | src/const.py:97-143 | every list of the whole table is non-empty and holds only ASCII letters and digits |
| Const.VisuallySimilarCharsNotSymmetric | src/const.py:105-126 | `F` lists `7` but `7` does not list `F` |
| Const.VisuallySimilarCharsHalves | src/const.py:97-143 | the first half has no upper-case key; the second has only keys in `B`..`Z` |
| Values.FullDomain | src/typo.py:98 | the cache key is the label, a dot and the TLD, in that order |
| Availability.LookupHit | src/typo.py:100-101 | with caching on, a cached domain returns the stored entry with no request, save or pause and the cache unchanged |
| Availability.LookupUnchecked | src/typo.py:103-104 | with checking off, a miss returns the seed dictionary and changes nothing |
| Availability.LookupRejected | src/typo.py:105-107 | an error response raises after one request and before anything is stored, saved or paused |
| Availability.LookupFetched | src/typo.py:108-112 | a success overlays the response on the seed, is stored even with caching off, is saved only with caching on, and is followed by one pause |
| Availability.FetchedOverlay | src/typo.py:108 | `update` lets the response's fields win over the seed's and keeps the union of the keys |
| Availability.LookupAccounted | src/typo.py:97-114 | a lookup removes no entry and changes no other entry; pauses follow requests; saves equal pauses with caching on; with checking off nothing changes |
| Availability.AccountedTrans | src/typo.py:97-114 | that bookkeeping composes over consecutive lookups |
| Availability.SavedEntryServesNextRun | src/typo.py:85-89 | after a cached success, a later run loading the saved file hits the same dictionary without a request |
| Availability.AvailabilityCache.constructor | src/typo.py:85-89 | the cache starts as the loaded file, already saved, with no requests, saves or pauses |
| Availability.AvailabilityCache.Save | src/typo.py:92-94 | the whole current map becomes the saved snapshot |
| Availability.AvailabilityCache.Lookup | src/typo.py:97-114 | the new state and outcome are exactly `LookupStep` of the old state |
| Typo.MutateSpec | src/typo.py:120-130 | only the swap of a one-letter label raises, and each code yields as many typos as its mutation's count |
| Typo.Typos | src/typo.py:137 | dispatching a code runs its mutation method and returns `Mutate(word, code)` |
| Typo.SelectFromMembers | src/typo.py:134-136 | a code is selected from the first `k` rows of the table exactly when it is among them and the filter picks it |
| Typo.SelectFromOrdered | src/typo.py:134 | the codes selected from a prefix of the table keep table order |
| Typo.SelectedSpec | src/typo.py:132-136 | a code is selected exactly when the filter picks it, and the selection keeps table order |
| Typo.SelectedIs | src/typo.py:132-136 | the selection is determined by which codes the filter picks: any list in table order of exactly those codes is it |
| Typo.SelectedAll | src/typo.py:132 | no filter and the empty filter both select all nine codes |
| Typo.SelectedGroups | src/typo.py:135-136 | `b` and `B` both select `B1`, `B2`, `B3`, in order |
| Typo.SelectedPairs | src/typo.py:135-136 | `a`, `c` and `D` select their groups of two, in order |
| Typo.SelectedKey | src/typo.py:132-136 | every code's key, upper- or lower-case, selects that code alone |
| Typo.SelectedGroup | src/typo.py:132-136 | a group letter selects exactly the codes of that group, in table order, and its lower-case form selects the same |
| Typo.SelectedCodes | src/typo.py:136 | `C2`, `b3` and `B1` each select that code alone |
| Typo.SelectedNothing | src/typo.py:136 | a filter that is neither a group letter nor a code selects nothing |
| Typo.SelectedOthers | src/typo.py:136 | `Z`, `A3` and `B12` select nothing |
| Typo.PlanExtends | src/typo.py:134-137 | the typos of a prefix of the selected codes come first, and once a mutation raised nothing follows |
| Typo.PlanForSpec | src/typo.py:134-137 | the plan raises exactly when the swap is selected on a one-letter label; otherwise it holds every code's typos in order |
| Typo.PlanStep | src/typo.py:137 | one more code either crashes the plan or appends its typos |
| Typo.RunTasksAppend | src/typo.py:137-140 | looking up two lists of typos in turn is looking up their concatenation |
| Typo.RunTasksPrefixFailed | src/typo.py:138 | once a lookup raised, the rest of the typos change nothing |
| Typo.AdvanceYields | src/typo.py:138-140 | one lookup either raises `APIRequestError` and yields nothing, or keeps the earlier yields and adds one dictionary tagged with the typo's code |
| Typo.AdvanceAnswer | src/typo.py:100-140 | the yielded dictionary is the lookup's answer with the `freq` tag written over it; on a hit or a fetch the cache entry under the domain is that same tagged dictionary |
| Typo.RunTasksFailed | src/typo.py:138 | after a lookup raised, no further typo changes anything |
| Typo.RunTasksCount | src/typo.py:137-140 | one dictionary per typo unless a lookup raised, never more; the only exception is `APIRequestError` |
| Typo.RunTasksTags | src/typo.py:137-140 | from a fresh run, the `k`-th yielded dictionary carries the `freq` tag of the `k`-th typo's code |
| Typo.DrainCount | src/typo.py:137-140 | a drained plan yields one dictionary per typo unless it raised; it raises whenever the plan crashed, and `IndexError` only then |
| Typo.DrainTags | src/typo.py:139 | every dictionary of a drained plan carries the tag of its typo's code |
| Typo.RunTasksAccounted | src/typo.py:137-140 | over many lookups: entries only accumulate, pauses follow requests, saves equal pauses with caching on, no requests with checking off |
| Typo.AdvanceFills | src/typo.py:100-109 | with checking on, a lookup that does not raise keeps every cached domain and leaves its own domain cached |
| Typo.RunTasksFills | src/typo.py:109 | with checking on, a run that did not raise leaves every looked-up domain in the cache |
| Typo.RunTasksWarm | src/typo.py:100-101 | with caching on and every domain cached, a run makes no request, save or pause and does not raise |
| Typo.RunTasksOffline | src/typo.py:103-104 | with caching and checking off, each typo yields a dictionary holding only its `freq` tag |
| Typo.GenerateIndexError | src/typo.py:35-37 | a drained run ends with `IndexError` exactly when `B2` is selected for a one-letter label and no registrar error came first |
| Typo.GenerateYields | src/typo.py:134-140 | without an exception, one dictionary per planned typo; every dictionary carries the tag of a selected code |
| Typo.GenerateAccounted | src/typo.py:117-140 | the cache bookkeeping over a whole drained run |
| Typo.GenerateTwice | src/typo.py:100-101 | with caching and checking on, repeating a finished generation makes no request, pause or save and yields as many dictionaries |
| Typo.ExamplePlan | src/typo.py:51-57 | `test` filtered by `B1` plans `est`, `tst`, `tet`, `tes` |
| Typo.ExampleRun | src/typo.py:103-104 | looking up `est`, `tst`, `tet`, `tes` with caching and checking off yields `{"freq": "[B1]"}` four times and leaves the cache alone |
| Typo.GenerateExample | src/typo.py:117-140 | `test`/`com`/`B1` with caching and checking off yields `{"freq": "[B1]"}` four times and leaves the cache alone |
| Typo.GenerateCrashed | src/typo.py:137 | a mutation that raises ends the generator with `IndexError` after the earlier yields |
| Typo.GenerateRaised | src/typo.py:138 | a registrar error ends the generator right there |
| Typo.CheckCachedAvailability | src/typo.py:97-114 | a lookup of `typo.tld` whose miss path starts from `{}` |
| Typo.Visit | src/typo.py:138-140 | one typo: look up, tag in place (the cache entry too when it is the same dictionary), yield |
| Typo.VisitAll | src/typo.py:137-140 | the inner loop equals `RunTasks` over the code's typos |
| Typo.GenerateTypos | src/typo.py:117-140 | the drained generator, its final exception and the new cache are exactly `GenerateSpec` |
| Typo.SelectFromPrefix | src/typo.py:134-136 | selecting from a prefix of the table gives a prefix of the selection |
| Utils.LogLevel | src/utils.py:17-27 | each level exactly for its names, in any case, and `DEBUG` for `DEBUG` or any unknown name |
| Utils.LogLevelIgnoresCase | src/utils.py:27 | the level of a name equals that of its lower- and upper-case forms |
| Utils.LogLevelExamples | src/utils.py:17-27 | `info`, `Warn`, `fatal` resolve; `verbose` and the empty name give `DEBUG` |
| Utils.DomainSeed | src/utils.py:162 | the miss path starts from exactly `{"domain": fqdn}` |
| Utils.CheckCachedAvailability | src/utils.py:156-173 | a lookup of `domain.tld` in this module's own cache, starting from `{"domain": fqdn}` |
| Utils.MissAnswer | src/utils.py:162-173 | a miss returns `{"domain": fqdn}` with checking off, raises with the cache unchanged on error, or returns and stores the overlay |
| Utils.LookupOnlyGrows | src/utils.py:144-173 | no lookup removes an entry or changes an entry other than its own |

## Left out

- The registrar client `src/godaddy.py` (HTTP through `requests`) is not part of
  this model. It is the parameter `service`, a fixed function for a run, so a
  registrar whose answers change during a run is not modelled.
- A registrar response that is not a dictionary, nested JSON values and floating
  point numbers are not modelled. A response is a flat map to null, booleans,
  integers and strings.
- Reading and writing the JSON cache file, and `time.sleep(1)`, are not modelled.
  The written file is the ghost snapshot `saved`; requests, saves and pauses are
  ghost counters.
- The two module-level caches are loaded independently from the same file at
  import time. Each is its own `AvailabilityCache` object, built by the
  constructor from whatever map was loaded.
- Clearing the cache from the command line (`src/cli.py:97-99`) happens after
  `src/utils.py` has loaded the file (imported at `src/cli.py:11`) and before
  `src/typo.py` is imported (`src/cli.py:153`). The cache of `src/typo.py` is
  then the constructor with the empty map. The cache of `src/utils.py` keeps the
  old entries while the file holds `{}`; the constructor, whose saved snapshot
  equals its entries, does not describe that state.
- The command line, logging set-up, printing, the grep filter, opening links and
  `utils.final` are not modelled.
- Case mapping is ASCII only. Python's `str.lower`/`str.upper` also map non-ASCII
  letters, some of them to several characters. This affects `Lower` in
  `generate_typos`, the neighbour lookup and `Utils.LogLevel`.
- Dictionary key order is not modelled: records are maps.
- Identity of yielded dictionaries is not modelled: each yield is a value snapshot.
  When a later step tags the same cache entry again, the model changes the cache
  but not the dictionary yielded earlier.
- The generator is drained to its end. A consumer that stops early sees a prefix
  of the yields; the model does not represent laziness.
- Typo.GenerateTwice: states that the second run makes no requests, saves or
  pauses, and yields as many dictionaries. It does not state that the second
  run's dictionaries equal the first run's. In the source the second run's hits
  return, and re-tag, the very dictionary objects the first run yielded; the
  model has no object identity, so that effect is left out.
