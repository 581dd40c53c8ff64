# Electronic components catalogue — a verified model of its logic

The catalogue is a web site for electronic components: transistors, MOSFETs,
IGBTs, SCRs and ICs. This project models the logic behind its pages, its API
route and its data scripts as Dafny definitions, and proves what each part
promises.

- **Equivalence scoring** (`TransistorEquivalence`) reads a part's
  parameters from its specification texts. It scores a candidate
  replacement by polarity, current, voltage, package, gain, power,
  frequency and capacitance, then ranks the candidates that pass the
  threshold.
- **Transistor utilities** (`TransistorUtils`, `Numbers`) cover the unit
  annotations, the number-and-unit parser, and the extractor for scraped
  datasheet pages. They also cover the application classifier and the
  application wording.
- **The response cache** (`Cache`) is a class holding the entry
  dictionary. It handles expiry, the overwrite, the eviction of the 200
  entries that expire soonest once the cache grows past 1000, and the
  32-bit hash behind the cache keys.
- **The assistant route** (`AssistantRoute`) covers the per-address rate
  limiter and the order of the route's checks. The limiter's store is a
  plain object, so a client address that names an `Object.prototype` member
  (such as "constructor" or "toString") finds the inherited member, and
  that client is never limited; the model states this alongside the
  ten-per-minute bound for every other address.
- **Catalogue data** (`ComponentData`) covers paging over the chunk files,
  the filters, search and lookup by id. (`Pagination`) is the pager's list
  of page numbers, with its previous and next buttons.
- **The pages** (`TransistorFinder`, `TransistorComparison`,
  `EquivalenceInfo`, `EquivalentComponents`, `EquivalentsPage`,
  `ComparisonDrawer`, `CircuitsPage`, `ComponentSelector`,
  `ElectronicIcons`) model the decisions the pages make. The markup they
  render is not modelled.
- **The chat assistant** (`ChatAssistant`) is a class holding the message
  list, the request count, the error and the loading flag, with its
  submission gate.
- **The data scripts** (`SplitComponents`, `ProcessTransistorData`,
  `Chunking`) cover extraction and the partition into numbered chunk files.

Shared definitions live in `Wrappers` (`Option`), `Seqs` (map, filter,
slice), `Text` (JavaScript string operations on ASCII text), `Sorting`
(the stable sort the pages rely on), `ComponentTypes` (the component
records) and `Sessions` (the sign-in session).

Parameters stand in for the things the model cannot see:
- the current time (`now`); the assistant route reads the clock three
  times, so it takes three readings: `now` for the limiter, `lookupTime`
  for the cache read and `replyTime` for the cache write after the
  upstream reply;
- the chunk files the data layer imports (a function from chunk number to
  an optional list);
- the chat's upstream reply (an outcome value);
- the regular expressions of the page extractor (their match results);
- number formatting (a function from number to text).

Numbers are exact reals. JavaScript's `undefined` is `None`.

## Model

| member | source | states |
|---|---|---|
| TransistorEquivalence.SpecLookup | lib/transistor-equivalence.ts:26-33 | the first non-empty value among the alternative spec keys; empty exactly when every key is missing or empty |
| TransistorEquivalence.ExtractPolarityFromType | lib/transistor-equivalence.ts:39-46 | NPN, PNP, N-Channel, P-Channel checked case-insensitively in that order, each iff the earlier ones are absent and it is present; null when none occurs |
| TransistorEquivalence.PolarityOf | lib/transistor-equivalence.ts:21 | the stated polarity when non-empty, otherwise the polarity named in the type text, and "Unknown" exactly when none is named |
| TransistorEquivalence.DetermineApplication | lib/transistor-equivalence.ts:61-86 | "switching" iff the lowercased description says switch/digital; "amplification" iff not that and it says amplif/audio/linear; "high-frequency" iff no keyword matched and the transition frequency is above 100 MHz; "power" iff none of those and the power rating is above 5 W; "general" iff none of the four holds |
| TransistorEquivalence.ExtractTransistorParams | lib/transistor-equivalence.ts:19-36 | the type is the polarity rule, the package defaults to "Unknown", every parsed rating is non-negative, and a part without specs has no ratings |
| TransistorEquivalence.UnknownPolaritiesMatch | lib/transistor-equivalence.ts:21 | two parts naming no polarity anywhere both get type "Unknown", so they count as the same type |
| TransistorEquivalence.UnknownPackageHasNoFamily | lib/transistor-equivalence.ts:186-203 | the compatible list is empty exactly when the upper-cased, trimmed name is not a known package |
| TransistorEquivalence.FamilyStartsWithItself | lib/transistor-equivalence.ts:187-196 | every family lists its own package first |
| TransistorEquivalence.KnownPackageIsCompatibleWithItself | lib/transistor-equivalence.ts:199-202 | a known package, after normalisation, is in its own compatible list |
| TransistorEquivalence.CompatiblePackagesIgnorePadding | lib/transistor-equivalence.ts:199 | whitespace around the package name does not change its compatible list |
| TransistorEquivalence.PackagePoints | lib/transistor-equivalence.ts:99-107 | 15 iff the packages are identical, 10 iff not identical but in the original's compatible list, 0 otherwise |
| TransistorEquivalence.RatingPoints | lib/transistor-equivalence.ts:110-132 | a current or voltage rating scores only when both are non-zero and the replacement meets the original (15), with 5 more iff it is at most twice the original |
| TransistorEquivalence.GainPoints | lib/transistor-equivalence.ts:135-154 | no points unless both gains are non-zero; for a switching original 15 iff the replacement's gain is at least the original's, else 5; otherwise 15 iff the ratio is in [0.8, 1.2], 10 iff outside that but in [0.5, 1.5], else 5 |
| TransistorEquivalence.HeadroomPoints | lib/transistor-equivalence.ts:156-172 | power and frequency: 10 iff both are non-zero and the replacement meets the original, 5 iff it is below but within 80% |
| TransistorEquivalence.CapacitancePoints | lib/transistor-equivalence.ts:174-179 | 5 iff both capacitances are non-zero and the replacement's is not higher |
| TransistorEquivalence.CompatibilityScore | lib/transistor-equivalence.ts:89-183 | the score lies in 0..95, so the cap at 100 never binds, and a vetoed replacement (other type, lower current or voltage) scores 0 |
| TransistorEquivalence.CalculateCompatibilityScore | lib/transistor-equivalence.ts:89-183 | the accumulating method with its early returns computes the rule-by-rule score, which lies in 0..95 |
| TransistorEquivalence.AbsentRatingIsNeutral | lib/transistor-equivalence.ts:110-175 | a rating that is absent or zero on the original never changes the score, whatever the replacement states for it |
| TransistorEquivalence.SelfCompatible | lib/transistor-equivalence.ts:94-107 | a part compared with itself is never vetoed and scores at least 15 |
| TransistorEquivalence.QualifyingCandidates | lib/transistor-equivalence.ts:213-220 | the kept candidates are exactly the candidates other than the original whose score reaches the threshold, each carrying its score |
| TransistorEquivalence.RankCandidates | lib/transistor-equivalence.ts:213-221 | the same list of qualifying scored candidates, reordered (equal as multisets) into non-increasing score order |
| TransistorEquivalence.FindEquivalentTransistors | lib/transistor-equivalence.ts:206-224 | every result is a candidate other than the original, scored by the engine and at least the threshold; every such candidate is returned; the result is exactly the qualifying candidates (equal as multisets), reordered best first |
| TransistorUtils.UnitEntriesMeaning | lib/transistor-utils.ts:10-65 | each of the eight `...WithUnit` fields is present exactly when its rating is, with the same value and the fixed unit A, V, V, V, W, °C, MHz or pF |
| TransistorUtils.EnhanceTransistorWithUnits | lib/transistor-utils.ts:6-67 | the copy keeps the input transistor unchanged and sets exactly the unit fields described by `UnitEntries` |
| Numbers.ParseValueWithUnit | lib/transistor-utils.ts:70-81 | a result exactly when the whole text is digits and dots, optional whitespace, then a non-empty run of letters, ° or Ω (so never for the empty text); the number is read from the leading run and the unit is the trailing run |
| Numbers.UnitPatternSplitIsUnique | lib/transistor-utils.ts:74 | the pattern splits a matching text in one way only: after the longest digit-and-dot run and the whitespace that follows it |
| Numbers.ParseDigitsAndDots | lib/transistor-utils.ts:78 | the leading number of a digit-and-dot run is absent only for an empty run or one starting with a dot not followed by a digit |
| TransistorUtils.FindFirst | lib/transistor-utils.ts:234 | the index of the first line that matches, or none exactly when no line matches |
| TransistorUtils.ExtractValue | lib/transistor-utils.ts:233-237 | the extracted value is always trimmed |
| TransistorUtils.ExtractValueWithoutLabel | lib/transistor-utils.ts:235 | '' when no line, once trimmed, starts with the label |
| TransistorUtils.ExtractValueAt | lib/transistor-utils.ts:234-236 | for the first line whose trimmed text starts with the label, the value is that untrimmed line without its first `prefix.length` characters, trimmed |
| TransistorUtils.ExtractValueOfPrefixedLine | lib/transistor-utils.ts:233-237 | a line that begins with the label gives the trimmed rest of the line |
| TransistorUtils.ExtractValueOfIndentedLine | lib/transistor-utils.ts:236 | an indented line is cut by the label's length from its untrimmed start, so the tail of the label leaks into the value |
| Numbers.ExtractNumericValue | lib/transistor-utils.ts:240-249 | undefined exactly when the text has no digit (the empty text included); otherwise a non-negative number |
| Numbers.ExtractNumericValueOfDigits | lib/transistor-utils.ts:244-246 | a text starting with a digit run not followed by a digit or dot reads as that whole number |
| Numbers.ExtractNumericValueOfNat | lib/transistor-utils.ts:244-246 | a number written in decimal after a digit-free prefix reads back as itself |
| Numbers.ExtractNumericValueOfDecimal | lib/transistor-utils.ts:244-246 | digits, a dot and digits after a digit-free prefix read as that decimal number |
| Numbers.ExtractNumericValueAfter | lib/transistor-utils.ts:244 | the number read is the one starting at the first digit |
| TransistorUtils.JsSubstring | lib/transistor-utils.ts:123 | `substring` clamps both ends into the text and is the plain slice for in-range ends |
| TransistorUtils.JsSubstringSymmetric | lib/transistor-utils.ts:123 | `substring` swaps reversed ends |
| TransistorUtils.FirstParagraph | lib/transistor-utils.ts:124 | the first paragraph is a prefix of the text, and the whole text when it has no blank line |
| TransistorUtils.ScrapedDescription | lib/transistor-utils.ts:112-129 | the scraped description is trimmed |
| TransistorUtils.DescriptionOf | lib/transistor-utils.ts:138-140 | a scraped description shorter than 20 characters is replaced by the generated one, so the result has at least 20 characters |
| TransistorUtils.ManufacturerOf | lib/transistor-utils.ts:113-135 | "Various" unless the manufacturer pattern matched, then the trimmed match |
| TransistorUtils.TransistorKind | lib/transistor-utils.ts:191 | "NPN Transistor" or "PNP Transistor" for those polarities, else "Transistor" |
| TransistorUtils.ScrapedNumberOfLine | lib/transistor-utils.ts:101-109 | a labelled line holding a whole number and a unit gives that number |
| TransistorUtils.ScrapedDigitsOfLine | lib/transistor-utils.ts:101-109 | a labelled line holding a digit string and a unit gives the digits' value |
| TransistorUtils.SpecText | lib/transistor-utils.ts:210-218 | 'N/A' exactly when the value is absent or 0, otherwise the formatted value followed by its unit |
| TransistorUtils.DatasheetSlugHasNoWhitespace | lib/transistor-utils.ts:151 | the `dire` part of a datasheet link holds no whitespace |
| TransistorUtils.DatasheetOfLinks | lib/transistor-utils.ts:149-152 | every datasheet link points at the PDF viewer and its name starts with the trimmed title |
| TransistorUtils.CollectDatasheets | lib/transistor-utils.ts:143-154 | the loop pushes one datasheet per match, in match order |
| TransistorUtils.EquivalentsOfMeaning | lib/transistor-utils.ts:172-183 | the equivalents are the related part numbers other than the designator, each built by the fixed rule; none is the part itself and none is lost |
| TransistorUtils.CollectEquivalents | lib/transistor-utils.ts:157-185 | the loop pushes the equivalents described by `EquivalentsOf` |
| TransistorUtils.ExtractTransistorFromScrapedData | lib/transistor-utils.ts:84-230 | the result is the whole record `ExtractedRecord` describes; null exactly when the text is missing, empty or lacks "Type Designator:"; otherwise id, name and href come from the designator, the type follows the polarity rule, each field comes from its labelled line, the description is the scraped one when it has at least 20 characters and otherwise the fallback built from polarity, material and ratings, the manufacturer defaults to "Various", and specs, datasheets and equivalents follow their rules |
| TransistorUtils.TagsThatHoldMembers | lib/transistor-utils.ts:255-290 | the tags pushed by the first rules are exactly the tags whose rule holds, in rule order |
| TransistorUtils.ApplicationsMeaning | lib/transistor-utils.ts:252-298 | the list is non-empty and duplicate-free; a tag other than "general" is in it iff its threshold rule holds; "general" is in it iff no rule holds and then alone; "rf" only with "high-frequency"; "power" iff power dissipation is above 5 |
| TransistorUtils.DetermineTransistorApplication | lib/transistor-utils.ts:252-298 | the pushing method returns the tags described by `Applications` |
| TransistorUtils.GetTransistorApplications | lib/transistor-utils.ts:301-323 | each text is returned exactly when its rule is the first to hold, in the order power+audio, power, high-frequency+low-noise, high-frequency, audio, high-voltage, high-current, low-noise; the general text exactly when the tag list is just "general" |
| Cache.MemoryCache.constructor | lib/cache.ts:2 | the cache starts empty |
| Cache.AfterGet | lib/cache.ts:7-25 | after a read the key remains exactly when its entry existed and had not expired; every other key and its entry is unchanged |
| Cache.MemoryCache.Get | lib/cache.ts:7-25 | returns the stored value exactly when an entry exists whose expiry is strictly after `now`; an expired entry is deleted and nothing else changes |
| Cache.MemoryCache.Set | lib/cache.ts:30-53 | stores the value with expiry now + seconds·1000, evicting as `AfterSet` describes, and keeps the size bound |
| Cache.MemoryCache.EvictOldest | lib/cache.ts:40-48 | the eviction loop deletes exactly the 200 keys that come first in expiry order |
| Cache.DeleteFirst | lib/cache.ts:46-48 | deleting the first `n` sorted keys removes exactly those keys from the entries and the key order |
| Cache.AfterSetStores | lib/cache.ts:33-36 | the new entry is stored under its key, overwriting any previous one, and every other surviving entry is unchanged; without eviction the result is the old map updated at the key |
| Cache.AfterSetEvictsOldest | lib/cache.ts:39-49 | when a new key pushes the size past 1000, exactly 200 entries go, and each removed expiry is at most every remaining expiry |
| Cache.AfterSetKeepsBound | lib/cache.ts:30-49 | starting from at most 1000 entries, a write leaves at most 1000 |
| Cache.OldestAreOldest | lib/cache.ts:43-47 | the 200 keys first in expiry order are entries of the cache, exactly 200 of them, none with a later expiry than a key that stays |
| Cache.EvictionKeepsValid | lib/cache.ts:41-48 | after eviction the key order lists exactly the remaining entries, without repetition, and at most 1000 remain |
| Cache.ToInt32 | lib/cache.ts:67 | `hash & hash` maps any integer into the signed 32-bit range |
| Cache.ToInt32IsCongruent | lib/cache.ts:67 | the 32-bit value differs from its input by a multiple of 2^32 |
| Cache.ToInt32Congruent | lib/cache.ts:66-67 | integers congruent modulo 2^32 give the same 32-bit value |
| Cache.ShiftStepIsTimes31 | lib/cache.ts:66-67 | `(h << 5) - h + c`, wrapped to 32 bits, is 31·h + c wrapped to 32 bits |
| Cache.HashStep | lib/cache.ts:63-68 | the hash of one more character is the wrapped recurrence step applied to the hash so far |
| Cache.Hash | lib/cache.ts:63-68 | the hash stays in the signed 32-bit range |
| Cache.GenerateCacheKey | lib/cache.ts:58-71 | the hashing loop returns "ai_response_" followed by the decimal hash of the trimmed, lowercased message |
| Cache.CacheKeyMeansSameHash | lib/cache.ts:60-70 | two messages share a key exactly when their normalised texts hash alike |
| Cache.CacheKeyIgnoresCaseAndPadding | lib/cache.ts:60 | messages differing only in case and surrounding whitespace share a key |
| AssistantRoute.ClientIp | app/api/ai-assistant/route.ts:16 | the client is the `x-forwarded-for` value when it is present and non-empty, otherwise the shared "unknown" client |
| AssistantRoute.Window | app/api/ai-assistant/route.ts:20-26 | the window checked is the stored one while it has not ended, otherwise a fresh window with count 0 ending a minute after `now`; it never ends before `now` |
| AssistantRoute.AfterRequest | app/api/ai-assistant/route.ts:20-35 | a rejected request, and any request from an inherited name, leaves the store unchanged; an admitted one from another client stores its window with the count raised by one; no other client's record changes |
| AssistantRoute.AfterRequestKeepsBound | app/api/ai-assistant/route.ts:29-35 | every stored count stays between 1 and 10 |
| AssistantRoute.ExpiredWindowAdmits | app/api/ai-assistant/route.ts:23-26 | once the window of a client that is not an inherited name has ended, the client is admitted again and starts a new window with count 1 |
| AssistantRoute.AtMostMaxWithinWindow | app/api/ai-assistant/route.ts:20-35 | however many requests a known client that is not an inherited name sends before its window ends, at most 10 minus its current count are admitted |
| AssistantRoute.AtMostMaxForNewClient | app/api/ai-assistant/route.ts:20-35 | a new client that is not an inherited name has at most 10 requests admitted within one minute of its first |
| AssistantRoute.InheritedNamesUnlimited | app/api/ai-assistant/route.ts:20-35 | a client named after an `Object.prototype` member has every request admitted, however many and however close together |
| AssistantRoute.RateLimiter.constructor | app/api/ai-assistant/route.ts:10 | the store of request records starts empty |
| AssistantRoute.RateLimiter.Check | app/api/ai-assistant/route.ts:18-35 | admits an inherited name always, and any other client exactly when its current window has fewer than 10 requests; updates the store as `AfterRequest` says |
| AssistantRoute.Reply | app/api/ai-assistant/route.ts:57-137 | without an API key the reply is a 500 error; an upstream failure passes on its status and details; an exception on the way becomes the 500 "Failed to process request" carrying its message; otherwise the upstream data is the answer |
| AssistantRoute.Outcome | app/api/ai-assistant/route.ts:45-52 | an answer cached for the message's key and unexpired at the lookup's clock reading is returned as it is; otherwise the reply comes from the key check and the upstream |
| AssistantRoute.OnlyAnswersAreCached | app/api/ai-assistant/route.ts:112-128 | a request that yields an error, or is served from the cache, stores nothing new in the cache and changes no stored answer |
| AssistantRoute.CacheHitIgnoresUpstream | app/api/ai-assistant/route.ts:48-52 | on a cache hit the response depends neither on the API key nor on the upstream |
| AssistantRoute.AskUpstream | app/api/ai-assistant/route.ts:57-137 | replies as `Reply` says, an exception included, and stores a successful answer under the key for 24 hours from the write's own clock reading, leaving the cache unchanged otherwise |
| AssistantRoute.AnswerExpiresADayAfterReply | app/api/ai-assistant/route.ts:125-128 | a stored answer, when it survives eviction, expires 24 hours after the write's clock reading, and without eviction it is the only change |
| AssistantRoute.Respond | app/api/ai-assistant/route.ts:44-130 | returns the cached answer or the upstream reply as `Outcome` says at the lookup's reading, and leaves the cache as `CacheAfter` says, with the answer stored at the reply's reading |
| AssistantRoute.Post | app/api/ai-assistant/route.ts:12-138 | the request limit comes first (429, cache untouched), then an unreadable body (the 500 "Failed to process request" with the reason, cache untouched) and a missing or empty message (400), and only then the cache and the upstream; the limiter, the cache read and the cache write each use their own clock reading; the limiter store always advances as `AfterRequest` says |
| Pagination.Range | components/pagination.tsx:31-33 | the pages from `a` to `b`, one per number in increasing order, and none when `a > b` |
| Pagination.RangeSnoc | components/pagination.tsx:31-33 | one more loop step appends the next page number |
| Pagination.Bar | components/pagination.tsx:12 | the bar is hidden exactly when there is at most one page |
| Pagination.PushRange | components/pagination.tsx:31-33 | the loop appends exactly the pages of the range |
| Pagination.GetPageNumbers | components/pagination.tsx:15-46 | the pushes produce the item list `PageNumbers` describes |
| Pagination.PageNumbersOrdered | components/pagination.tsx:18-43 | the list starts with page 1, ends with the last page, and its page numbers strictly increase and lie between 1 and the last page |
| Pagination.EllipsisPlacement | components/pagination.tsx:25-38 | for a current page in range, an ellipsis follows page 1 exactly when the window starts after 2 and precedes the last page exactly when it ends before the page before last; two ellipses are never adjacent |
| Pagination.EllipsisHidesAPage | components/pagination.tsx:22-38 | with a current page in range, or at least three pages, an ellipsis stands between two pages that are at least two apart |
| Pagination.EllipsisHidesNothingOutOfRange | components/pagination.tsx:22-38 | with the current page beyond the last of two pages, an ellipsis stands between pages 1 and 2, hiding nothing |
| Pagination.CurrentPageShown | components/pagination.tsx:18-43 | a current page in range is always listed, and the list has at most seven items |
| Pagination.NavigationLinks | components/pagination.tsx:53-87 | the previous link is disabled exactly on page 1, the next link exactly on the last page, and some link is active exactly when there are several pages |
| ComponentData.NoResult | lib/component-data.ts:59-68 | a failed load returns no data, a total of 0 and 0 pages, and echoes the requested page and page size |
| ComponentData.ApplyFiltersMeaning | lib/component-data.ts:31-46 | the chain of type, name and manufacturer filters keeps exactly the components that pass every filter that is set, in chunk order |
| ComponentData.ChunkOfPage | lib/component-data.ts:25 | pages 5k+1 to 5k+5 are all read from chunk k+1 |
| ComponentData.ChunkOffset | lib/component-data.ts:49 | the start index within the chunk lies below five pages' worth of entries for every page from 1 on |
| ComponentData.OffsetIsPageInChunk | lib/component-data.ts:49 | the start index is the page's position within its chunk times the page size |
| ComponentData.LoadComponents | lib/component-data.ts:13-69 | echoes page and page size and returns at most a page of data; a chunk that cannot be loaded gives the empty result; otherwise the total is the number of filtered components and the page count is that total divided by the page size, rounded up |
| ComponentData.LoadComponentsWindow | lib/component-data.ts:48-50 | the data is the page's slice of the filtered chunk, cut off at its end, and empty when the start lies beyond it |
| ComponentData.FindById | lib/component-data.ts:82 | finds a component of the chunk with the id, and finds none exactly when no component has it |
| ComponentData.FoundInFirstChunk | lib/component-data.ts:78-88 | a found component comes from the first loadable chunk holding the id, every earlier chunk missing it or failing to load |
| ComponentData.NotFoundAnywhere | lib/component-data.ts:78-90 | the lookup gives null exactly when none of the chunks 1 to 20 can be loaded with the id in it |
| ComponentData.GetComponentById | lib/component-data.ts:72-95 | the loop over chunks 1 to 20 returns the component the chunk-by-chunk search describes |
| ComponentData.SearchResultsMembers | lib/component-data.ts:103-125 | a component is among the search results exactly when it matches the query and lies in one of the loadable chunks searched |
| ComponentData.SearchComponents | lib/component-data.ts:98-148 | gathers the matches of chunks 1 to 5 in order; the total counts them, the data is the page's slice of at most a page, and the page count is the total divided by the page size, rounded up |
| ComponentData.ConsecutiveWindows | lib/component-data.ts:127-129 | two consecutive pages of the search results together are the results between their bounds: pages neither overlap nor skip entries |
| TransistorFinder.BuildQuery | components/transistor-finder.tsx:39-51 | the appends build the query text "transistor" followed by each non-empty choice, space-separated |
| TransistorFinder.QueryMentionsChoices | components/transistor-finder.tsx:39-51 | the query starts with "transistor", is exactly "transistor" when nothing is chosen, and contains every chosen polarity, package and application |
| TransistorFinder.ChoiceOccurs | components/transistor-finder.tsx:41-51 | an appended choice occurs in the query |
| TransistorFinder.Names | components/transistor-finder.tsx:105 | the list of application texts, one per tag and in the tags' order |
| TransistorFinder.KeptWithinBounds | components/transistor-finder.tsx:57-112 | a kept component has a type containing "transistor" and every present, non-zero rating inside its chosen range |
| TransistorFinder.AbsentRatingsImposeNoBound | components/transistor-finder.tsx:65-87 | ratings that are absent or zero never reject, whatever the bounds |
| TransistorFinder.DefaultsKeepTransistors | components/transistor-finder.tsx:18-112 | with the initial choices, a transistor whose ratings lie in the default ranges is kept whatever its polarity and package |
| TransistorFinder.UnproducedChoicesKeepNothing | components/transistor-finder.tsx:104-195 | choosing "switching" or "amplification" keeps nothing, because no application tag has those names |
| TransistorFinder.AsTransistors | components/transistor-finder.tsx:63 | the cast pairs each component, in order, with the ratings its record carries |
| TransistorFinder.HandleSearch | components/transistor-finder.tsx:34-114 | the results are the transistors of the first page of the catalogue search that pass the filter, in order |
| TransistorFinder.FinderResultsMeaning | components/transistor-finder.tsx:54-112 | at most a page of results, and a transistor is among them exactly when it is on the first search page and passes every test |
| TransistorComparison.InitialSelection | components/transistor-comparison.tsx:23-25 | nothing is selected exactly when there are no equivalents; otherwise the first equivalent is |
| TransistorComparison.SelectedScore | components/transistor-comparison.tsx:27-29 | the score is 0 with nothing selected and otherwise the compatibility score of the two parts' extracted parameters, always between 0 and 95 |
| TransistorComparison.BadgeFollowsAssessment | components/transistor-comparison.tsx:49-181 | the badge and the assessment text change at the same thresholds: excellent and the default badge from 90, good and the secondary badge from 70, otherwise possible and the outline badge |
| TransistorComparison.AssessmentIsMonotone | components/transistor-comparison.tsx:177-181 | a higher score never gets a worse assessment |
| TransistorComparison.Divide | components/transistor-comparison.tsx:248 | floating-point division is the exact quotient for a non-zero divisor |
| TransistorComparison.CompareValuesMeaning | components/transistor-comparison.tsx:243-255 | for a positive original the replacement is shown as not lower exactly when it is at least the original; for a zero original exactly when it is positive |
| TransistorComparison.CompareHFEMeaning | components/transistor-comparison.tsx:258-272 | for a positive original gain, a good match is within 80% to 120% of it, a higher gain above 120% and a lower gain below 80% |
| TransistorComparison.Listed | components/transistor-comparison.tsx:188-221 | a warning is listed exactly when its condition holds, each at most once |
| TransistorComparison.WarningsMeaning | components/transistor-comparison.tsx:188-221 | the six warnings appear exactly when polarity or package differ, current or voltage is lower, power is below 80%, or the gain lies outside 70% to 130% of the original's, where present and non-zero |
| TransistorComparison.NoWarningAgainstItself | components/transistor-comparison.tsx:188-221 | a part with non-negative ratings raises no warning against itself |
| TransistorComparison.WarningsAgreeWithVerdicts | components/transistor-comparison.tsx:198-272 | with non-negative ratings, a lower-current or lower-voltage warning comes with a "lower" verdict, and a gain warning never with a good match |
| EquivalenceInfo.LevelBands | components/transistor-equivalence-info.tsx:11-16 | the levels split the scores into the bands from 90, from 80 to 90, from 70 to 80, and below 70 |
| EquivalenceInfo.BarFollowsLevel | components/transistor-equivalence-info.tsx:11-82 | two scores get the same bar colour exactly when they get the same level |
| EquivalenceInfo.BetterMeaning | components/transistor-equivalence-info.tsx:51-61 | a replacement is better exactly when its first number is strictly higher than the original's, or strictly lower for collector capacitance |
| EquivalenceInfo.BetterIsStrict | components/transistor-equivalence-info.tsx:51-61 | of two parts at most one is better than the other, and neither when their numbers agree |
| EquivalenceInfo.DifferencesMeaning | components/transistor-equivalence-info.tsx:24-47 | the listed parameters are, in order, exactly the key parameters whose two values are present, non-empty and unequal; each entry carries both texts and the verdict on them |
| EquivalenceInfo.CapacitanceNeverCompared | components/transistor-equivalence-info.tsx:25-60 | collector capacitance is not a key parameter, so every listed verdict is "higher is better" |
| EquivalenceInfo.GetDifferences | components/transistor-equivalence-info.tsx:21-48 | no differences when either specification map is missing; otherwise the loop lists the differences `Differences` describes |
| EquivalentComponents.SortedEquivalents | components/equivalent-components.tsx:32-37 | the sorted copy is a permutation of the list |
| EquivalentComponents.ScoredEntriesDescend | components/equivalent-components.tsx:32-37 | when every entry has a non-zero score, the copy is in non-increasing score order |
| EquivalentComponents.UnscoredKeepOrder | components/equivalent-components.tsx:32-37 | when no entry has a non-zero score, the copy keeps the input order |
| EquivalentComponents.MixedEntriesTie | components/equivalent-components.tsx:33-36 | a scored and an unscored entry compare as equal in both directions |
| EquivalentComponents.Render | components/equivalent-components.tsx:23-51 | the empty state shows exactly for an empty list; otherwise every entry is listed in sorted order, with an analysis exactly when its score is non-zero |
| EquivalentComponents.RenderedEntriesFromInput | components/equivalent-components.tsx:41-51 | every listed entry comes from the input, and an analysis is never given a zero score |
| EquivalentsPage.FilteredMeaning | app/equivalents/page.tsx:25-28 | an empty query keeps every part; otherwise a part is kept exactly when its name or part number contains the query, ignoring case |
| EquivalentsPage.GroupByCategory | app/equivalents/page.tsx:13-21 | one group per category key, each holding, in input order, the parts whose lowercased category is that key |
| EquivalentsPage.PlaceStep | app/equivalents/page.tsx:16-19 | placing one more part keeps every group equal to its category's parts so far |
| EquivalentsPage.GroupMembership | app/equivalents/page.tsx:13-21 | a part is in a group exactly when its lowercased category is the key; it is in at most one group, and a part without one of the five categories is in none |
| EquivalentsPage.NoResultsMeaning | app/equivalents/page.tsx:89 | "No results" shows exactly when no shown part has one of the five categories |
| ComparisonDrawer.Lookup | app/equivalents/ComparisonDrawer.tsx:8 | finds a value listed for the specification, and finds none exactly when no entry has that name |
| ComparisonDrawer.ValueOf | app/equivalents/ComparisonDrawer.tsx:8 | the shown value is never empty: a missing or empty value shows as a dash |
| ComparisonDrawer.AllNamesMember | app/equivalents/ComparisonDrawer.tsx:17 | a name occurs among the parts' specification names exactly when some selected part lists it |
| ComparisonDrawer.DedupMeaning | app/equivalents/ComparisonDrawer.tsx:17 | the set conversion keeps each element once, keeps exactly the elements of the input, and keeps first-seen order |
| ComparisonDrawer.AllSpecsMeaning | app/equivalents/ComparisonDrawer.tsx:17 | the drawer's columns are every name some selected part lists, once each, with earlier parts' names first |
| ComparisonDrawer.SpecDiffersMeaning | app/equivalents/ComparisonDrawer.tsx:8-9 | a specification is marked as differing exactly when two selected parts show different values for it |
| ComparisonDrawer.SingleSelectionNoDiffs | app/equivalents/ComparisonDrawer.tsx:8-9 | with one part selected no specification differs |
| ComparisonDrawer.SelectedValues | app/equivalents/ComparisonDrawer.tsx:8 | the loop gathers the set of values the selected parts show |
| ComparisonDrawer.GetSpecDifferences | app/equivalents/ComparisonDrawer.tsx:5-12 | one verdict per listed name, true exactly when the selected parts disagree on it |
| ComparisonDrawer.Open | app/equivalents/ComparisonDrawer.tsx:14-18 | nothing renders exactly for an empty selection; otherwise the columns and the verdicts described above |
| ChatAssistant.RecentUserMessagesMeaning | components/ai-assistant-full.tsx:53 | the recent messages are the last three user messages, or all of them when there are fewer, in order |
| ChatAssistant.RecentAreUserMessages | components/ai-assistant-full.tsx:53 | every recent message is a user message of the conversation |
| ChatAssistant.SimilarMeaning | components/ai-assistant-full.tsx:52-62 | a question is similar exactly when one of the recent user messages equals it after lowercasing and trimming both |
| ChatAssistant.ScanForSame | components/ai-assistant-full.tsx:55-61 | the loop returns true exactly when some scanned message matches |
| ChatAssistant.IsSimilarToRecentQuestion | components/ai-assistant-full.tsx:52-62 | returns the similarity `Similar` defines |
| ChatAssistant.SimilarityIgnoresCaseAndPadding | components/ai-assistant-full.tsx:57 | upper-casing a question and padding it with whitespace does not change whether it is similar |
| ChatAssistant.LowerOfPadded | components/ai-assistant-full.tsx:57 | a padded, upper-cased question normalises to the same text as the question |
| ChatAssistant.RecentIgnoresOlder | components/ai-assistant-full.tsx:53 | once three newer user messages have been sent, older messages no longer count as recent |
| ChatAssistant.OlderQuestionsForgotten | components/ai-assistant-full.tsx:52-62 | once three newer user messages have been sent, older questions no longer make a question similar |
| ChatAssistant.CheckSubmission | components/ai-assistant-full.tsx:66-84 | the checks in their order: blank input or a request in flight is ignored, then a similar question is refused, then the quota of 20; an accepted question has quota left and no request in flight |
| ChatAssistant.GateOrder | components/ai-assistant-full.tsx:66-84 | ignored exactly for blank input or a request in flight; refused as similar only for a non-blank question while idle; accepted exactly when none of the checks stops it |
| ChatAssistant.SubmitEffects | components/ai-assistant-full.tsx:66-94 | only an accepted question changes the messages: it appends the user message, clears the input, starts loading and clears the error; a refusal sets its error and an ignored submission changes nothing |
| ChatAssistant.ClosingMessage | components/ai-assistant-full.tsx:106-138 | an answer closes with an assistant message and every failure with an error message, stamped with the time; a thrown error's message is shown as it is; the content is never empty unless a thrown error's message was |
| ChatAssistant.ChatSession.constructor | components/ai-assistant-full.tsx:23-34 | a new chat holds only the greeting, with empty input, no request in flight, no error and no requests counted |
| ChatAssistant.ChatSession.SetInput | components/ai-assistant-full.tsx:31 | typing changes only the input |
| ChatAssistant.ChatSession.Submit | components/ai-assistant-full.tsx:64-94 | the state after submitting is the one `AfterSubmit` gives for the gate the checks choose; the request count is unchanged and at most 20 |
| ChatAssistant.ChatSession.Apply | components/ai-assistant-full.tsx:68-94 | applies a gate's effects to the state as `AfterSubmit` describes |
| ChatAssistant.ChatSession.Complete | components/ai-assistant-full.tsx:96-141 | the request appends its closing message, counts only an answered request, and ends loading |
| ChatAssistant.ChatSession.ClearChat | components/ai-assistant-full.tsx:144-155 | clearing leaves only a fresh greeting and resets the request count and the error, keeping the input and the loading flag |
| ChatAssistant.RepeatIsRefused | components/ai-assistant-full.tsx:52-77 | asking the latest question again right after its reply is refused as similar |
| ChatAssistant.LatestIsRecent | components/ai-assistant-full.tsx:53 | the latest user message is the last of the recent ones, whatever reply follows it |
| ChatAssistant.SimilarIfLastMatches | components/ai-assistant-full.tsx:55-59 | a question equal to the latest recent user message is similar |
| CircuitsPage.GetTemplates | app/circuits/page.tsx:519-533 | the listing has one entry per free template and one per premium template of the category |
| CircuitsPage.GetTemplatesMeaning | app/circuits/page.tsx:519-533 | the free templates come first, in order and never locked; the premium templates follow in order, locked exactly when the user is not premium; an unknown category lists nothing |
| CircuitsPage.LockedExactlyForOthers | app/circuits/page.tsx:519-533 | an entry is locked exactly when the user is not premium and it comes from the premium list |
| CircuitsPage.LockedIsShownAsPremium | app/circuits/page.tsx:519-628 | when every premium-list template is flagged premium, every locked entry also gets the premium overlay and upgrade button |
| CircuitsPage.CircuitsPremiumListsFlagged | app/circuits/page.tsx:183-511 | every template of the page's premium lists is flagged premium |
| CircuitsPage.FreeTemplateShownAsPremium | app/circuits/page.tsx:111-117 | the free differential amplifier, third amplifier entry and flagged premium, is not locked yet is shown as premium to a user who is not premium |
| CircuitsPage.PremiumCheckOrder | app/circuits/page.tsx:12-49 | the gate shows loading while loading, then sign-in without a session, then the upgrade notice for a non-premium user when free content is not allowed, and the content otherwise, each exactly under its condition |
| CircuitsPage.TemplatesPageNeverAsksToUpgrade | app/circuits/page.tsx:12-49 | with free content allowed, as the templates page asks for it, the gate never asks to upgrade, and a signed-in user past loading sees the content |
| ComponentSelector.HandleRequirementChange | app/component-selector/page.tsx:68-73 | the requirement named by the key gets the new value and every other requirement is kept |
| ComponentSelector.RequirementChangesCommute | app/component-selector/page.tsx:68-73 | changes to different requirements commute, and a second change to the same one overrides the first |
| ComponentSelector.PicksWellFormed | app/component-selector/page.tsx:79-141 | every recommendation has three reasons and three alternatives in strictly decreasing score order, scored 0 to 100 and distinct from the pick |
| ComponentSelector.HandleSubmit | app/component-selector/page.tsx:75-144 | the recommendation is the pick of the first rule whose condition holds, the general-purpose part otherwise, and is well formed |
| ComponentSelector.RuleConditions | app/component-selector/page.tsx:96-141 | the audio, power and RF picks apply exactly when their application and threshold conditions hold; a "very-low" noise level does not select the audio pick |
| ComponentSelector.InitialRequirementsRules | app/component-selector/page.tsx:57-141 | with the starting requirements power and RF get their own picks, audio gets the general pick until the noise level is set to "low" |
| ComponentSelector.ToolNeedsPremium | app/component-selector/page.tsx:15-52 | the tool is shown exactly to a premium session once loading is over; sign-in is asked exactly when there is no session |
| ElectronicIcons.IconIgnoresCase | components/icons/electronic-icons.tsx:158-159 | the icon is the same for a type, its upper-case and its lower-case form |
| ElectronicIcons.IconOrder | components/icons/electronic-icons.tsx:158-180 | for every icon (transistor, MOSFET, IGBT, SCR, IC, diode, capacitor, resistor), it is given exactly when one of its keywords occurs in the lowercased type and no earlier test's keyword does; the circuit board is the fallback |
| ElectronicIcons.TransistorWins | components/icons/electronic-icons.tsx:161-162 | any type containing "transistor" gets the transistor icon, whatever else it says |
| ElectronicIcons.SiliconDiodeWords | components/icons/electronic-icons.tsx:161-175 | "silicon diode" contains "ic" and "diode" and none of the keywords checked before "ic" |
| ElectronicIcons.SiliconDiodeGetsIcIcon | components/icons/electronic-icons.tsx:169-172 | a "silicon diode" gets the integrated-circuit icon, in any case, because the "ic" test precedes the diode test |
| ElectronicIcons.LowerTwice | components/icons/electronic-icons.tsx:159 | lower-casing the type is idempotent |
| Chunking.ChunksJoin | scripts/split-components-json.ts:39-48 | the chunks, joined in order, give back the whole sequence |
| Chunking.ChunksCount | scripts/split-components-json.ts:28 | there are ⌈n / size⌉ chunks |
| Chunking.ChunksAt | scripts/split-components-json.ts:40-42 | chunk i starts at i·size inside the sequence, is the slice up to i·size + size or the end, is non-empty, and is full except possibly the last |
| Chunking.ChunksMeaning | scripts/split-components-json.ts:39-48 | the chunks join to the sequence, number ⌈n / size⌉, and each is the expected non-empty slice, full except the last |
| Chunking.ChunkOfShift | scripts/process-transistor-data.ts:57-58 | the i-th chunk of the sequence is the (i-1)-th chunk of the sequence less its first chunk |
| Chunking.ChunkFileNamesDistinct | scripts/split-components-json.ts:44 | two chunk files get the same name exactly when they are the same chunk, so no file overwrites another |
| Chunking.FilesHoldChunks | scripts/split-components-json.ts:39-48 | files holding chunk after chunk hold exactly the chunks and together the input in order |
| SplitComponents.SplitComponentsJson | scripts/split-components-json.ts:12-53 | fails exactly when the components field is not an array; otherwise writes ⌈n / 1000⌉ files named components-chunk-(i+1).json holding the 1000-component slices, full except the last, which together hold the input in order |
| ProcessTransistorData.ExtractOne | scripts/process-transistor-data.ts:36-38 | an entry yields the full record the extractor describes, present exactly when its text is non-empty and holds the designator label |
| ProcessTransistorData.ExtractedCount | scripts/process-transistor-data.ts:35-41 | the extraction loop keeps one transistor per extractable entry |
| ProcessTransistorData.ExtractAll | scripts/process-transistor-data.ts:33-41 | the transistors are exactly the non-null extraction records, in entry order |
| ProcessTransistorData.ChunkTransistors | scripts/process-transistor-data.ts:54-60 | the loop stepping by 20 builds exactly the chunks of 20 of the transistors |
| ProcessTransistorData.NameChunks | scripts/process-transistor-data.ts:63-67 | one file per chunk, the i-th named components-chunk-(i+1).json and holding chunk i |
| ProcessTransistorData.ProcessTransistorData | scripts/process-transistor-data.ts:33-67 | writes the non-null extraction records, in entry order, to transistors.json, then ⌈n / 20⌉ chunk files, none when nothing was extracted, each the expected slice of 20, which together hold the transistors in order |

## Left out

- Floating point: numbers are exact reals, so rounding, `NaN` (from `parseFloat` of a text such as ".") and `Infinity` are not modelled; `toFixed` and percentage formatting become the `fmt` parameter.
- Regular expressions: the unit pattern, the first-number pattern and the designator and label searches are hand-coded; the extractor's description, manufacturer, datasheet and related-part patterns are given as their match results (`PagePatterns`).
- Case folding covers ASCII letters only; texts are sequences of characters rather than UTF-16 code units.
- Object keys that collide with `Object.prototype` members (a category named "constructor" in the equivalents page's grouping) are not modelled there: the grouping is a Dafny map. The assistant route's limiter does model them (`InheritedNames`).
- Exceptions: `try`/`catch` around the scripts and the data loaders is reduced to the outcomes the code gives (a failure value, `None`, or an empty list).
- File-system reads and writes, `JSON.parse`, `JSON.stringify`, console output and `process.exit` in the scripts: the scripts are modelled as functions from the parsed input to the files they write, in order. Files left over from an earlier run are not modelled.
- The dynamic `import()` of chunk files and the upstream chat `fetch` are parameters; each `Date.now` reading is a time parameter. No order is imposed on the three readings of the assistant route.
- AssistantRoute.Post: a cached value counts as a hit whenever it is present and unexpired; the route's own test would also treat a falsy value (a reply body of `null`, `0` or `""`) as a miss, which the model leaves out: the stored answers are taken to be reply objects.
- AssistantRoute.RateLimiter.Check: the per-address record is replaced by a new record rather than mutated in place; nothing else holds the record, so the difference is not observable.
- AssistantRoute.RateLimiter.Check: for an inherited name the modelled store stays unchanged. The source writes the inherited member back as an own property with a NaN count (the `__proto__` assignment is ignored), and the `count++` also writes a NaN `count` onto that shared built-in. Neither write ever limits a request.
- ComponentData.LoadComponents: requires a positive page size; every caller passes a fixed positive size (the default 20, 12 on the category page, 100 on the component page), and a size of 0 or less, for which `Math.ceil(total / pageSize)` is no page count, is not modelled. Pages below 1 are modelled.
- `extractNumericValue` appears in both lib/transistor-equivalence.ts:48-57 and lib/transistor-utils.ts:240-249 with the same body; it is modelled once, as `Numbers.ExtractNumericValue`.
- EquivalentComponents.SortedEquivalents: JavaScript's sort with a comparator that ties scored and unscored parts is not a consistent order, so the result order is only stated when all parts are scored (descending) or none is (unchanged); for mixed lists only the permutation is stated.
- The comparison page's `TransistorComponent` cast is modelled through the part's ratings record; the finder's `isSearching` flag and non-integer page numbers are not modelled.
- ChatAssistant.ChatSession: the rendered messages, `localStorage` persistence, scrolling and the chat export are left out; `handleSubmit` is modelled as `Submit` (up to the request) and `Complete` (after the reply), so that the loading state between them is visible.
- ComparisonDrawer: a part's `keySpecs` object is modelled as its ordered list of entries; the first entry wins when a name repeats.
- EquivalenceInfo.GetDifferences: the source's non-null assertion on the number match is stated as the precondition `Comparable` (both differing texts hold a digit); the error a text without a digit raises is not modelled.
- The comparison score reads the specification texts while the replacement warnings read the numeric ratings; the two are modelled separately, as in the source, and not related to each other.
- CircuitsPage: a template's name, description, components and image are left out, as they take no part in a decision; the category tabs and the upgrade button's checkout `fetch` are not modelled.
- ComponentSelector: the circuit-type and application selectors are parameters of `HandleSubmit`; a requirement is either a slider range or a level, the only two shapes the page stores.
- ProcessTransistorData: each scraped entry is modelled as its optional text field, the only field the extractor reads.
