# Bouncer's cached clipboard: a verified model

Bouncer is a Laravel authorization package. Its `CachedClipboard` answers two questions about a subject (a saved user): which abilities it holds, directly or through roles, and which roles it holds. The clipboard does not query the database on every check. It keeps both answers in a cache store that it is handed, an `ArrayStore` in the tests:

- **Read-through.** `getAbilities` and `getRoles` look in the store first. On a hit they return the stored value unchanged. On a miss they run the fresh query, store the result (even an empty one) and return it.
- **Invalidation.** `refresh()` forgets every entry. `refreshFor(user)` forgets that user's entries and no others.
- **No self-invalidation.** `allow`, `disallow` and `assign` change the grants and leave the cache alone, so reads stay stale until an invalidation.
- **State lives in the store.** A clipboard built later over the same store sees what earlier ones cached.

The model has seven modules:

- `Grants` (grants.dfy): the ground truth. Direct grants, grants to roles and role assignments. `AbilitiesOf` and `RolesOf` are the fresh queries. A `Database` class holds the grants and is changed in place by `Allow`, `Disallow` and `Assign`.
- `CacheStore` (store.dfy): the keys, one per (scope, subject) slot, and the `ArrayStore` class. Its map field is updated in place by `Put`, `Forget` and `Flush`.
- `Clipboard` (clipboard.dfy): the specification functions `ReadThrough`, `Refreshed` and `ForgetSubject`, and the `CachedClipboard` class. Its reads and invalidations are proved against those functions; the fresh queries are proved against `AbilitiesOf` and `RolesOf`. Ghost counters record how many fresh queries ran.
- `Facade` (facade.dfy): the `Bouncer` entry point the tests call.
- `Names` (names.dfy): the order the tests compare ability names in. This is the byte-wise string order, which agrees with the `sort()` the tests call (Laravel's `Collection::sort`, PHP's `SORT_REGULAR` mode) on names that are not numeric strings, the only kind the tests use. A sort is proved to produce the unique strictly ascending listing.
- `Traces` (traces.dfy): the cache as a state machine over whole call sequences. It holds the staleness, isolation, invalidation and query-count theorems.
- `Scenarios` (scenarios.dfy): each test function as a method whose postcondition is what the test asserts.

Where the intended design and the tests disagree, the model follows the tests:

- A cache layer that issues a grant mutation would be expected to invalidate the cache itself. In the tests, `allow`, `disallow` and `assign` do not invalidate: reads after them stay stale until `refresh` or `refreshFor` (tests/CachedClipboardTest.php:27-29, 68-71). The model's mutations never touch the store.
- `refreshFor` is meant to clear both the abilities slot and the roles slot. The tests only show the abilities slot cleared. `RefreshFor`'s contract promises that the abilities slot is cleared and the slots of every other subject are untouched. It allows either outcome for the subject's roles slot.

## Model

| member | source | states |
|---|---|---|
| Grants.AllowSubjectEffect | tests/CachedClipboardTest.php:23-27 | a direct grant of `a` to `s` adds exactly `a` to `s`'s abilities, changes no other subject's abilities and no one's roles |
| Grants.AllowRoleEffect | tests/CachedClipboardTest.php:64-69 | a grant of `a` to role `r` adds `a` to the abilities of exactly the holders of `r`; roles unchanged |
| Grants.DisallowEffect | tests/CachedClipboardTest.php:68 | revoking `a` from a grantee removes `a` from subject `t` if and only if no other grantee still brings `a` to `t`; all other abilities and all roles unchanged |
| Grants.AssignEffect | tests/CachedClipboardTest.php:47-51 | assigning role `r` to `s` adds `r` to `s`'s roles and `r`'s abilities to `s`'s abilities, and changes no other subject |
| Grants.EmptyHoldsNothing | tests/CachedClipboardTest.php:34-37 | a newly created user in an empty database holds no ability and no role, so its fresh abilities are the empty collection |
| Grants.Database.constructor | tests/CachedClipboardTest.php:21 | the database starts with nothing granted or assigned |
| Grants.Database.Allow | tests/CachedClipboardTest.php:23 | the grant state becomes the old one with the grant added |
| Grants.Database.Disallow | tests/CachedClipboardTest.php:68 | the grant state becomes the old one with the grant removed |
| Grants.Database.Assign | tests/CachedClipboardTest.php:47 | the grant state becomes the old one with the assignment added |
| CacheStore.KeyForInjective | tests/CachedClipboardTest.php:108-129 | two keys are equal exactly when scope and subject are equal, so abilities and roles slots, and different subjects' slots, never collide |
| CacheStore.ArrayStore.constructor | tests/CachedClipboardTest.php:19 | a new store is empty |
| CacheStore.ArrayStore.Get | tests/CachedClipboardTest.php:110-112 | returns a value exactly when the key is present, and then the stored value |
| CacheStore.ArrayStore.Put | tests/CachedClipboardTest.php:112 | the entries become the old ones with the key mapped to the value |
| CacheStore.ArrayStore.Forget | tests/CachedClipboardTest.php:95 | the entries become the old ones without the key |
| CacheStore.ArrayStore.Flush | tests/CachedClipboardTest.php:73 | no entry remains |
| Clipboard.ForgetSubjectIsolated | tests/CachedClipboardTest.php:94-98 | forgetting one subject removes its abilities slot, adds no key, and leaves every other subject's entry as it was |
| Clipboard.CachedClipboard.constructor | tests/CachedClipboardTest.php:110 | a clipboard is built over the given store and has run no fresh query |
| Clipboard.CachedClipboard.GetFreshAbilities | tests/CachedClipboardTest.php:36-37 | returns the subject's current ability names and counts one fresh ability query |
| Clipboard.CachedClipboard.GetFreshRoles | tests/CachedClipboardTest.php:49 | returns the subject's current role names and counts one fresh role query |
| Clipboard.CachedClipboard.GetAbilities | tests/CachedClipboardTest.php:108-115 | a hit returns the stored names and leaves the store alone; a miss returns the current truth, stores it, and counts one query |
| Clipboard.CachedClipboard.GetRoles | tests/CachedClipboardTest.php:124-129 | the same read-through behaviour for the roles slot, which is independent of the abilities slot |
| Clipboard.CachedClipboard.Refresh | tests/CachedClipboardTest.php:73 | the store is emptied |
| Clipboard.CachedClipboard.RefreshFor | tests/CachedClipboardTest.php:95 | the subject's abilities slot is forgotten, nothing else changes except possibly that subject's roles slot |
| Facade.Bouncer.constructor | tests/CachedClipboardTest.php:21 | a bouncer is wired to the given database and to a clipboard over the given store |
| Facade.Bouncer.Allow | tests/CachedClipboardTest.php:23 | records the grant; the store is outside its frame, so the cache is untouched |
| Facade.Bouncer.Disallow | tests/CachedClipboardTest.php:68 | removes the grant; the cache is untouched |
| Facade.Bouncer.Assign | tests/CachedClipboardTest.php:47 | records the assignment; the cache is untouched |
| Facade.Bouncer.Is | tests/CachedClipboardTest.php:49-53 | true exactly when the role is among the roles read through the cache |
| Facade.Bouncer.Refresh | tests/CachedClipboardTest.php:73 | the store is emptied |
| Facade.Bouncer.RefreshFor | tests/CachedClipboardTest.php:95 | as `CachedClipboard.RefreshFor` |
| Names.LeastOf | tests/CachedClipboardTest.php:114 | returns the name of a non-empty set that precedes every other name in it |
| Names.SortNames | tests/CachedClipboardTest.php:114 | returns exactly the sorted listing of the set |
| Names.SortedListingSpec | tests/CachedClipboardTest.php:114 | the sorted listing is strictly ascending, holds exactly the set's names, and has one entry per name |
| Names.SortedListingUnique | tests/CachedClipboardTest.php:112-114 | two strictly ascending lists with the same names are equal, so comparing sorted names compares sets |
| Names.TestListings | tests/CachedClipboardTest.php:25 | the sorted listings of the name sets the tests expect are the literal arrays they compare against |
| Traces.Seen | tests/CachedClipboardTest.php:36-40 | trace helper for the repeated-read test: one observation per call, and a value exactly for the reads |
| Traces.Repeat | tests/CachedClipboardTest.php:39-40 | trace helper for the repeated-read test: `n` copies of one call |
| Traces.ReadMissReturnsTruth | tests/CachedClipboardTest.php:23-25 | a read of an empty slot returns the current ground truth, runs a query, and stores exactly that value, even when it is empty |
| Traces.ReadHitReturnsCached | tests/CachedClipboardTest.php:27-29 | a read of a filled slot returns the stored value, runs no query and changes nothing |
| Traces.MutationLeavesCache | tests/CachedClipboardTest.php:68-71 | a grant mutation changes only the ground truth, never the store |
| Traces.ScopesIndependent | tests/CachedClipboardTest.php:43-53 | reading one scope of a subject leaves its other scope's slot as it was |
| Traces.CachedSlotSurvives | tests/CachedClipboardTest.php:66-71 | a filled slot keeps its value through any calls, grant mutations included, that do not invalidate it |
| Traces.StaleUntilInvalidated | tests/CachedClipboardTest.php:27-29 | after any such calls, reading the subject's abilities returns the cached value without a query |
| Traces.CoherenceKept | tests/CachedClipboardTest.php:73-75 | reads and invalidations keep a coherent cache coherent, and every read among them returns the ground truth |
| Traces.RefreshRestoresCoherence | tests/CachedClipboardTest.php:73 | after a refresh no entry disagrees with the ground truth |
| Traces.NoStaleReadAfterRefresh | tests/CachedClipboardTest.php:73-75 | after a refresh, every read up to the next grant mutation returns the ground truth |
| Traces.SlotCoherenceKept | tests/CachedClipboardTest.php:95-97 | reads and invalidations keep one coherent slot coherent |
| Traces.NoStaleReadAfterRefreshFor | tests/CachedClipboardTest.php:95-97 | after `refreshFor(s)`, the next read of `s`'s abilities returns the ground truth, whatever reads and invalidations come between |
| Traces.HitsQueryNothing | tests/CachedClipboardTest.php:39-40 | repeated reads of a filled slot run no query, return the stored value and change nothing |
| Traces.RepeatedReadsQueryOnce | tests/CachedClipboardTest.php:36-40 | `n >= 1` reads of an empty slot run exactly one query and all return the same ground-truth value |
| Traces.EntriesAreFormerTruths | tests/CachedClipboardTest.php:66-71 | every cached entry, and so every value a hit returns, was the ground truth at some earlier point of the run |
| Scenarios.ReadAbilityNames | tests/CachedClipboardTest.php:108-115 | a new clipboard over the shared store reads through it and returns the sorted listing of the names it got |
| Scenarios.ReadRoleNames | tests/CachedClipboardTest.php:124-129 | a new clipboard over the shared store reads the roles slot through it |
| Scenarios.BanUsersTruth | tests/CachedClipboardTest.php:23 | after the direct grant, the user's ground truth is exactly `ban-users` |
| Scenarios.CachesAbilities | tests/CachedClipboardTest.php:17-30 | both reads give `['ban-users']`, the second after `create-users` was also granted |
| Scenarios.CachesEmptyAbilities | tests/CachedClipboardTest.php:32-41 | two reads of a user with nothing both return the empty collection, and the fresh query ran exactly once |
| Scenarios.CachesRoles | tests/CachedClipboardTest.php:43-54 | the user is an editor, and is not seen as a moderator after that role is assigned |
| Scenarios.EditorTruth | tests/CachedClipboardTest.php:62-69 | the ground truth is `create-posts, delete-posts` after the first three calls and `create-posts, edit-posts` after the next two |
| Scenarios.CanRefreshTheCache | tests/CachedClipboardTest.php:56-76 | reads give `['create-posts','delete-posts']` twice, the second time stale, and `['create-posts','edit-posts']` after `refresh` |
| Scenarios.AdminTruth | tests/CachedClipboardTest.php:87-94 | both users hold exactly `ban-users` through `admin`, and the first holds nothing once the role loses it |
| Scenarios.RefreshOnlyForOneUser | tests/CachedClipboardTest.php:78-99 | both users first read `['ban-users']`; after the revoke and `refreshFor(user1)`, user1 reads `[]` and user2 still reads `['ban-users']` |

## Left out

- The implementation of `CachedClipboard` is not part of this model. Its behaviour is taken from what the tests pin down.
- Eloquent models, database persistence and `User::create()` are not modelled. Subjects are natural-number ids, and the database is a grant-state value.
- How Bouncer resolves abilities is not modelled beyond the union of direct grants and grants to the subject's roles. Forbidden abilities, abilities scoped to a model class or instance, and the `is()->an()` query internals are out of scope.
- The concrete cache-key strings and prefixes are not modelled. A key is the pair (scope, subject), so key derivation is injective by construction.
- TTL and eviction by the store, fallback when the store fails, and the bypass for unsaved subjects are not modelled. None of them appears in the tests.
- `retract` is not modelled, because the tests do not use it.
- Mockery's `once()` expectation is modelled as a ghost counter of fresh queries on the clipboard. The mock returns an empty collection whatever the database holds; the model reaches the same empty result because the user holds nothing.
- Collections are modelled as sets of names: the tests only ever compare plucked names after sorting. The roles helper returns its names unsorted, and their order is not modelled.
- Clipboard.CachedClipboard.RefreshFor: whether the subject's roles slot is also forgotten is left open in the contract, because the tests only exercise the abilities slot.
- Facade.Bouncer.RefreshFor: leaves the roles-slot question open in the same way as `CachedClipboard.RefreshFor`.
- Names.SortNames: the order agrees with PHP's `SORT_REGULAR` sort only for names that are not numeric strings; numeric strings such as "9" and "10" are compared by value in PHP and byte-wise here. The tests use only non-numeric ability names.
