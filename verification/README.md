# socialBot core in Dafny

A model of the two sequential components of the socialBot engagement
automaton:

- the **record store** of `services/database.ts`. It holds managed
  accounts, collected target profiles, the append-only action history and
  one "interacted" handle list per platform. Here it is one immutable
  `Store` value, and every `db.*` operation is a pure function from the
  old store to the new store and its result;
- the **automation logic** of `App.tsx` (lines 55-165): the counters
  (`refreshStats`), the bounded activity log (`addLog`), account linking
  (`addSocialAccount`), the engagement cycle (`runBulkEngagement`) and
  auto-posting (`handleAutoPost`). These run over an `App` value that
  holds the store, the log, the counters and the two progress markers
  (`isProcessing`, `currentTask`).

Values the source takes from its surroundings are inputs here:

- fresh ids (`crypto.randomUUID`), ISO timestamps and clock readings
  (`new Date()`, `toLocaleTimeString`) come from an `Ambient` record of
  functions numbered by step;
- the engagement-text generator is a `Generator` function parameter.

Modules, one file each:

| file | module | models |
|---|---|---|
| types.dfy | `Types` | record shapes and closed enumerations of types.ts |
| seqs.dfy | `Seqs` | order-preserving filter, reverse, prefix, duplicate-freedom |
| database.dfy | `Database` | the `db` operations |
| store_laws.dfy | `StoreLaws` | the store invariant, the append-only history, account add/delete laws |
| activity_log.dfy | `ActivityLog` | `addLog` and the 100-entry window |
| automation.dfy | `Automation` | App.tsx 55-165 |
| engagement_laws.dfy | `EngagementLaws` | what a cycle, an auto-post and an account link do |

The store invariant `StoreLaws.Valid` has three parts:

- no two profiles share a (handle, platform) pair;
- every interacted list is duplicate-free;
- a handle is in a platform's interacted list exactly when some recorded
  action targeted it on that platform.

Every store operation preserves it (`ApplyValid`), and so do an
engagement cycle (`CycleValid`), an auto-post (`AutoPostValid`) and an
account link (`LinkValid`).

Notes on reading the code:

- `getAccounts`, `getActions` and `getInteractedList` are plain reads
  (`GetAccounts`, `GetActions`, `GetInteractedList`). They are stated
  through the contracts of the operations that change the store.
- `refreshStats` (`RefreshStats`) is a plain computation. What it promises
  is stated on the counters after each operation (`CycleFrame`,
  `AutoPostRecords`, `AddSocialAccount`).
- `runBulkEngagement` (`RunBulkEngagement`, with `StartCycle`, `Engage`,
  `EngageAll` and `FinishCycle`) and `handleAutoPost` (`HandleAutoPost`)
  are stated through the lemmas of `EngagementLaws`.
- The quantity field is the result of `parseInt`, an integer or NaN
  (`ParsedInt`). The profiles are cut with JavaScript's `slice(0, n)`
  semantics (`SliceEnd`): a negative `n` counts from the end and NaN acts
  as 0.

Behaviour of the code worth knowing when reading the model:

- `handleAutoPost` returns without logging anything when no account of the
  idea's platform is active (App.tsx:154).
- The "no profiles" warning is logged whenever the cut list is empty
  (App.tsx:112-115). That covers a platform with no profiles, a quantity
  of 0, a negative quantity that leaves out every profile, and NaN.
- `generateEngagementText` never fails towards its caller. It answers a
  fixed text when the request fails or returns nothing
  (services/geminiService.ts:141-144).

## Model

| member | source | states |
|---|---|---|
| Database.AddAccount | services/database.ts:18-27 | appends exactly one account at the end; it carries the draft's username, password, platform and status plus the given id and creation time, and is returned; earlier accounts and the other collections are unchanged |
| Database.DeleteAccount | services/database.ts:29-32 | no account with the deleted id remains, no account is added, and the other collections are unchanged |
| Database.DeleteAccountExactly | services/database.ts:29-32 | an account survives exactly when it was stored and its id differs, with every occurrence kept |
| Database.GetProfiles | services/database.ts:35-39 | with no platform, all stored profiles; with a platform, only profiles of that platform and never more than are stored |
| StoreLaws.GetProfilesKeepsOrder | services/database.ts:35-39 | a platform's listing keeps the stored order: listing a concatenation gives the first part's profiles of that platform, then the second's |
| Database.GetProfilesExactly | services/database.ts:35-39 | a platform's listing holds exactly the stored profiles of that platform, each as often as stored |
| Database.AddProfile | services/database.ts:41-54 | answers true exactly when no stored profile has the same handle and platform; on false the store is unchanged; on true the new profile is appended at the end; the no-duplicate-pair invariant is preserved |
| Database.AddAction | services/database.ts:62-78 | appends exactly one action at the end; afterwards the handle is in its platform's interacted list, which grows only if the handle was absent and stays duplicate-free; other platforms' lists, accounts and profiles are unchanged |
| Database.ClearAll | services/database.ts:85-88 | every collection is empty, every platform's interacted list included |
| StoreLaws.EmptyValid | services/database.ts:85-88 | the empty store satisfies the store invariant |
| StoreLaws.AddActionValid | services/database.ts:62-78 | addAction keeps each interacted list equal, as a set, to the handles the history records for that platform, and duplicate-free |
| StoreLaws.ApplyValid | services/database.ts:18-88 | every store operation preserves the store invariant |
| StoreLaws.ReachableValid | services/database.ts:18-88 | any sequence of store operations preserves the invariant |
| StoreLaws.HistoryAppendOnly | services/database.ts:18-88 | short of clearAll, no sequence of operations removes or edits a recorded action or a collected profile: the old lists are prefixes of the new |
| StoreLaws.AddThenDeleteAccount | services/database.ts:18-32 | deleting the id of a just-added account whose id was fresh gives back the original store |
| StoreLaws.DeleteAccountIdempotent | services/database.ts:29-32 | deleting the same id twice equals deleting it once |
| StoreLaws.DeleteAccountKeepsOrder | services/database.ts:29-32 | deletion from a concatenation is the concatenation of the deletions, so the survivors keep their relative order |
| StoreLaws.AddProfileThenList | services/database.ts:35-54 | after a successful addProfile, the new profile's platform lists it last, after the earlier ones; other platforms' listings are unchanged |
| ActivityLog.AddLog | App.tsx:63-70 | the new entry is at index 0, earlier entries move down by one, the length is min(old + 1, 100), and at capacity the oldest entry is dropped |
| ActivityLog.PushAllWindow | App.tsx:63-70 | after one or more additions, the log is the newest 100 entries of the whole history, newest first |
| ActivityLog.PushAllBounded | App.tsx:63-70 | starting empty, the log has min(n, 100) entries after n additions; its head is the latest entry, and after more than 100 its last is the 100th most recent |
| ActivityLog.PushAllConcat | App.tsx:63-70 | adding entries in two batches equals adding them in one |
| Automation.FirstActiveFrom | App.tsx:106-107 | finds the least index at or after the start whose account is active on the platform, or reports that none is |
| Automation.FindActive | App.tsx:106-107 | the acting account is the first account in stored order with that platform and status 'ativa'; none exactly when no account qualifies |
| Automation.SliceEnd | App.tsx:112 | the cut `slice(0, n)` makes: a non-negative n takes n elements, or all if there are fewer; a negative n leaves the last -n out, or all if there are fewer; NaN takes none; never more than the length |
| Automation.Targets | App.tsx:112 | the targets are a prefix of the platform's listing: min(n, available) of them for a non-negative quantity n; all but the last -n (none if fewer) for a negative one; none for NaN |
| Automation.TargetsChosen | App.tsx:112 | every target is a stored profile of the cycle's platform |
| Automation.AddSocialAccount | App.tsx:93-103 | links exactly one active account with the username and platform given and no password; logs one success entry naming it; the counters match the store; profiles, actions, interacted lists, isProcessing and currentTask are unchanged |
| EngagementLaws.CycleWithoutAccount | App.tsx:106-111 | with no active account for the platform, the store, counters and markers are unchanged and exactly one error entry is logged |
| EngagementLaws.CycleWithoutTargets | App.tsx:112-116 | with an active account but no target selected, the store, counters and markers are unchanged and exactly one warning entry is logged |
| EngagementLaws.CycleActions | App.tsx:112-130 | a running cycle appends exactly the planned actions after the old history, one per target in target order |
| EngagementLaws.PlannedActionsShape | App.tsx:120-128 | the planned actions are one per target, naming the target's handle, the cycle's platform and the configured type; the text is the generated comment for 'comentar' and the generated message for 'direct' when generation is on, and the manual text in every other case; an empty text is stored as absent |
| EngagementLaws.CycleCount | App.tsx:112-130 | with a positive quantity and at least one profile on the platform, the cycle writes exactly min(quantity, profiles of the platform) actions |
| EngagementLaws.CycleFrame | App.tsx:117-135 | a running cycle leaves accounts and profiles unchanged; the counters match the store; afterwards isProcessing is false and currentTask is empty |
| EngagementLaws.CycleLog | App.tsx:117-134 | the log after a running cycle is the newest 100 entries of the cycle's entries, newest first, on top of the old log |
| EngagementLaws.CycleEntriesShape | App.tsx:118-131 | a cycle's entries are one info entry, then one success entry per target naming the action and target in order, then one closing success entry |
| EngagementLaws.CycleMarksInteracted | App.tsx:120-129 | after a cycle every target's handle is in the platform's interacted list; other platforms' lists are unchanged |
| EngagementLaws.CycleValid | App.tsx:105-136 | a cycle preserves the store invariant, so the profiles stay free of duplicate pairs |
| EngagementLaws.EngageAllSplits | App.tsx:120-130 | the target loop's store effect is one addAction per target; its log effect is one success entry per target; it keeps the busy flag and refreshes the counters |
| EngagementLaws.StoreLoopActions | App.tsx:120-130 | the loop's store effect appends exactly the planned actions |
| EngagementLaws.StoreLoopFrame | App.tsx:120-130 | the loop's store effect leaves accounts and profiles unchanged |
| EngagementLaws.StoreLoopInteracted | App.tsx:120-130 | after the loop's store effect, every target's handle is in the platform's interacted list |
| EngagementLaws.StoreLoopOtherPlatforms | App.tsx:120-130 | the loop's store effect leaves the other platforms' interacted lists unchanged |
| EngagementLaws.StoreLoopValid | App.tsx:120-130 | the loop's store effect preserves the store invariant |
| EngagementLaws.AddActionKeepsInteracted | services/database.ts:71-77 | addAction never removes a handle from any interacted list |
| EngagementLaws.AutoPostWithoutAccount | App.tsx:151-154 | with no active account for the idea's platform, auto-posting changes nothing and logs nothing |
| EngagementLaws.AutoPostRecords | App.tsx:151-165 | otherwise it is one addAction of a 'curtir' action by the first active account's username, with content "Postagem: " + title; so the action is appended, the account's own username enters the platform's interacted list and other platforms' lists are unchanged; it logs an info then a success entry, leaves accounts and profiles unchanged, refreshes the counters, clears the busy flag and leaves currentTask as it was |
| EngagementLaws.AutoPostValid | App.tsx:151-165 | auto-posting preserves the store invariant |
| EngagementLaws.LinkValid | App.tsx:93-103 | linking an account preserves the store invariant |
| EngagementLaws.LinkedAccountEnablesCycle | App.tsx:93-111 | after linking an account on a platform, a cycle on that platform finds an acting account |

## Left out

- The JSX (App.tsx:167-431), components/Layout.tsx and components/RobotStatus.tsx: presentation only.
- services/geminiService.ts: network calls to an external model. `generateEngagementText` is the `Generator` parameter. It catches its own errors and returns a fallback text, so the cycle never sees a failure. The parameter may return any text, the empty one included, although the real function never answers an empty text.
- `generateContentBatch` (App.tsx:138-149): it only forwards to the generator and prepends the idea to UI state.
- `handleAuth` (App.tsx:72-91): it calls `db.loginSystemUser` and `db.registerSystemUser`, which services/database.ts does not define.
- The unfollow/cleanup cycle: the code has only a disabled placeholder panel, so there is no behaviour to model.
- Browser storage and JSON serialisation: collections are in-memory sequences. Storage write failures are not modelled. Such a failure would throw from `addAction`, end the loop early and reach the `finally` block.
- Ids, ISO timestamps and clock readings are inputs. The model does not claim they are fresh or increasing.
- The 1.5 s and 2 s delays, and the asynchronous interleaving of a running cycle with other UI events: a cycle is one sequential pass.
- The button disabling that the busy flag drives is not modelled. The flag's value itself is modelled.
- The form reset in `addSocialAccount`, and the config fields the shown code never reads (`postsPerProfile`, `unfollowDays`, `unfollowCount`).
- A `parseInt` result that is not an integer (e.g. huge values in floating point): the quantity is an integer or NaN.
- StoreLaws.Valid covers only stores built by these operations, not data edited in storage by hand.
