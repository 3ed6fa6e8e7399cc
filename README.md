# Soundpad for Stream Deck: a verified model

This project models the core of the Stream Deck plugin that drives the
Soundpad sound board. There are two parts.

The first is the `SoundpadManager` singleton:
- it supervises the connection to Soundpad, with a 2000 ms connect cooldown;
- it caches the sound catalog (title → index) and the category catalog
  (name → category), with a 2000 ms refresh cooldown;
- it lists those catalogs sorted by name;
- it plays sounds by index, by title, or at random from a category.

The second is three key actions:
- **play a sound**, chosen by index or by title;
- **play a random sound of a category**, optionally from a shuffled queue
  that, for a category of more than one sound whose sound count stays the
  same, never plays the same sound twice in a row;
- **remove the sound at an index**.

## How the model is built

- Every public method is one atomic step. The locks, semaphores and
  `async` plumbing of the source only serialise these steps.
- Per call, the clock reading, the transport's connection status and the
  transport's answers are a `World` value.
- What a call asks of Soundpad (connect, list, play, …) and each
  `SoundsUpdated` event it raises come back as a list of `Effect`s.
- The manager is specified twice:
  - as step functions on a `ManagerState` value (`Manager.ConnectStep`,
    `Manager.RefreshStep`, …);
  - as the class `Manager.SoundpadManager`, whose fields are the source's
    fields and whose methods are proved to take exactly those steps.
- The two dictionary-filling `foreach` loops are
  `Catalog.FillDictionary`, proved equal to the function `Catalog.LastWins`.
- `DateTime.MinValue` is `Time.Never`. A dictionary or string that may be
  null is an `Option`.
- `Int32.TryParse` is modelled as written in .NET (`Common.TryParseInt32`):
  - surrounding white space (U+0009 to U+000D and U+0020) is accepted;
  - so are one optional sign and trailing NUL characters;
  - the value must lie in [-2^31, 2^31 - 1];
  - the out-parameter is 0 on failure.
- `RandomGenerator.Next(n)` is an oracle `rng` with `rng(n) < n` for
  every `n > 0`.
- The random-key `OrderBy` that shuffles a batch is an oracle `order` that
  returns a rearrangement (same multiset) of its input. Shuffling the
  sounds and then projecting their indices is modelled as projecting and
  then shuffling, which yields the same possible batches.
- The actions' settings are datatypes. `Tools.AutoPopulateSettings` is
  modelled as replacing the settings with the incoming ones.
- The shuffle queue, its recorded size and the title flag of the category
  action are fields updated in place. The refill loop and the `Enqueue`
  loop are `while` loops proved against the function
  `RandomCategoryAction.Refill`.

Where the code and its documentation disagree, the model follows the code.
- An accessor whose dictionary is still null returns an empty list and
  does not refresh.
- `SoundsUpdated` is raised whenever either listing was fetched
  successfully, whether or not anything changed.

## Model

| member | source | states |
|---|---|---|
| Common.TryParseInt32 | streamdeck-soundpad/Actions/SoundpadRemoveAction.cs:111 | `Int32.TryParse`: null and empty fail; a success lies in the Int32 range |
| Common.TryParseOut | streamdeck-soundpad/Actions/SoundpadRemoveAction.cs:111 | the out-parameter: the parsed value, or 0 when parsing fails |
| Common.IntToString | streamdeck-soundpad/Actions/SoundpadRemoveAction.cs:113 | `Int32.ToString`: non-empty, a digit at the end, no leading white space |
| Common.IntToStringRoundTrip | streamdeck-soundpad/Actions/SoundpadRemoveAction.cs:111-113 | every Int32 written by `ToString` parses back to itself |
| Common.ParseIntegerOfString | streamdeck-soundpad/Actions/SoundpadRemoveAction.cs:111-113 | the text `ToString` writes for any integer reads back as that integer, before the Int32 range check |
| Common.DigitsRoundTrip | streamdeck-soundpad/Actions/SoundpadRemoveAction.cs:113 | the decimal digits of a natural number read back as that number |
| Catalog.Indices | streamdeck-soundpad/Actions/SoundpadPlayRandomActionFromCategory.cs:156 | `Select(x => x.SoundIndex)`: same length, the i-th index is the i-th sound's |
| Catalog.StrLeTotal | streamdeck-soundpad/SoundPadManager.cs:244 | the ordinal string order used for `OrderBy` is total |
| Catalog.StrLeAntisymmetric | streamdeck-soundpad/SoundPadManager.cs:244 | two strings each ordered before the other are equal |
| Catalog.StrLeTransitive | streamdeck-soundpad/SoundPadManager.cs:244 | the ordinal string order is transitive |
| Catalog.LeastExists | streamdeck-soundpad/SoundPadManager.cs:244 | every non-empty key set has a least key |
| Catalog.SortedKeys | streamdeck-soundpad/SoundPadManager.cs:233-244 | the dictionary's keys, each once, in strictly ascending order |
| Catalog.AllSoundsOf | streamdeck-soundpad/SoundPadManager.cs:224-245 | one sound per cached title, with its cached index, every title present, strictly ascending by title |
| Catalog.SortedSounds | streamdeck-soundpad/SoundPadManager.cs:224-245 | the cached sounds listed under the ascending titles: as many as the cache holds, ascending, each with its cached index, none missing |
| Catalog.AllCategoriesOf | streamdeck-soundpad/SoundPadManager.cs:273-294 | one category per cached name, with its cached index, every name present, strictly ascending by name |
| Catalog.SortedCategories | streamdeck-soundpad/SoundPadManager.cs:273-294 | the cached categories listed under the ascending names: as many as the cache holds, ascending, each with its cached index and sounds, none missing |
| Catalog.SortByName | streamdeck-soundpad/SoundPadManager.cs:270 | `OrderBy(x => x.SoundName)`: a permutation of its input, ordered by name |
| Catalog.InsertByName | streamdeck-soundpad/SoundPadManager.cs:270 | inserting into a name-ordered list keeps it ordered and adds exactly that element |
| Catalog.LastWins | streamdeck-soundpad/SoundPadManager.cs:315-319 | the dictionary built from a listing holds exactly the listing's keys |
| Catalog.LastWinsKeepsLast | streamdeck-soundpad/SoundPadManager.cs:315-319 | a key keeps the value of its last occurrence in the listing |
| Catalog.FillDictionary | streamdeck-soundpad/SoundPadManager.cs:334-338 | the `foreach` of indexer assignments builds exactly `LastWins` of the listing |
| Manager.ConnectStep | streamdeck-soundpad/SoundPadManager.cs:81-113 | a connect attempt sends one `ConnectAsync` and records its time; a refused one changes nothing |
| Manager.RefreshStep | streamdeck-soundpad/SoundPadManager.cs:296-364 | a refresh never touches the connection fields, never turns a cached dictionary back to null, and raises `SoundsUpdated` once exactly when it reports an update |
| Manager.ConnectedStep | streamdeck-soundpad/SoundPadManager.cs:383-388 | the Connected event marks the manager connected |
| Manager.LoadPlaylistStep | streamdeck-soundpad/SoundPadManager.cs:211-222 | reports the load command's success; the load request is sent first |
| Manager.RefusedStep | streamdeck-soundpad/SoundPadManager.cs:118-123 | a playback call while disconnected fails, changes and sends exactly what `Connect` does, and sends no play command for any index |
| Manager.SoundpadManager.constructor | streamdeck-soundpad/SoundPadManager.cs:58-65 | the fields start unset (never connected, never fetched, no dictionaries), then one `Connect` runs |
| Manager.SoundpadManager.Connect | streamdeck-soundpad/SoundPadManager.cs:81-113 | takes exactly `ConnectStep` on the fields |
| Manager.SoundpadManager.OnDisconnected | streamdeck-soundpad/SoundPadManager.cs:376-381 | marks the manager disconnected and forgets the last connect attempt |
| Manager.SoundpadManager.OnConnected | streamdeck-soundpad/SoundPadManager.cs:383-388 | takes exactly `ConnectedStep`: connected, then a refresh |
| Manager.SoundpadManager.CacheAllSounds | streamdeck-soundpad/SoundPadManager.cs:296-364 | takes exactly `RefreshStep`; the dictionaries are filled by `FillDictionary` |
| Manager.SoundpadManager.LoadPlaylist | streamdeck-soundpad/SoundPadManager.cs:211-222 | takes exactly `LoadPlaylistStep`: on success the refresh cooldown is cleared and a refresh follows |
| Manager.SoundpadManager.GetAllSounds | streamdeck-soundpad/SoundPadManager.cs:224-245 | null dictionary: empty list; empty dictionary: refresh first; then the sorted listing |
| Manager.SoundpadManager.GetCategorySounds | streamdeck-soundpad/SoundPadManager.cs:247-271 | the empty name and "All sounds" give all sounds; otherwise the category's sounds sorted by name, or nothing |
| Manager.SoundpadManager.GetAllCategories | streamdeck-soundpad/SoundPadManager.cs:273-294 | null dictionary: empty list; empty dictionary: refresh first; then the sorted categories |
| Manager.SoundpadManager.PlaySoundByIndex | streamdeck-soundpad/SoundPadManager.cs:115-126 | disconnected: `Connect` and false; connected: one play command, reporting its success |
| Manager.SoundpadManager.PlaySoundByTitle | streamdeck-soundpad/SoundPadManager.cs:128-147 | disconnected: `Connect` and false; connected: plays the cached index of a known title, fails without a request otherwise; null dictionary: corrected, see ## Findings |
| Manager.SoundpadManager.PlayRandomSound | streamdeck-soundpad/SoundPadManager.cs:149-180 | takes exactly `PlayRandomStep`: the list of the category (all sounds for the empty name), then the sound at a drawn position |
| Manager.SoundpadManager.Stop | streamdeck-soundpad/SoundPadManager.cs:182-186 | sends one stop request |
| Manager.SoundpadManager.RemoveSound | streamdeck-soundpad/SoundPadManager.cs:188-197 | selects the index, then removes the selected entries |
| Manager.SoundpadManager.RecordStart | streamdeck-soundpad/SoundPadManager.cs:199-203 | sends one start-recording request |
| Manager.SoundpadManager.RecordStop | streamdeck-soundpad/SoundPadManager.cs:205-209 | sends one stop-recording request |
| Manager.SoundpadManager.TogglePause | streamdeck-soundpad/SoundPadManager.cs:366-370 | sends one toggle-pause request |
| ManagerProperties.ConnectOnlyWhenAllowed | streamdeck-soundpad/SoundPadManager.cs:81-113 | at most one `ConnectAsync`, sent iff not connected, not connecting and out of cooldown; then only the attempt time changes, otherwise nothing |
| ManagerProperties.ConnectCooldown | streamdeck-soundpad/SoundPadManager.cs:95-99 | two `Connect` calls less than 2000 ms apart send at most one request |
| ManagerProperties.ReconnectUnblocked | streamdeck-soundpad/SoundPadManager.cs:376-381 | after Disconnected the next `Connect` attempts unless the transport is connecting |
| ManagerProperties.ConnectedRefreshes | streamdeck-soundpad/SoundPadManager.cs:383-388 | Connected marks the manager connected and fetches both listings when out of cooldown |
| ManagerProperties.RefreshIdle | streamdeck-soundpad/SoundPadManager.cs:303-309 | disconnected or in cooldown: a refresh sends nothing and changes nothing |
| ManagerProperties.RefreshReplacesOrKeeps | streamdeck-soundpad/SoundPadManager.cs:310-346 | a fetched listing replaces its whole dictionary with exactly its keys; a failed one keeps it; the two are independent; the refresh time moves iff one succeeded |
| ManagerProperties.RefreshKeepsLastDuplicate | streamdeck-soundpad/SoundPadManager.cs:315-319 | a duplicated title is cached with the index of its last occurrence |
| ManagerProperties.SoundsUpdatedOnce | streamdeck-soundpad/SoundPadManager.cs:349-352 | `SoundsUpdated` is raised once iff an active refresh had a listing succeed |
| ManagerProperties.RefreshCooldownIdempotent | streamdeck-soundpad/SoundPadManager.cs:305-309 | a refresh within 2000 ms of a successful one does nothing |
| ManagerProperties.LoadPlaylistRefreshes | streamdeck-soundpad/SoundPadManager.cs:211-222 | a successful load on a connected manager is followed by a refresh not held back by the cooldown; a failed load changes nothing |
| ManagerProperties.CategoryAliasesAllSounds | streamdeck-soundpad/SoundPadManager.cs:249-252 | the empty name and "All sounds" give `GetAllSounds`' answer |
| ManagerProperties.NullCacheGivesEmpty | streamdeck-soundpad/SoundPadManager.cs:226-277 | each accessor gives an empty list without a refresh when its own dictionary is null, whatever the other dictionary holds |
| ManagerProperties.EmptyCacheRefreshesFirst | streamdeck-soundpad/SoundPadManager.cs:229-232 | an empty title dictionary is refreshed before it is listed: the refresh's requests (one sound listing at most), then the listing of what it left |
| ManagerProperties.EmptyCategoriesRefreshFirst | streamdeck-soundpad/SoundPadManager.cs:257-281 | an empty category dictionary is refreshed first by both category accessors: the refresh's state and requests (one category listing at most), then the categories, or the named category's sounds in title order, of the refreshed dictionary |
| ManagerProperties.AllSoundsListsCache | streamdeck-soundpad/SoundPadManager.cs:224-245 | one entry per cached title with its index, ascending, no request sent |
| ManagerProperties.CategorySoundsLookup | streamdeck-soundpad/SoundPadManager.cs:247-271 | an unknown category gives nothing; a known one its sounds, permuted into name order |
| ManagerProperties.PlayRefusedWhileDisconnected | streamdeck-soundpad/SoundPadManager.cs:118-136 | both overloads only `Connect` and fail while disconnected |
| ManagerProperties.PlayWhileConnected | streamdeck-soundpad/SoundPadManager.cs:125-146 | connected: the index is played as is; a title plays exactly its cached index; an unknown title fails with no request |
| ManagerProperties.TitleLookupExample | streamdeck-soundpad/SoundPadManager.cs:138-146 | on {"Applause": 3, "Boo": 7}, "Applause" plays 3 and an unknown title plays nothing |
| ManagerProperties.PlayRandomContract | streamdeck-soundpad/SoundPadManager.cs:149-180 | fails iff disconnected or the list is empty; otherwise plays the sound at a position inside the list |
| ManagerProperties.PlayRandomIgnoresCommandResult | streamdeck-soundpad/SoundPadManager.cs:174-175 | the answer does not depend on the play command's success |
| ManagerProperties.ListsIgnoreCommandResult | streamdeck-soundpad/SoundPadManager.cs:224-271 | refresh and listing do not read the command result |
| ManagerProperties.PlayTitleNullReference | streamdeck-soundpad/SoundPadManager.cs:138 | connect, then Connected with a failing sound listing, leaves the dictionary null and `PlaySound(string)` dereferences it |
| ManagerProperties.PlayTitleCorrected | streamdeck-soundpad/SoundPadManager.cs:128-147 | the corrected overload agrees wherever the original returns, fails cleanly where it throws, and plays only cached titles |
| ActionCommon.SanitizeIndex | streamdeck-soundpad/Actions/SoundpadPlayAction.cs:152-155 | a non-empty value that is not an Int32 becomes empty; anything else is kept verbatim |
| ActionCommon.SanitizeIndexSettles | streamdeck-soundpad/Actions/SoundpadPlayRandomActionFromCategory.cs:263-266 | after sanitising a setting is empty or an Int32, and sanitising again changes nothing |
| ActionCommon.SanitizeKeepsIntegers | streamdeck-soundpad/Actions/SoundpadPlayAction.cs:152-155 | an index written by `ToString` is never blanked |
| ActionCommon.ReleaseEffects | streamdeck-soundpad/Actions/SoundpadPlayAction.cs:122-129 | key release sends `Stop` iff push-to-play is on |
| ActionCommon.ToLowerInvariant | streamdeck-soundpad/Actions/SoundpadPlayAction.cs:181 | lower-casing keeps the length and lower-cases each letter |
| ActionCommon.LowerCaseMatch | streamdeck-soundpad/Actions/SoundpadPlayAction.cs:181-183 | a message whose letters lower-case to the label matches it |
| PlayAction.RequestFor | streamdeck-soundpad/Actions/SoundpadPlayAction.cs:89-103 | no call unless connected and a setting is filled in; a non-empty index wins over the title; an unparsable index makes no call; the title is used only with an empty index |
| PlayAction.PressFeedback | streamdeck-soundpad/Actions/SoundpadPlayAction.cs:105-119 | OK iff a play call was made and returned true |
| PlayAction.KeyPressed | streamdeck-soundpad/Actions/SoundpadPlayAction.cs:86-120 | the press takes exactly the manager's `PlaySound` step chosen, or none, and shows OK iff that step returned true |
| PlayAction.Tick | streamdeck-soundpad/Actions/SoundpadPlayAction.cs:131-145 | disconnected: not-running image, null title; connected: the title is set iff shown, non-empty and no index is configured |
| PlayAction.RefreshRequestedByInspector | streamdeck-soundpad/Actions/SoundpadPlayAction.cs:175-188 | the inspector's "refreshSounds" triggers a catalog refresh |
| PlayAction.SanitizedSettingsNeverBadIndex | streamdeck-soundpad/Actions/SoundpadPlayAction.cs:152-155 | once settings are received, a press never meets an unparsable index |
| PlayAction.SoundpadPlayAction.constructor | streamdeck-soundpad/Actions/SoundpadPlayAction.cs:61-70 | the stored settings, or the defaults when there are none |
| PlayAction.SoundpadPlayAction.ReceivedSettings | streamdeck-soundpad/Actions/SoundpadPlayAction.cs:149-157 | takes the incoming settings with the index sanitised |
| PlayAction.SoundpadPlayAction.KeyReleased | streamdeck-soundpad/Actions/SoundpadPlayAction.cs:122-129 | `Stop` iff push-to-play |
| RemoveAction.Initialized | streamdeck-soundpad/Actions/SoundpadRemoveAction.cs:109-116 | a parsable setting sets the index and is kept unsaved; an unparsable one (null, empty included) gives index 0 and the setting "0", saved |
| RemoveAction.PressAfterInitialize | streamdeck-soundpad/Actions/SoundpadRemoveAction.cs:66-116 | after initialisation a press removes iff the setting is a non-zero Int32, and removes that index; a second initialisation changes nothing |
| RemoveAction.FieldDefaultRefusesPress | streamdeck-soundpad/Actions/SoundpadRemoveAction.cs:36-68 | the index field starts at 0, so a press before a successful parse is refused |
| RemoveAction.SoundpadRemoveAction.constructor | streamdeck-soundpad/Actions/SoundpadRemoveAction.cs:47-62 | the stored setting (empty without settings), then `InitializeSettings` |
| RemoveAction.SoundpadRemoveAction.InitializeSettings | streamdeck-soundpad/Actions/SoundpadRemoveAction.cs:109-116 | the fields become `Initialized` of the setting |
| RemoveAction.SoundpadRemoveAction.ReceivedSettings | streamdeck-soundpad/Actions/SoundpadRemoveAction.cs:99-103 | the new setting, then initialisation |
| RemoveAction.SoundpadRemoveAction.KeyPressed | streamdeck-soundpad/Actions/SoundpadRemoveAction.cs:66-76 | empty setting or index 0: alert, no request; otherwise select and remove that index, with no connection check, then OK |
| RandomCategoryAction.FirstSelected | streamdeck-soundpad/Actions/SoundpadPlayRandomActionFromCategory.cs:112-117 | the position of the first selected category, none before it |
| RandomCategoryAction.ResolveCategory | streamdeck-soundpad/Actions/SoundpadPlayRandomActionFromCategory.cs:107-118 | the first category matching the parsed index when the index is set, else the first matching the title; none iff nothing matches |
| RandomCategoryAction.PressCategory | streamdeck-soundpad/Actions/SoundpadPlayRandomActionFromCategory.cs:100-118 | nothing unless connected and a setting is filled in; otherwise the resolved category |
| RandomCategoryAction.IndexSettingFindsCategory | streamdeck-soundpad/Actions/SoundpadPlayRandomActionFromCategory.cs:107-113 | an index setting written from a category's index finds the first category with that index |
| RandomCategoryAction.UnparsableIndexSelectsNothing | streamdeck-soundpad/Actions/SoundpadPlayRandomActionFromCategory.cs:107-114 | a non-empty unparsable index selects nothing, whatever the title |
| RandomCategoryAction.Remove | streamdeck-soundpad/Actions/SoundpadPlayRandomActionFromCategory.cs:154 | the `Where` filter keeps each value's count unless it is avoided |
| RandomCategoryAction.BatchContents | streamdeck-soundpad/Actions/SoundpadPlayRandomActionFromCategory.cs:144-161 | each batch is a rearrangement of the category's indices less the queue's last entry (when more than one sound), non-empty and without repeats |
| RandomCategoryAction.BatchCounts | streamdeck-soundpad/Actions/SoundpadPlayRandomActionFromCategory.cs:144-161 | a batch holds each category index as often as the category does, except the queue's last entry, which it leaves out when the category has more than one sound |
| RandomCategoryAction.DistinctCounts | streamdeck-soundpad/Actions/SoundpadPlayRandomActionFromCategory.cs:153-157 | distinct indices occur at most once in the multiset |
| RandomCategoryAction.CountsDistinct | streamdeck-soundpad/Actions/SoundpadPlayRandomActionFromCategory.cs:153-157 | a list with no value counted twice has distinct entries |
| RandomCategoryAction.Refill | streamdeck-soundpad/Actions/SoundpadPlayRandomActionFromCategory.cs:136-166 | the loop ends with more entries than sounds and only appends to what was queued |
| RandomCategoryAction.Dequeue | streamdeck-soundpad/Actions/SoundpadPlayRandomActionFromCategory.cs:174 | a press plays the head of the refilled queue; a non-empty queue's head is played and its rest kept in front |
| RandomCategoryAction.Draws | streamdeck-soundpad/Actions/SoundpadPlayRandomActionFromCategory.cs:124-179 | one played sound per press |
| RandomCategoryAction.DrawsFollowQueue | streamdeck-soundpad/Actions/SoundpadPlayRandomActionFromCategory.cs:136-174 | presses play the queue in order as long as it lasts |
| RandomCategoryAction.FirstBatch | streamdeck-soundpad/Actions/SoundpadPlayRandomActionFromCategory.cs:144-161 | the first batch of an empty queue is the whole category shuffled |
| RandomCategoryAction.FreshDequeue | streamdeck-soundpad/Actions/SoundpadPlayRandomActionFromCategory.cs:136-179 | the first press on an empty queue plays the head of the shuffled category and leaves the rest of that shuffle at the front of the queue |
| RandomCategoryAction.FirstRoundPlaysEachOnce | streamdeck-soundpad/Actions/SoundpadPlayRandomActionFromCategory.cs:124-179 | from an empty queue, as many presses as sounds play every sound exactly once |
| RandomCategoryAction.RemoveNothing | streamdeck-soundpad/Actions/SoundpadPlayRandomActionFromCategory.cs:146-154 | with nothing avoided the filter keeps the list |
| RandomCategoryAction.RefillNoAdjacentRepeats | streamdeck-soundpad/Actions/SoundpadPlayRandomActionFromCategory.cs:141-161 | a refill never queues a sound right behind itself (more than one sound) |
| RandomCategoryAction.ConsecutiveDrawsDiffer | streamdeck-soundpad/Actions/SoundpadPlayRandomActionFromCategory.cs:124-179 | for a category of more than one sound whose sound count is unchanged between presses, two successive presses never play the same sound, and the queue keeps that for the next press |
| RandomCategoryAction.EmptyCategoryRefillNeverEnds | streamdeck-soundpad/Actions/SoundpadPlayRandomActionFromCategory.cs:136-166 | for a category without sounds a pass appends nothing and the loop condition stays true |
| RandomCategoryAction.EmptyCategoryPlainPickFails | streamdeck-soundpad/Actions/SoundpadPlayRandomActionFromCategory.cs:183-190 | for a category without sounds the plain pick indexes past the end |
| RandomCategoryAction.Tick | streamdeck-soundpad/Actions/SoundpadPlayRandomActionFromCategory.cs:221-253 | disconnected: flag cleared; connected: the flag follows the show-title condition and the title is written only when the flag changes |
| RandomCategoryAction.TitleSetAtMostOnce | streamdeck-soundpad/Actions/SoundpadPlayRandomActionFromCategory.cs:234-252 | with unchanged settings the tick after a connected tick writes no title |
| RandomCategoryAction.TitleRedrawnAfterReconnect | streamdeck-soundpad/Actions/SoundpadPlayRandomActionFromCategory.cs:223-243 | after a disconnected tick the title is drawn again |
| RandomCategoryAction.InspectorRefreshNeverFires | streamdeck-soundpad/Actions/SoundpadPlayRandomActionFromCategory.cs:291-298 | no message ever triggers the refresh as written |
| RandomCategoryAction.InspectorRefreshFires | streamdeck-soundpad/Actions/SoundpadPlayRandomActionFromCategory.cs:291-298 | the corrected comparison triggers on "refreshSounds" |
| RandomCategoryAction.SoundpadPlayRandomActionFromCategory.constructor | streamdeck-soundpad/Actions/SoundpadPlayRandomActionFromCategory.cs:55-73 | stored or default settings, no title drawn, empty queue, recorded size -1 |
| RandomCategoryAction.SoundpadPlayRandomActionFromCategory.KeyPressed | streamdeck-soundpad/Actions/SoundpadPlayRandomActionFromCategory.cs:96-211 | no category or no sounds: nothing played, queue untouched; plain: the sound at the drawn position; AvoidRepetition: queue reset iff the size changed, refilled, head played, size recorded; OK iff played and the play succeeded |
| RandomCategoryAction.SoundpadPlayRandomActionFromCategory.RefillQueue | streamdeck-soundpad/Actions/SoundpadPlayRandomActionFromCategory.cs:128-166 | the queue becomes `Refill` of the (possibly reset) queue and the size is recorded |
| RandomCategoryAction.SoundpadPlayRandomActionFromCategory.Enqueue | streamdeck-soundpad/Actions/SoundpadPlayRandomActionFromCategory.cs:159-162 | appends the batch in order |
| RandomCategoryAction.SoundpadPlayRandomActionFromCategory.KeyReleased | streamdeck-soundpad/Actions/SoundpadPlayRandomActionFromCategory.cs:213-219 | `Stop` iff push-to-play |
| RandomCategoryAction.SoundpadPlayRandomActionFromCategory.OnTick | streamdeck-soundpad/Actions/SoundpadPlayRandomActionFromCategory.cs:221-253 | takes exactly `Tick` on the title flag |
| RandomCategoryAction.SoundpadPlayRandomActionFromCategory.ReceivedSettings | streamdeck-soundpad/Actions/SoundpadPlayRandomActionFromCategory.cs:259-269 | takes the incoming settings with the category index sanitised |

## Left out

- Locks, semaphores, `Task.Run`, `async`/`await` and fire-and-forget calls: every public method is one atomic step.
- The double-checked-locking singleton `Instance`: one manager object is modelled.
- `Thread.Sleep` and `Task.Delay`: they only wait. A call reads the clock once, so `DateTime.Now` read twice within one `CacheAllSounds` is one `now`.
- The `SoundpadConnector` library: its replies are inputs (`World`) and its requests are outputs (`Effect`). An exception inside `CacheAllSounds`' `try` (for instance a null payload) is not modelled; payloads are always lists.
- `IsConnected` also checks that the connector object exists. It always does after construction, so only the flag is modelled.
- `RandomGenerator` and the random-key `OrderBy`: oracles bounded by `RandomBounded` and `IsShuffle`.
- String order: .NET's default `OrderBy` comparer on strings is culture-aware; the model orders by character code.
- Catalog.SortByName: `OrderBy` is stable; the model proves the result is a permutation in name order, not that equal names keep their order.
- `ToLowerInvariant` is modelled on the ASCII letters only; other characters are kept.
- `Int32.TryParse` is modelled for the invariant culture with the default `NumberStyles.Integer`; culture-specific signs are not modelled.
- The Stream Deck SDK: images, titles and key feedback become values (`TickOutput`, `Feedback`). `SaveSettings`, JSON, `Tools.SplitStringToFit` (the title is given unsplit), logging and the title-parameter event are not modelled.
- The lists the play and category actions keep in their settings for the property inspector (`Sounds`, `Categories`, refreshed on construction and on update events) are user-interface data and are not modelled. So are the property-inspector script and the remove action's `OnTick`, which reads an `IsTrial` member this manager does not have.
- Revision mismatch: the manager builds categories with `CategoryName`/`CategoryIndex` members, which the category record does not have. The model's categories carry name, index and sounds, as the record does, and the manager's list carries each category's sounds. The category action subscribes to `CategoriesUpdated` and calls `CacheAllCategories`, which this manager does not define; both are left out.
- The load-sound-list, stop, record and plain random actions, and the older plugin classes, only forward to the manager or depend on the file system. The manager methods they call are modelled.
- The remove action's constructor also calls `Connect` and saves default settings; neither is part of its model.
- RandomCategoryAction.SoundpadPlayRandomActionFromCategory.KeyPressed: requires the sound indices inside each category to be distinct, as Soundpad assigns them. Repeated indices make the source loop forever only when every entry of the category equals the queue's last index after a pass (a category [5, 5], say): each later pass then appends nothing. Other repeats, such as [5, 5, 6], end the loop.
- RandomCategoryAction.SoundpadPlayRandomActionFromCategory.KeyPressed: the feedback takes the manager's `PlaySound` answer as a parameter instead of running `PlaySoundByIndex`.
- Manager.SoundpadManager.constructor: does not report the effects of its `Connect`.

## Findings

| source | as written | input that shows it | evidently intended | confidence | as-written member | corrected member |
|---|---|---|---|---|---|---|
| streamdeck-soundpad/SoundPadManager.cs:138 | `PlaySound(string)` calls `dicSounds.ContainsKey` when connected, though the dictionary stays null until a sound listing succeeds | Connect, then the Connected event while `GetSoundlist` fails, then `PlaySound("Applause")`: a `NullReferenceException` | an unknown title: false, no request | not executed | ManagerProperties.PlayTitleNullReference | ManagerProperties.PlayTitleCorrected |
| streamdeck-soundpad/Actions/SoundpadPlayRandomActionFromCategory.cs:136-166 | the refill loop has no exit for a category without sounds: each pass appends nothing and the queue stays below 1 | AvoidRepetition on, a category with no sounds, one key press: the loop never ends | nothing played, an alert | not executed | RandomCategoryAction.EmptyCategoryRefillNeverEnds | RandomCategoryAction.SoundpadPlayRandomActionFromCategory.KeyPressed |
| streamdeck-soundpad/Actions/SoundpadPlayRandomActionFromCategory.cs:183-190 | the plain branch draws `Next(Count)` and indexes the category's sounds with no emptiness check | AvoidRepetition off, a category with no sounds: `Next(0)` is 0 and `Sounds[0]` is out of range | nothing played, an alert | not executed | RandomCategoryAction.EmptyCategoryPlainPickFails | RandomCategoryAction.SoundpadPlayRandomActionFromCategory.KeyPressed |
| streamdeck-soundpad/Actions/SoundpadPlayRandomActionFromCategory.cs:293-295 | the lower-cased message is compared with "refreshSounds", which has an upper-case letter | the property inspector sends "refreshSounds": no refresh | compare with "refreshsounds", as the play action does | not executed | RandomCategoryAction.InspectorRefreshNeverFires | RandomCategoryAction.InspectorRefreshFires |
