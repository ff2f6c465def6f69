# A verified model of the AVOutput television plugin

The plugin keeps the picture settings of a television. A setting is a parameter (or a colour
component of one) in a context of picture mode, video format and video source. It lives in three
places: a string-keyed TR-181 store, a driver table, and the hardware, which shows the settings of
the context on screen. The project models how a JSON request is turned into writes to these places
and proves what the three have to do with each other, over every request, every store and every
interleaving of the threads. It also models the helpers beside it: the HDMI zoom rules, JSON-RPC
correlation, the base64 encoder, the blink sequencer, and the settings file.

What code does step by step is modelled step by step: classes whose methods update the fields the
source updates (`ParameterStore`, `UpdateQueue`, `PictureModeStore`, `ZoomSettings`, `PromiseMap`,
`Sequencer`, `CSettings`) and methods with the source's loops. Each such method is proved equal to a
function of its input or of the old state, and the properties are proved about that function. For
each operation one lemma says what it does in terms of the request and the platform alone
(`ResolvedExactly`, `SetLeaves`, `SetOnPair`, `EventsDecide`, `UndisturbedCallSucceeds` and the like).
Threads are state machines over their atomic steps. `dafny verify dfyconfig.toml` checks it all.

## Modules

| file | subject |
|---|---|
| Text, Names, Keys | `std::to_string` and `std::stoi`, the name tables, the storage keys |
| Encoding | texts stored for levels, and their reading by prefix |
| Contexts | which contexts a request addresses, and whether the one on screen is among them |
| Updates, LastWrites, Splitting | one pass of set, reset or sync over contexts; which writes decide; the pass split in two |
| PassEffects | what a pass leaves place by place, and what is read afterwards |
| QueuedUpdates | set and reset requests, with caller and worker interleaved write by write |
| ParameterUpdates | the object that resolves, splits, writes and queues |
| WorkerQueue | the worker's life and the destructor |
| LegacySplit | the split on platforms without capability contexts |
| Capabilities | nested capability objects, and the comma-separated capability check |
| PictureModes | the picture mode per source and format: store, driver cache and hardware |
| Zoom | the zoom mode under HDMI events |
| Correlation | requests, replies and timeouts |
| Base64, Blink, SettingsFile | the self-contained helpers |

The HAL's enumerator values are not in the repository. They enter as parameters (`Numbering`,
`Levels`, `Config`) that only have to be distinct bytes, or distinct. To keep proofs small, the
engine's lemmas are stated over an abstract `Platform` or `Setup` whose keys are injective;
`PluginIsGood` and `PluginSetupIsGood` show that the plugin's own tables and keys are such.

## Where the obvious claim is false

- A request list that mixes "Global" or "none" with names makes the hardware be set without the
  context on screen being persisted (`MixedListCounterexample`). `SetRequiredExactly` gives the exact
  condition.
- Splitting a sync changes the outcome when an unrecognised stored text inherits the level of a
  context whose turn the split has moved (`SplitExactly` gives the exact condition,
  `DimmingSplitDiffers` a store of the plugin's own texts).
- `SetSdrGamma` takes no format, so the driver has one entry for all formats of a mode and source.
  A set may always be split. A reset may be split exactly when no context before the one on screen
  has its mode and source, or one after it has, or the last one before it has the same HAL default
  (`ResetSplitsExactly`; `ResetSplitDiffers` gives the failing input). A sync may be split on every
  store of recognised texts exactly when no context before the one on screen has its mode and source
  (`GammaSplitsExactly`, `GammaSplitDiffers`). `SharedSplitExactly` is the condition for one store.
- For the same reason the queue does not always refine sequential execution. It does exactly on
  platforms where two contexts that share an SDRGamma entry are not on screen and are the only two
  contexts that have SDRGamma (`RefinesExactly`; `SharedEntryBreaksRun` and `ScreenSharerBreaksRun`
  are runs that drain to a wrong memory).
- A single-context request is written at once even if an older task for its context is still queued,
  and that task then undoes it (`OwnTaskUndoes`). `WriteAtOnceExactly` says when it does no harm.
- A level without a name is stored as text that reads back as something else (`RoundTrip`).
- Resetting a picture mode whose HAL default has no name clears the stored text and leaves the driver
  value, so cache and store disagree (`ResetKeepsAgreementExactly`).
- The skip tuple of the legacy split is cut down to bytes (`CoversOnceExactly`).
- A HDMI start at a resolution already known to be 4K leaves the old zoom in place until the next
  event (`LagsExactly`).
- A settings file loses values that contain '=' or a newline, and keys that contain a newline
  (`RoundTripExactly`).

## Model

| member | source | states |
|---|---|---|
| Text.StoiRoundTrip | plugin/AVOutputTVHelper.cpp:2335 | the decimal text of any 32-bit int parses back to it |
| Text.IntTextIsCanonical | plugin/AVOutputTVHelper.cpp:1107 | the text of an int is a minus sign if it is negative, then its digits without leading zeros |
| Text.StoiAccepts | plugin/AVOutputTVHelper.cpp:2335 | blanks before the number and whatever follows its digits are ignored, either sign is taken, and a number outside 32 bits is refused |
| Text.StoiRejects | plugin/AVOutputTVHelper.cpp:2335 | a text without digits after blanks and a sign is refused |
| Names.TablesAreGood | plugin/AVOutputTVHelper.cpp:3220-3270 | the plugin's three name tables have distinct, dot-free names, none of them a request keyword, for any numbering by distinct bytes |
| Names.NoneAndSdr | plugin/AVOutputTVHelper.cpp:3534-3537 | the format read as SDR is the one named "None", and what it is read as is the one named "SDR" |
| Names.Table.NameThenCode | plugin/AVOutputTVHelper.cpp:3272-3306 | the reverse map takes a name back to its enumerator |
| Names.Table.CodeThenName | plugin/AVOutputTVHelper.cpp:3308-3336 | every text the reverse map knows is the name of what it yields |
| Names.Table.Pairing | plugin/AVOutputTVHelper.cpp:3272-3306 | enumerators and names are paired by their places in the table; nothing else has a name or a meaning |
| Keys.StorageKeyInjective | plugin/AVOutputTVHelper.cpp:3338-3350 | settings that differ in parameter, colour, component, control, colour temperature or context have different keys |
| Keys.PictureModeKeyInjective | plugin/AVOutputTV.cpp:4341-4344 | picture-mode keys differ when source or format differ |
| Keys.PictureModeKeyIsSeparate | plugin/AVOutputTV.h:58-80 | no picture-mode key equals the key of another setting |
| Keys.KeyInFull | plugin/AVOutputTVHelper.cpp:3338-3350 | the key of a setting, field by field |
| Keys.PictureModeKeyInFull | plugin/AVOutputTV.cpp:4550-4551 | the key of a picture mode, field by field |
| Encoding.RoundTrip | plugin/AVOutputTVHelper.cpp:2155-2338 | reading a stored level back gives the level, for every int of a numeric parameter and exactly the named levels of a coded one |
| Encoding.MatchFindsName | plugin/AVOutputTVHelper.cpp:2203-2214 | although only prefixes are compared, in a fixed order, each name is found at its own place |
| Encoding.WhichTextsAreUnrecognised | plugin/AVOutputTVHelper.cpp:2266-2292 | the level is left alone exactly for DimmingMode and SDRGamma texts that start no name |
| Encoding.StoredText | plugin/AVOutputTVHelper.cpp:1104-1126 | a level is stored as its decimal number, or as the name in its enumerator's place |
| Encoding.ReadName | plugin/AVOutputTVHelper.cpp:2181-2333 | a text is read as the first name that it begins, whole or cut short |
| Encoding.ReadOther | plugin/AVOutputTVHelper.cpp:2181-2333 | any other text is read as the parameter's fallback, the zoom modes of older versions as those that replaced them, and leaves the level alone for DimmingMode and SDRGamma |
| Encoding.UnnamedReadsBack | plugin/AVOutputTVHelper.cpp:1110-1122 | a level without a name comes back as automatic zoom, the manual backlight, or not at all |
| Contexts.ContextTextInjective | plugin/AVOutputTVHelper.cpp:3713-3802 | the "a_b_c" texts of two contexts are equal only for equal contexts, negative numbers included |
| Contexts.ResolveIsExact | plugin/AVOutputTVHelper.cpp:3713-3802 | the resolved contexts are strictly sorted and are the capability contexts whose three coordinates are each asked for |
| Contexts.ResolvedExactly | plugin/AVOutputTVHelper.cpp:3452-3548 | from the request's own fields: a capability context is resolved if and only if each label is missing, empty, "Global" or "none" alone, lists its own name, or lists "Current" while the HAL reports it (VIDEO_FORMAT_NONE as SDR); the order is by mode, format, source |
| Contexts.GlobalResolvesAll | plugin/AVOutputTVHelper.cpp:3713-3802 | an all-global request addresses exactly the capability contexts |
| Contexts.GetValidContexts | plugin/AVOutputTVHelper.cpp:3713-3802 | the product over hash sets, in whatever order they are visited, with its text sets and final sort, computes the resolved contexts |
| Contexts.Axis.Extract | plugin/AVOutputTVHelper.cpp:3458-3548 | the enumerators collected from a label are those its items mean |
| Contexts.IsSetRequired | plugin/AVOutputTVHelper.cpp:3626-3700 | its nested loops find a match exactly when all three labels cover the current names and a capability context carries them |
| Contexts.SetRequiredMeans | plugin/AVOutputTVHelper.cpp:3626-3700 | the decision from the request's own fields and the readings, known or not |
| Contexts.OnScreenMeans | plugin/AVOutputTVHelper.cpp:3626-3650 | when the context on screen is known, and which one it is |
| Contexts.Axis.AsksCurrent | plugin/AVOutputTVHelper.cpp:3452-3456 | the resolver and the hardware decision agree on one label unless it mixes "Global" with other names |
| Contexts.SetRequiredExactly | plugin/AVOutputTVHelper.cpp:3626-3700 | the context on screen is resolved if and only if the hardware has to be set and no label mixes "Global" with names |
| Contexts.MixedListCounterexample | plugin/AVOutputTVHelper.cpp:3650 | a mixed list for which the hardware is set and nothing is persisted for the screen |
| Updates.PluginIsGood | plugin/AVOutputTVHelper.cpp:1082-1138 | jobs in named contexts have keys of their own on the plugin's platform |
| Updates.ContextsAreApart | plugin/AVOutputTVHelper.cpp:4147-4279 | jobs in different contexts with different driver entries touch no common place |
| Updates.WritesCommute | plugin/AVOutputTVHelper.cpp:4147-4279 | lists of writes to disjoint places may be exchanged |
| Updates.PassIsPlan | plugin/AVOutputTVHelper.cpp:3904-4279 | a pass that reads what it has written equals applying writes planned from the store it starts with |
| Updates.PlanIgnoresLevel | plugin/AVOutputTVHelper.cpp:2203-2214 | the level variable matters only if a context without a recognised text saves it |
| PassEffects.SetLeaves | plugin/AVOutputTVHelper.cpp:4000-4148 | after a set the text of the level is under the key of every addressed setting and the level in its driver entry, white balance only in range; every other key and entry is as before |
| PassEffects.ResetClears | plugin/AVOutputTVHelper.cpp:4156-4167 | a reset clears the keys of the addressed settings and no other |
| PassEffects.ResetSavesDefaults | plugin/AVOutputTVHelper.cpp:4156-4167 | a driver entry then holds the default of the last addressed context that shares it and has a default in range |
| PassEffects.SyncLeaves | plugin/AVOutputTVHelper.cpp:4162-4170 | a sync leaves the store alone and puts into a driver entry the level found at the last of its settings that loads, an unrecognised text taking the last level read before it |
| PassEffects.ThrowsExactly | plugin/AVOutputTVHelper.cpp:2335 | a pass ends early exactly when a sync meets a text that std::stoi rejects, having done what the settings before it ask for |
| PassEffects.WritesInOrder | plugin/AVOutputTVHelper.cpp:4010-4148 | at every moment of a pass: text before level for plain parameters, level before text for colour and white balance, clearing before level for a reset |
| PassEffects.SetThenGet | plugin/AVOutputTVHelper.cpp:2155-2380 | reading any setting after a set gives the level for the addressed ones in range and what it gave before for all others |
| PassEffects.SetThenGetOnPlugin | plugin/AVOutputTVHelper.cpp:1104-1126 | so on the plugin, for every int of numbers, colour components and white balance in its range, and every named level of a coded parameter |
| PassEffects.ResetThenGet | plugin/AVOutputTVHelper.cpp:2339-2380 | reading any setting after a reset gives the HAL's default for the addressed ones and what it gave before for all others |
| LastWrites.SwapExactly | plugin/AVOutputTVHelper.cpp:4147-4279 | two lists of writes, followed by a third, may be swapped if and only if wherever both write and the third does not, they end with the same write |
| Splitting.SplitIfNothingInherited | plugin/AVOutputTVHelper.cpp:3859-3890 | if the context on screen shares no driver entry with an earlier one and no level is inherited from a moved neighbour, the immediate pass and the queued pass equal one pass |
| Splitting.SplitExactly | plugin/AVOutputTVHelper.cpp:3859-3890 | for contexts with driver entries of their own and any stored texts that parse, the two passes equal one pass if and only if no level is inherited from a moved neighbour |
| Splitting.DimmingSplitDiffers | plugin/AVOutputTVHelper.cpp:2203-2214 | a plugin store of DimmingMode texts, the first recognised and the second not, on which they differ |
| Splitting.SharedSplitExactly | plugin/AVOutputTVHelper.cpp:3859-3890 | whatever entries are shared, for set and reset on every store and sync on every store of recognised texts, the two passes equal one pass if and only if the screen's save is not moved past an earlier one of another level that no later save covers |
| Splitting.SplitPreserves | plugin/AVOutputTVHelper.cpp:3859-3890 | every set may be split; a reset, and a sync on recognised texts, may be if the screen shares no entry with an earlier context |
| Splitting.FreshUnlessGamma | plugin/AVOutputTVHelper.cpp:4250-4254 | the screen shares an entry with an earlier context only for SDRGamma, in another format of its mode and source |
| Splitting.ResetSplitsExactly | plugin/AVOutputTVHelper.cpp:4158-4166 | a reset may be split if and only if it does not concern SDRGamma, or no earlier context has the screen's mode and source, or a later one has, or the last earlier one has the same default |
| Splitting.ResetSplitDiffers | plugin/AVOutputTVHelper.cpp:4250-4254 | two formats of one mode and source: one pass leaves the default of the screen's format, two passes that of the other |
| Splitting.GammaSplitDiffers | plugin/AVOutputTVHelper.cpp:4250-4254 | the driver level of SDRGamma after one pass and after two, on a store of two recognised texts |
| Splitting.GammaSplitsExactly | plugin/AVOutputTVHelper.cpp:4250-4254 | SDRGamma may be split on all recognised stores if and only if no earlier context has the mode and source of the one on screen |
| Splitting.EncoderTextsAreRecognised | plugin/AVOutputTVHelper.cpp:1104-1122 | what the encoder writes for a named level reads back as that level |
| QueuedUpdates.OvertakingExactly | plugin/AVOutputTVHelper.cpp:3848-3851 | new writes made ahead of pending ones leave the same memory if and only if wherever they meet, both end with the same write |
| QueuedUpdates.SharersAreGammas | plugin/AVOutputTVHelper.cpp:4250-4254 | settings of different contexts share a driver entry if and only if they are SDRGamma in two formats of one mode and source |
| QueuedUpdates.NextKeeps | plugin/AVOutputTVHelper.cpp:3805-3902 | every step of caller or worker keeps: memory with the outstanding writes applied is the sequential result |
| QueuedUpdates.LooseRunRefines | plugin/AVOutputTVHelper.cpp:3837-3902 | if the screen shares no entry, every run in which single-context requests overtake only compatible writes drains to the sequential memory |
| QueuedUpdates.QueueRefinesSequential | plugin/AVOutputTVHelper.cpp:3837-3902 | where sharers of an entry are alone, every interleaving of set and reset requests, in which no single-context request names a context of an unfinished task, drains to the memory of running them one after the other without a queue |
| QueuedUpdates.RefinesExactly | plugin/AVOutputTVHelper.cpp:3837-3902 | and it does so in all these interleavings if and only if sharers are alone |
| QueuedUpdates.SharedEntryBreaksRun | plugin/AVOutputTVHelper.cpp:3848-3851 | otherwise a run of two set requests that drains to another memory |
| QueuedUpdates.ScreenSharerBreaksRun | plugin/AVOutputTVHelper.cpp:3859-3890 | such a run with requests for several contexts only |
| QueuedUpdates.QueueDrains | plugin/AVOutputTVHelper.cpp:3805-3835 | until everything is written some step is possible, and each leaves less to do |
| QueuedUpdates.UnmentionedContextMayOvertake | plugin/AVOutputTVHelper.cpp:3848-3851 | where sharers are alone, in every state whose tasks come from requests, a single-context request whose context no unfinished task names overtakes only compatible writes |
| QueuedUpdates.WriteAtOnceExactly | plugin/AVOutputTVHelper.cpp:3848-3851 | writing a single-context request ahead of the pending tasks gives the sequential memory if and only if it is compatible with them |
| QueuedUpdates.OwnTaskUndoes | plugin/AVOutputTVHelper.cpp:3848-3851 | a request written ahead of a task of another level for its own context is undone |
| ParameterUpdates.CutExactly | plugin/AVOutputTVHelper.cpp:3848-3871 | a request for one context is written at once; of several, the one on screen is, and the others are queued in order |
| ParameterUpdates.CutByNames | plugin/AVOutputTVHelper.cpp:3859-3871 | the cut made by comparing three names takes out exactly the context on screen |
| ParameterUpdates.SetPersists | plugin/AVOutputTVHelper.cpp:4147-4175 | a set leaves the level in the store, as its text, and in the driver |
| ParameterUpdates.ReachedIsPersisted | plugin/AVOutputTVHelper.cpp:3853-3876 | when the hardware has to be set, the context on screen is written before the call returns |
| ParameterUpdates.ScreenIsNow | plugin/AVOutputTVHelper.cpp:3859-3876 | when the hardware has to be set, exactly the context on screen is written at once |
| ParameterUpdates.ParameterStore.UpdateOne | plugin/AVOutputTVHelper.cpp:4147-4175 | one turn of the update loop changes store, driver and level as its list of writes says |
| ParameterUpdates.ParameterStore.UpdateImplementation | plugin/AVOutputTVHelper.cpp:3904-4279 | the loops over contexts and targets, with one level variable, are one pass |
| ParameterUpdates.ParameterStore.Update | plugin/AVOutputTVHelper.cpp:3837-3902 | resolves, writes the context on screen at once and queues the rest as one task; nothing is queued after an exception |
| ParameterUpdates.ParameterStore.Cut | plugin/AVOutputTVHelper.cpp:3859-3871 | the loop takes the first context with the names on screen and keeps the others in order |
| ParameterUpdates.ParameterStore.RunFrontTask | plugin/AVOutputTVHelper.cpp:3805-3835 | the front task leaves the queue and is carried out as one pass |
| ParameterUpdates.ParameterStore.SetInt | plugin/AVOutputTV.cpp:774-821 | a refused value changes nothing; otherwise hardware, store and driver agree on the screen's level on return, whenever the hardware was set by an unmixed request |
| WorkerQueue.EveryRunKeepsOrder | plugin/AVOutputTVHelper.cpp:3805-3835 | in every interleaving executed tasks, the task in hand and the queue are the pushes in order, and the worker leaves only with the stop flag set and nothing left |
| WorkerQueue.JoinedMeansAllDone | plugin/AVOutputTV.cpp:453-466 | after the join, with no later push, every task was carried out exactly once in order |
| WorkerQueue.JoinIsReached | plugin/AVOutputTV.cpp:453-466 | until the join some step of worker or destructor is possible, and each leaves fewer to make |
| WorkerQueue.JoinWithoutPushes | plugin/AVOutputTV.cpp:453-466 | with no further push, the join comes after a bounded number of steps |
| WorkerQueue.UpdateQueue.Fetch | plugin/AVOutputTVHelper.cpp:3808-3824 | a woken worker leaves or takes the front task, as in the state machine |
| WorkerQueue.UpdateQueue.DrainAndLeave | plugin/AVOutputTVHelper.cpp:3805-3835 | once stopped, the worker's loop carries out the whole queue in order |
| LegacySplit.CoversOnceExactly | plugin/AVOutputTVHelper.cpp:1210-1309 | for vectors without duplicates the passes visit the product once each if and only if all is written at once, or the tuple on screen is not requested, is all that is requested, or fits in bytes |
| LegacySplit.Visit | plugin/AVOutputTVHelper.cpp:1336-1350 | the three loops visit the product in order, without the skipped tuples |
| LegacySplit.OrderOfVisits | plugin/AVOutputTVHelper.cpp:1336-1350 | sources outside, modes in the middle, formats inside |
| LegacySplit.KeptSplit | plugin/AVOutputTVHelper.cpp:1341-1349 | skipping keeps the order |
| LegacySplit.HasCurrent | plugin/AVOutputTVHelper.cpp:1249-1270 | the search finds the tuple on screen exactly when its three coordinates are requested |
| LegacySplit.Update | plugin/AVOutputTVHelper.cpp:1210-1309 | what is visited at once and the skip tuples of what is queued; HDRMode and DolbyVisionMode are visited whole at once |
| Capabilities.NestedIsFlat | plugin/AVOutputTV.cpp:855-902 | a source is listed under a mode and format if and only if a context has the three names, and once |
| Capabilities.InOrderOfFirstAppearance | plugin/AVOutputTV.cpp:883-893 | listed sources are ordered by their first context |
| Capabilities.ListedInOrder | plugin/AVOutputTV.cpp:883-893 | of two listed sources the first belongs to an earlier context with the mode and format than any the second belongs to |
| Capabilities.ParseContextCaps | plugin/AVOutputTV.cpp:855-902 | the loop builds exactly these lists, with no empty mode or format |
| Capabilities.IsCapabilityCheckPassed | plugin/AVOutputTVHelper.cpp:493-548 | the check passes exactly when the capabilities can be read and every requested mode, format and source is among them |
| Capabilities.SplitToSet | plugin/AVOutputTVHelper.cpp:650-671 | the getline loop collects exactly the comma-separated tokens |
| Capabilities.FieldsExactly | plugin/AVOutputTVHelper.cpp:655-658 | the pieces of a text are the one list of comma-free pieces that joins to it |
| Capabilities.IsIncluded | plugin/AVOutputTVHelper.cpp:393-401 | the loop decides the subset relation |
| Capabilities.SplitJoinSplit | plugin/AVOutputTVHelper.cpp:940-948 | split, join and split again adds no token and loses only empty ones |
| Capabilities.JoinedThenSplit | plugin/AVOutputTVHelper.cpp:940-948 | a list of non-empty tokens comes back unchanged |
| Capabilities.GlobalAxesPass | plugin/AVOutputTVHelper.cpp:950-1002 | a request is converted and passes if and only if each label is missing, empty or "Global", or is "Current" with a known value among the capabilities, or lists only tokens that are |
| Capabilities.ParseAxis | plugin/AVOutputTVHelper.cpp:556-585 | the loop joins a label's items with commas, and makes "Global" of an empty text |
| Capabilities.TokensOfItems | plugin/AVOutputTVHelper.cpp:556-585 | the tokens of a list are its items, up to an empty one at the end |
| Capabilities.GlobalIsCapabilities | plugin/AVOutputTVHelper.cpp:960-962 | "Global" is replaced by exactly the non-empty capability tokens |
| PictureModes.PluginSetupIsGood | plugin/AVOutputTV.cpp:4341-4344 | the plugin's tables and keys tell all named pairs and modes apart |
| PictureModes.ChosenExactly | plugin/AVOutputTV.cpp:4459-4540 | from the request's own labels: a pair is chosen if and only if a capability context carries it (and offers the mode) and each label is missing, or lists "Current" and is current, or lists no "Current" and lists "Global" or its name |
| PictureModes.SupportedExactly | plugin/AVOutputTV.cpp:4437-4456 | a mode is supported if and only if it is the name of a supported enumerator |
| PictureModes.SetOnPair | plugin/AVOutputTV.cpp:4428-4574 | a set of a supported mode puts its name in the store, its enumerator in the driver and, on screen, the mode on the hardware, for the addressed pairs; nothing else changes |
| PictureModes.ResetOnPair | plugin/AVOutputTV.cpp:4677-4775 | a reset removes the stored text of the addressed pairs and, where the default has a name, puts it in the driver and on the hardware; nothing else changes |
| PictureModes.SyncOnPair | plugin/AVOutputTVHelper.cpp:1848-1925 | a sync puts the mode of a readable stored text into the driver for the pairs that both filters let through; nothing else changes |
| PictureModes.SetKeepsAgreement | plugin/AVOutputTV.cpp:4428-4574 | a set keeps the driver's mode equal to the reported one for every capability pair |
| PictureModes.ResetKeepsAgreementExactly | plugin/AVOutputTV.cpp:4677-4775 | a reset keeps it if and only if every addressed default has a name |
| PictureModes.FullSyncEstablishesAgreement | plugin/AVOutputTVHelper.cpp:1848-1925 | a sync of everything establishes it from any driver if and only if the pairs without a readable text agree already |
| PictureModes.HardwareFollows | plugin/AVOutputTV.cpp:4543-4548 | set, reset and sync keep the hardware on the mode reported for the pair on screen |
| PictureModes.AgreementOverRuns | plugin/AVOutputTV.cpp:4306-4370 | over every run of set, reset and sync, driver and hardware agree with what getPictureModeV2 reports |
| PictureModes.LoopReaches | plugin/AVOutputTV.cpp:4528-4565 | writes made one context after another amount to the effect on the set of chosen pairs |
| PictureModes.PictureModeStore.GetPictureMode | plugin/AVOutputTV.cpp:4306-4370 | the stored text, else the default's name, else failure |
| PictureModes.PictureModeStore.SetPictureMode | plugin/AVOutputTV.cpp:4428-4574 | the code's search, expansion of "Global" and loop have the effect of a set, and succeed exactly when a context was chosen |
| PictureModes.PictureModeStore.ResetPictureMode | plugin/AVOutputTV.cpp:4677-4775 | likewise for a reset, which succeeds exactly when a chosen context has a named default |
| PictureModes.PictureModeStore.SyncPictureModes | plugin/AVOutputTVHelper.cpp:1848-1925 | likewise for a sync, which succeeds exactly when something was loaded |
| PictureModes.PictureModeStore.ExpandSources | plugin/AVOutputTV.cpp:4489-4499 | on the contexts that matter, the list with "Global" expanded accepts what the list as given accepts |
| PictureModes.PictureModeStore.ExpandFormats | plugin/AVOutputTV.cpp:4501-4511 | likewise for formats |
| Zoom.HardwareFollowsSavedMode | plugin/AVOutputTV.cpp:220-281 | in every run of successful events the hardware shows the saved mode except at 4K over HDMI, and the user is told the last mode chosen |
| Zoom.SavedIsLastChoice | plugin/AVOutputTVHelper.cpp:2717-2744 | whatever HAL calls fail, the saved mode is the last one chosen |
| Zoom.LastEventsAreRemembered | plugin/AVOutputTV.cpp:247-258 | over every run, the resolution is that of the last video mode reported, shown or not, and HDMI is presented if its last event was a start |
| Zoom.EventsDecide | plugin/AVOutputTV.cpp:220-281 | what each event does to the hardware, whatever failed before, from the events alone |
| Zoom.LockedByEvents | plugin/AVOutputTVHelper.cpp:2691-2706 | when the answer is the mode chosen instead of the hardware's, from the events alone |
| Zoom.HardwareIsSettled | plugin/AVOutputTV.cpp:220-281 | the hardware shows what was due after the last event other than a HDMI start |
| Zoom.LagsExactly | plugin/AVOutputTV.cpp:239-243 | it lags exactly when HDMI has just started at a resolution known to be 4K and the user's mode is not automatic |
| Zoom.NextSuccessHeals | plugin/AVOutputTV.cpp:247-281 | an event whose HAL call succeeds puts the zoom right whatever failed before |
| Zoom.ZoomSettings.OnHdmiStatus | plugin/AVOutputTV.cpp:220-245 | the status handler makes the state machine's step |
| Zoom.ZoomSettings.OnVideoMode | plugin/AVOutputTV.cpp:247-281 | the video-mode handler makes the state machine's step |
| Zoom.ZoomSettings.SetZoom | plugin/AVOutputTVHelper.cpp:2717-2744 | setting the zoom makes the state machine's step, on both builds |
| Zoom.ZoomSettings.GetZoom | plugin/AVOutputTVHelper.cpp:2691-2706 | the answer is the saved mode at 4K over HDMI and the hardware's mode otherwise |
| Correlation.MapHoldsLiveCalls | helpers/WebSockets/CommunicationInterface/JsonRpcInterface.h:168-193 | in every interleaving an id is in the map exactly while one call has put it there and not taken it out, never two |
| Correlation.CallersReceiveTheirOwn | helpers/WebSockets/CommunicationInterface/JsonRpcInterface.h:148-166 | a caller receives only a message with its own id, a woken one has its message, and true is returned only for a conforming reply with the id, a successful result and no error |
| Correlation.MessageReachesCall | helpers/WebSockets/CommunicationInterface/JsonRpcInterface.h:214-225 | a message whose number is a waiting call's id becomes its message, if it is the first, and lets it wake |
| Correlation.AnswerDecides | helpers/WebSockets/CommunicationInterface/JsonRpcInterface.h:148-166 | whatever else happens, a call with its message that does not time out returns true exactly for a reply of version "2.0" with its id, no error and success |
| Correlation.AnsweredCallReturns | helpers/WebSockets/CommunicationInterface/JsonRpcInterface.h:148-166 | and three steps of its own bring it there |
| Correlation.UndisturbedCallSucceeds | helpers/WebSockets/CommunicationInterface/JsonRpcInterface.h:72-103 | in every interleaving, a call whose id no other call uses, whose send succeeds and which does not time out returns only on a message, with the verdict on the first |
| Correlation.LostCallReturnsFalse | helpers/WebSockets/CommunicationInterface/JsonRpcInterface.h:72-103 | a call that timed out, could not send or was refused returns false whatever comes later |
| Correlation.WhatLosesACall | helpers/WebSockets/CommunicationInterface/JsonRpcInterface.h:72-103 | only a timeout, a failed send, an id in use or a reply that is not accepted loses a call |
| Correlation.LooksBeforeItSends | helpers/WebSockets/CommunicationInterface/JsonRpcInterface.h:72-103 | no call goes on without having looked for its id, and none sends without its promise in the map |
| Correlation.MapEmptiesOut | helpers/WebSockets/CommunicationInterface/JsonRpcInterface.h:72-103 | once all calls have returned the map is empty |
| Correlation.FirstMessageStays | helpers/WebSockets/CommunicationInterface/JsonRpcInterface.h:214-225 | over every run, a call keeps the first message it was given |
| Correlation.LateMessageIsDropped | helpers/WebSockets/CommunicationInterface/JsonRpcInterface.h:214-225 | a message nobody waits for changes nothing |
| Correlation.CallsProgress | helpers/WebSockets/CommunicationInterface/JsonRpcInterface.h:72-103 | a call always has a step to take, each of its steps brings its return nearer, and no other thread sets it back |
| Correlation.IsValid | helpers/WebSockets/JsonRpc/Response.cpp:74-110 | validity is conformance to section 5 of the JSON-RPC 2.0 specification |
| Correlation.ProcessResponse | helpers/WebSockets/CommunicationInterface/JsonRpcInterface.h:227-264 | success exactly for a conforming reply with the id, whose result says success |
| Correlation.PromiseMap.CreateFutureResponse | helpers/WebSockets/CommunicationInterface/JsonRpcInterface.h:168-179 | creates a promise exactly when the id is free, and changes nothing otherwise |
| Correlation.PromiseMap.HandleResponse | helpers/WebSockets/CommunicationInterface/JsonRpcInterface.h:214-225 | fulfils the promise, drops the message, or throws on a second fulfilment, each exactly when due |
| Base64.ImageEncoder | helpers/UtilsString.h:162-196 | appends the RFC 4648 encoding of the first bytes of the buffer |
| Base64.BitsInOrder | helpers/UtilsString.h:168-182 | the symbols hold the bits of the input in order, six each, and then only zeros (section 4 of RFC 4648) |
| Base64.PlainCuts | helpers/UtilsString.h:168-182 | the masks and shifts of the loop cut 24-bit groups into sextets |
| Base64.EncodedLength | helpers/UtilsString.h:183-193 | four times n over three, rounded up, with padding; the unpadded length of section 3.2 of RFC 4648 without |
| Base64.DecodeEncode | helpers/UtilsString.h:162-196 | decoding what is appended gives the bytes back, with and without padding |
| Base64.TableIsAlphabet | helpers/UtilsString.h:157-159 | the table is table 1 of RFC 4648 |
| SextetLoop.WriteSymbols | helpers/UtilsString.h:162-186 | the loop with its state and carried bits writes the symbols of whole and left-over groups |
| Blink.RunEnds | helpers/frontpanel.cpp:641-664 | with k repeats an uninterrupted sequence shows the pattern exactly k + 1 times, ends on the last frame and stops |
| Blink.RunShowsRounds | helpers/frontpanel.cpp:641-664 | until then every tick shows one more frame and the index stays inside the pattern |
| Blink.RunGoesOn | helpers/frontpanel.cpp:641-664 | with negative repeats it never stops and frame i is pattern[i mod n] |
| Blink.EmptyPattern | helpers/frontpanel.cpp:595-601 | an empty pattern shows nothing and schedules nothing |
| Blink.StoppedStaysStopped | helpers/frontpanel.cpp:641-664 | a late tick after a stop does not schedule another |
| Blink.Sequencer.SetBlink | helpers/frontpanel.cpp:503-550 | stops, replaces the pattern and starts |
| Blink.Sequencer.StartBlinkTimer | helpers/frontpanel.cpp:587-602 | shows frame 0 of a non-empty pattern and schedules the timer |
| Blink.Sequencer.OnBlinkTimer | helpers/frontpanel.cpp:641-664 | makes the tick of the state machine and never indexes outside the pattern |
| SettingsFile.RoundTripExactly | helpers/cSettings.h:160-210 | a file written and read back gives the same map if and only if keys have no newline and values are non-empty without newline and '=' |
| SettingsFile.ReadBack | helpers/cSettings.h:160-210 | entries that fit their lines come back in order, without the empty ones |
| SettingsFile.LastLineDecides | helpers/cSettings.h:189-210 | for a file of any lines: the last line that sets a key decides, lines without '=' are ignored, and other keys are as before |
| SettingsFile.SetSurvives | helpers/cSettings.h:79-83 | a restart reads the value that was set, and nothing else has changed |
| SettingsFile.RemoveSurvives | helpers/cSettings.h:134-154 | a restart does not find a removed key, and nothing else has changed |
| SettingsFile.EmptiedIsWithout | helpers/cSettings.h:142-143 | emptying a label and taking it out leave the same file |
| SettingsFile.CSettings.ReadFromFile | helpers/cSettings.h:189-210 | the getline loop loads every line at its last '=' |
| SettingsFile.CSettings.WriteToFile | helpers/cSettings.h:160-183 | the loop writes the entries with a value, one to a line |
| SettingsFile.CSettings.Remove | helpers/cSettings.h:134-154 | the file loses the key whether or not the object drops the label |

## Left out

- The bodies of HAL, TR-181, device-settings, IARM and Thunder calls: they succeed, except where an outcome is a parameter (`halAccepts`, `halOk`); their readings stay fixed during one request.
- JSON: a request is a record of labels that are missing or arrays of names; labels given as a single text are not modelled, and neither are arrays of more than 65535 entries, where the 16-bit loop counters wrap.
- The get, set, reset and caps wrappers around the shared helpers, which would only add easy members; logging, notifications, telemetry, registration and the INI reader.
- SetPersists: is about parameters with one value per context, as is SetInt; SetLeaves covers colour and white balance. For CMS and WhiteBalance the checked colour and component lists are the `targets` parameter, and their positive error bits and return codes are not modelled.
- The legacy encodings of HDRMode and DolbyVisionMode; of their updates only which tuples are written at once.
- Update: the legacy method's return code, the result of its immediate pass, is not modelled.
- SplitExactly: asks that the contexts from the one on screen on have driver entries of their own, and that the one on screen shares none with an earlier one; where SDRGamma entries are shared, the exact conditions (SharedSplitExactly, GammaSplitsExactly) are about stores of recognised texts.
- RoundTrip: says nothing about ColorTemp and DimmingMode levels outside their C arrays, because reading past an array has no defined result.
- A current format that the HAL fails to report is taken as VIDEO_FORMAT_NONE.
- QueueRefinesSequential: set and reset requests only, because what a sync writes depends on the store it finds; one caller at a time and a fixed context on screen, because what is written at once depends on it; several callers at once are modelled for the queue alone (`EveryRunKeepsOrder`).
- RunEnds: a timer callback already on its way when an empty pattern is set is not part of the uninterrupted sequence; the blink counter is an unbounded integer.
- CallersReceiveTheirOwn: ids are compared after conversion to 32 bits and are not assumed fresh, so a reply to an earlier, timed-out call with the same id counts as this call's own.
- CommandInterface, WebSocket endpoints, TLS, ping and pong, and the file, process and network helpers.
- The capability check's extra branches for CMS and WhiteBalance.
- UpdateImplementation: the return code, which is the bitwise or of HAL results and so zero when they succeed, is not modelled.
- ReadFromFile: a NUL in a key, which `c_str` cuts off, is not modelled.
