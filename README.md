# quq小手机 — a Dafny model of its storage, chat, moments, backup and developer-tool core

quq小手机 is a single-page "phone" web app: contacts you chat with (answered by a
template or by a configured AI provider), a moments feed with likes and comments, and
backups of everything it keeps. All state lives in the browser's `localStorage`, reached
through the `Storage` object, which keeps a read cache in front of it. This project models
that core as it is written in `app.js` and `dev-tools.js`:

- `Browser` — `localStorage` as a class over `map<string, string>`. A quota predicate,
  fixed for the session, decides whether a `setItem` goes through. `WriteAll` is a run of
  writes that stops at the first refused one, the way the first thrown `QuotaExceededError`
  ends a `forEach`.
- `Json` — JavaScript values as `JSON.parse` yields them: integer numbers, and arrays that
  can carry named properties (`arr[id] = …`). It also holds truthiness, property reads and
  writes, and `String(v)`. `JSON.parse`/`JSON.stringify` are an abstract `Codec`. The model
  relies on one law about it, `Lawful`: parsing undoes stringifying, up to what
  `JSON.stringify` drops. `Persisted` is what survives, namely no named properties on arrays.
- `KeyValueStore` — `Storage.get`/`set`/`getSetting`/`saveSetting`/`getBackupList`/
  `deleteCloudBackup`/`clearCache` over a state made of the storage contents and the cache.
  A `Store` class performs each operation step by step, proved equal to these functions.
  The cache is seeded with ten camel-case placeholders (`moments`, `comments`, `likes`, …)
  holding `null`. Three of them coincide with real storage keys, so right after
  `clearCache` those three read as `null` whatever storage holds, and an edit of them throws.
- `Utils` — `deepMerge`, `isObject` and `getApiHeaders`.
- `Provider` — `ApiModule`:
  - `sendChatMessage`: the request per provider, the reply extracted from the response, and
    the errors it throws;
  - `fetchAvailableModels`: the models URL, the list parsed per provider, and the list saved;
  - `getAllModels` and `getActiveModels`.
- `Chat` — `ChatModule`:
  - `sendMessage` and `generateAIResponse`, which chooses between the template reply and a
    configured custom API;
  - `addFallbackResponse` and its reply template;
  - `generateCustomAIResponse` and its message list;
  - `togglePinContact`, `deleteContact` and `editMessage`.
- `Moments` — `MomentsModule.toggleLike`, `sendComment`, `deleteComment` and `deleteMoment`.
- `Backup` — `BackupModule`:
  - `getAllData` and the downloaded local backup file;
  - `restoreFromLocalBackup`;
  - the cloud backups kept in storage itself, as a ring of at most ten entries;
  - `restoreFromCloudBackup`.
- `DevTools` — the developer panel's `exportAllData`, `importData`, `createBackup` and
  `importBackup`.

Operations that change state are methods of classes (`LocalStorage`, `Store`,
`ApiModule`, `ChatModule`, `MomentsModule`, `BackupModule`, `DevPanel`). A method's
`ensures` ties its outcome and its new state to a specification function of the old state.
The lemmas state the properties of those functions:

- round trips: a saved value survives a reload; every backup format restores the stored
  texts;
- what each operation leaves untouched;
- toggles that flip and undo each other;
- cascades that leave nothing behind;
- the shape of every request sent to a provider.

Several behaviours of the code are modelled exactly as written and proved as lemmas:

- After `clearCache`, `toggleLike` and `deleteMoment` throw
  (`Moments.ToggleLikeThrowsAfterClear`, `Moments.DeleteMomentThrowsAfterClear`).
- The first chat message of a fresh install is stored as a named property of an array, so
  it is lost on reload (`Chat.FirstHistoryLostOnReload`).
- Once `sendMessage` has pushed it, the user's message is sent to a custom API twice
  (`Chat.UserMessageSentTwice`).
- A JSON string value comes back from a restore without its quotes
  (`Backup.StringValueLosesQuotes`).
- Restoring a cloud backup whose snapshot is missing wipes storage
  (`Backup.MissingSnapshotClearsStorage`).
- Importing a file holding a JSON string writes one key per character
  (`DevTools.ImportedStringSplitsIntoCharacters`).
- A contact whose personality is truthy but not a string (a number, say) makes every
  reply throw, because it has no `trim` (`Chat.NonStringPersonalityThrows`).
- `createBackup` records an empty text as `null` (`DevTools.CreateImportRoundTrip`).

Clocks, generated ids, the user's answers to `prompt`/`confirm`, the key order of
`Object.keys`/`localStorage.key(i)`, the network's answer, and the date texts of
`formatDate`/`toLocaleString`/`toISOString` are all parameters.

## Model

| member | source | states |
|---|---|---|
| Strings.ContainsAt | app.js:2449 | an occurrence at any index is found by `includes` |
| Strings.IndexOf | app.js:2449 | the first index of a substring: the text there is the substring, no earlier index holds it, and one exists exactly when `includes` holds |
| Strings.Prefix | app.js:2468 | `substring(0, n)` is a prefix of the string, of length `min(n, length)` |
| Strings.TrimStart | app.js:2371 | the result is a suffix of the input and does not start with JavaScript white space |
| Strings.TrimEnd | app.js:2371 | the result is a prefix of the input and does not end with JavaScript white space |
| Strings.TrimEmptyIffBlank | app.js:2372 | `trim()` is empty exactly when every character is white space |
| Strings.TrimEndKeepsFirst | app.js:2371 | trimming the end keeps a leading non-white-space character |
| Strings.ReplaceFirst | app.js:725 | `replace` with a string pattern splices the replacement over the first occurrence, keeping the text before and after it; a string without the pattern is unchanged |
| Strings.StripSuffix | app.js:665 | `replace(/suffix$/, '')` removes the suffix exactly when the string ends with it, and otherwise changes nothing |
| Strings.NatText | dev-tools.js:262 | the index names of a string or an array (`"0"`, `"1"`, …) are non-empty runs of decimal digits |
| Strings.NatTextInjective | dev-tools.js:262 | distinct indices have distinct names, so the index properties of a string never collide |
| Json.Prop | app.js:867 | a property read gives the object's field or the array's named property, and `undefined` on scalars |
| Json.Or | app.js:2408 | `a \|\| b` is `a` when truthy and `b` otherwise |
| Json.PutProp | app.js:2380 | on an object or an array, the assigned property reads back as the new value and every other property reads as before; a primitive is unchanged |
| Json.DeleteProp | app.js:2656 | on an object the property reads as `undefined` afterwards; on an array the named property is gone and the elements are kept; every other property reads as before |
| Json.Push | app.js:2383 | `push` appends to the elements and keeps the named properties |
| Json.EnsureList | app.js:2379-2381 | on an object or an array the entry is truthy afterwards, a truthy entry is kept as it was, and every other property reads as before |
| Json.WithEntry | app.js:2378-2388 | after the ensure and the `push`, a falsy entry becomes `[entry]`, and an array entry gets `entry` appended |
| Json.WithEntryAppends | app.js:3224-3235 | on an object whose entry is an array, the entry is pushed onto that array and the other fields are kept |
| Json.PlainIsPersisted | app.js:342 | a value without named array properties is written out by `JSON.stringify` unchanged |
| Json.PersistedIsPlain | app.js:342 | what `JSON.stringify` writes has no named array properties |
| Json.PersistedTwice | app.js:342 | writing out twice is writing out once |
| Json.IndexPropsAt | dev-tools.js:262 | the index property `i` of a string or an array holds its `i`-th item |
| Json.IndexPropsKeys | dev-tools.js:262 | every index property names an index of the string or the array |
| Lists.FirstIndex | app.js:2576 | `indexOf` gives the first index holding the value, and -1 exactly when it is absent |
| Lists.RemoveAt | app.js:2584 | `splice(i, 1)` removes exactly the element at `i` (as sequences and as multisets) |
| Lists.Toggle | app.js:2576-2585 | an absent value is appended; a present value loses one occurrence |
| Lists.ToggleFlips | app.js:2576-2585 | on a list holding the value at most once, a toggle flips its membership and keeps it at most once |
| Lists.ToggleTwiceRestores | app.js:2576-2585 | toggling an absent value twice gives the list back |
| Lists.Without | app.js:2651 | `filter(v => v !== x)` removes every occurrence of `x` and keeps every other element with its multiplicity; a list without `x` is returned as it is |
| Lists.WithoutConcat | app.js:2651 | filtering a concatenation filters each part, so the kept elements keep their order |
| Lists.WithoutId | app.js:2646 | `filter(x => x.id !== id)` removes every element with the id and keeps every other element with its multiplicity |
| Lists.WithoutIdConcat | app.js:2646 | filtering a concatenation by id filters each part, so the kept elements keep their order |
| Lists.WithoutIdKeepsOthers | app.js:3276 | a list with no element of that id is kept element for element |
| Lists.FindById | app.js:2403 | `find` gives the first element with the id, the one no `null` and no match precedes; nothing exactly when no element has the id and none is `null`; it throws exactly when a `null` element comes before any match |
| Lists.FindIndexById | app.js:2352 | `findIndex` gives the first index holding the id; -1 exactly when no element has it and none is `null`; it throws exactly when a `null` element comes before any match |
| Browser.Written | app.js:343 | a write the quota takes stores the pair; a refused write leaves storage as it was |
| Browser.WriteAllStops | app.js:1805-1811 | after the first refused write, the later writes change nothing |
| Browser.KeysWritten | app.js:1805-1811 | the set of keys a run of writes names, no more and no fewer |
| Browser.WriteAllUnlimited | app.js:1805-1811 | with a quota that takes everything, every write goes through, the keys are the old ones plus the written ones, and untouched keys keep their text |
| Browser.WriteAllUnlimitedValue | app.js:1805-1811 | a write that no later write to its key follows leaves its text |
| Browser.LocalStorage.SetItem | app.js:343 | the write happens exactly when the quota takes the new contents, and `ok` says which |
| Browser.LocalStorage.RemoveItem | app.js:492 | the key is gone and every other key is kept |
| Browser.LocalStorage.Clear | app.js:1801 | storage is empty |
| Browser.WriteAll | app.js:1805-1811 | a run of `setItem` calls that stops at the first one the quota refuses, with whether all went through |
| Utils.DeepMergeKeys | app.js:224-240 | the merge is an object whose keys are those of both sides when both are objects, and the target's own keys otherwise |
| Utils.DeepMerge | app.js:224-240 | `deepMerge(target, source)`: a copy of the target's own properties; when both are objects, each source key that holds an object and is a key of the target merges recursively, and every other source key is copied |
| Utils.DeepMergeEntries | app.js:224-240 | a target-only key keeps its value; a primitive source value overrides; a new key is copied; two objects merge recursively |
| Utils.DeepMergeSelf | app.js:224-240 | merging an object into itself gives that object |
| Utils.DeepMergeDropsUnderPrimitive | app.js:228-236 | when the target holds `null`, a boolean, a number, a string or an array under a key where the source holds an object, the merge keeps only the own properties of the target value there, so the source object is not copied (for `null`, booleans and numbers the entry is `{}`) |
| Utils.ApiHeaders | app.js:248-265 | JSON content type always; with a key, Anthropic gets `x-api-key` and `anthropic-version`, Google gets `x-goog-api-key`, every other provider gets a Bearer `Authorization` |
| Utils.OneCredentialHeader | app.js:248-265 | exactly one credential header is sent with a key, and none without one |
| KeyValueStore.CachedKeyIgnoresStorage | app.js:317-321 | a cached key is answered from the cache, whatever storage holds |
| KeyValueStore.Fetch | app.js:317-337 | `get(key)`: the cached value when there is one; otherwise the parsed stored text, `{}` for `user_info` and `[]` for any other key when it is missing, empty or does not parse, and that value is cached |
| KeyValueStore.Save | app.js:340-351 | `set(key, value)`: when the quota takes the JSON text it is stored and the value cached, and the answer is `true`; otherwise nothing changes and the answer is `false` |
| KeyValueStore.Setting | app.js:454-463 | `getSetting(key, default)`: the default for a missing key, the parsed text when it parses, the raw text otherwise; the cache is not read |
| KeyValueStore.SettingReadsBack | app.js:454-468 | `getSetting` after `saveSetting`: an accepted write reads back as the written-out value, a refused one keeps the previous reading, other keys read as before, and a missing key gives the default |
| KeyValueStore.BackupListOf | app.js:471-473 | `get('backup_list') \|\| []` |
| KeyValueStore.Reseed | app.js:504-517 | `clearCache()`: the cache is the ten placeholders and storage is untouched |
| KeyValueStore.DeleteCloudBackupSpec | app.js:491-501 | remove the snapshot from storage, filter the list by id and save it, then drop the snapshot from the cache; a list that is not an array, or has a `null` element, throws after the removal |
| KeyValueStore.DeleteCloudBackupUnlimited | app.js:491-501 | with a quota that takes every write, the delete completes exactly when the list is an array without `null`, and then storage is the old storage without the snapshot and with the filtered list's text, the cache holds the filtered list and not the snapshot |
| KeyValueStore.DeleteEntrySpec | app.js:3359-3361 | `const x = get(key); delete x[id]; set(key, x)` on the cached value; `null` throws |
| KeyValueStore.RemoveByIdSpec | app.js:3354-3356 | `set(key, get(key).filter(x => x.id !== id))`; anything but an array, or a `null` element, throws |
| KeyValueStore.PlaceholdersShadowStorage | app.js:504-517 | after `clearCache`, `moments`, `comments` and `likes` read as `null` whatever storage holds, and `contacts` reads from storage |
| KeyValueStore.FetchReadsThrough | app.js:323-336 | an uncached key reads as its parsed text, or as `{}` for `user_info` and `[]` otherwise when it is empty or does not parse, and the result is cached |
| KeyValueStore.SavedValueSurvivesReload | app.js:340-351 | what `set` wrote, a new session reads back, except for the named array properties `JSON.stringify` drops |
| KeyValueStore.RefusedSaveKeepsPrevious | app.js:346-349 | a refused `set` changes neither storage nor the cache |
| KeyValueStore.DeleteCloudBackupRemoves | app.js:491-501 | the snapshot key leaves storage and the cache, and a completed run leaves no list entry with that id |
| KeyValueStore.OtherKeysUntouched | app.js:317-351 | `get`, `set` and an in-place edit of one key leave every other key's stored and cached value alone |
| KeyValueStore.EntryEditsKeepOtherKeys | app.js:3358-3365 | the delete-entry and filter-by-id edits write only their own key |
| KeyValueStore.DeleteEntryRemoves | app.js:2655-2657 | a completed `delete x[id]; set` leaves the cached object without the entry and with every other entry |
| KeyValueStore.RemoveByIdRemoves | app.js:2645-2647 | with a quota that takes every write, a completed filter caches exactly the list without the elements of that id, in order, and stores its JSON text |
| KeyValueStore.Store.constructor | app.js:303-314 | the cache starts as the ten placeholders |
| KeyValueStore.Store.Get | app.js:317-337 | `get` returns and caches what `Fetch` says |
| KeyValueStore.Store.Set | app.js:340-351 | `set` writes through, then caches, as `Save` says |
| KeyValueStore.Store.Stage | app.js:2380 | an in-place change of the returned object is a change of the cached value |
| KeyValueStore.Store.ClearCache | app.js:504-517 | the cache is back to the placeholders and storage is untouched |
| KeyValueStore.Store.GetSetting | app.js:454-463 | the result is `Setting` of the state, which `SettingReadsBack` relates to `saveSetting`; neither storage nor the cache changes |
| KeyValueStore.Store.SaveSetting | app.js:466-468 | storage only: the JSON text is written when the quota takes it, and the cache is untouched |
| KeyValueStore.Store.DeleteEntry | app.js:3359-3361 | `const x = get(key); delete x[id]; set(key, x)` as `DeleteEntrySpec` says |
| KeyValueStore.Store.RemoveById | app.js:3354-3356 | `set(key, get(key).filter(…))` as `RemoveByIdSpec` says |
| KeyValueStore.Store.GetBackupList | app.js:471-473 | `get('backup_list') \|\| []` |
| KeyValueStore.Store.DeleteCloudBackup | app.js:491-501 | remove the snapshot, filter the list, save it, drop the cache entry, as `DeleteCloudBackupSpec` says |
| Provider.WithOpt | app.js:822-824 | a property whose value is `undefined` is left out of the object |
| Provider.OrText | app.js:800 | `x \|\| 'fallback'` with a string fallback |
| Provider.MessagesJson | app.js:801 | the messages are sent in order, one object each |
| Provider.FirstSystem | app.js:809 | `find` gives the first system message of the list, and nothing exactly when there is none |
| Provider.Conversation | app.js:810 | `filter` removes every system message and keeps every other message with its multiplicity |
| Provider.ConversationConcat | app.js:810 | filtering a concatenation filters each part, so the conversation keeps the order of the messages |
| Provider.AnthropicMessages | app.js:814-817 | one Anthropic message per conversation message, in order |
| Provider.GoogleContents | app.js:829-832 | one Google content per message, in order |
| Provider.ChatBody | app.js:797-843 | the request body of each provider: model (with its default), messages and `max_tokens`; Anthropic without system messages and with `system` from the first one; Google `contents` and `generationConfig` |
| Provider.BuildChatRequest | app.js:780-861 | a missing key throws first, then a missing endpoint; otherwise a POST with the provider's headers, to the endpoint for every provider but Google |
| Provider.ExtractContent | app.js:864-883 | the reply is read along the provider's path; a `null` response throws; a falsy reply throws `API返回空响应`; a returned reply is truthy |
| Provider.CustomContentNeverEmpty | app.js:873-878 | for a custom provider the chain ends in `JSON.stringify(response)`, so it fails exactly when the response is `null` |
| Provider.SendChatMessage | app.js:780-895 | the two input errors, and any success is the extraction from the network's answer to the built request |
| Provider.AnthropicMessagesRoles | app.js:814-817 | each Anthropic message has role `user` or `assistant` and keeps its content |
| Provider.AnthropicBodyShape | app.js:807-825 | Anthropic gets the conversation without system messages, with `system` present exactly when a system message with content exists |
| Provider.GoogleRequestShape | app.js:827-842 | Google is called at `<endpoint>/<model or gemini-pro>:generateContent` with its key header, and `assistant` becomes `model` |
| Provider.ModelsRequest | app.js:663-693 | an unknown provider throws; otherwise a GET without a body to a non-empty URL |
| Provider.OpenAiModelsUrlFromChatEndpoint | app.js:665 | a trailing `/chat/completions` of the endpoint becomes `/models`; any other endpoint gets `/models` appended |
| Provider.ModelEntry | app.js:702-745 | a kept entry is a model record naming the provider |
| Provider.CollectModels | app.js:704-745 | the kept records in order, each coming from an entry, and a `TypeError` exactly when some entry raises one |
| Provider.ParseModels | app.js:702-754 | the models of a `/models` answer: `data` for OpenAI and Anthropic, `models` for Google, the array or its `data` for a custom provider (else the one default model); a `null` answer or a missing list throws |
| Provider.GoogleModelIdStripped | app.js:723-726 | a fetched Google name `models/<rest>` gives the id `<rest>` |
| Provider.CustomResponseWithoutListGivesDefault | app.js:746-754 | a custom answer with no list gives the one default model |
| Provider.CollectedModelsNameProvider | app.js:702-745 | every kept record names the provider that was asked |
| Provider.FetchModels | app.js:651-756 | it throws exactly when the key is missing; an unknown provider fails; a success is the parse of the network's answer |
| Provider.FetchAvailableModelsSpec | app.js:651-777 | `fetchAvailableModels`: the outcome of the fetch, and on success the list stored under the provider in the available models |
| Provider.FetchedModelsVisibleInSession | app.js:757-760 | after a fetch, the cached model lists hold the new list under the provider |
| Provider.FetchedModelsLostOnReload | app.js:758-760 | on a fresh install the list is a named property of the `[]` default and does not survive a reload |
| Provider.GetActiveModels | app.js:923-935 | the active models are exactly the listed models that pass the filter, unchanged |
| Provider.AddModelsListed | app.js:905-916 | adding an enabled provider's models keeps every entry listed |
| Provider.AddProvidersListed | app.js:904-918 | every entry `getAllModels` adds is a built-in or a custom model of an enabled config |
| Provider.AddProviders | app.js:904-918 | the `Object.entries(customConfigs).forEach` loop: each enabled provider with a truthy list adds one custom model record per listed model; a list that is not an array, or a `null` config or model, throws |
| Provider.GetAllModels | app.js:898-920 | `getAllModels()`: the built-in models, then `AddProviders` over the configs |
| Provider.AddModelsComplete | app.js:906-915 | adding a provider's models keeps every earlier key and adds the key `<provider>:<id>` of every listed model |
| Provider.AddProvidersKeeps | app.js:904-918 | the loop keeps every key that was already there |
| Provider.AddProvidersComplete | app.js:904-918 | an enabled provider named in the loop with a truthy list has an array list, every model of which appears under `<provider>:<id>` |
| Provider.GetAllModelsComplete | app.js:898-920 | with the configs' keys enumerated once each, every built-in model is listed and every model of an enabled provider with a truthy list appears under `<provider>:<id>` |
| Provider.ListedIsActive | app.js:928-930 | a listed model passes the filter of `getActiveModels` |
| Provider.ActiveModelsAreAllModels | app.js:898-935 | `getActiveModels()` is all of `getAllModels()` when both read the same configs |
| Provider.BuiltinsListed | app.js:18-47 | the built-in models are listed whatever the configs |
| Provider.ListedAreActive | app.js:926-932 | a map of listed models is a map of active ones |
| Provider.ApiModule.constructor | app.js:537-541 | the module is bound to the store |
| Provider.ApiModule.FetchAvailableModels | app.js:651-777 | the outcome and the new state are those of `FetchAvailableModelsSpec` |
| Chat.FallbackReply | app.js:2441-2476 | the reply throws exactly when the personality is truthy and not a string; it is the blank-mode reply when the personality is falsy or white space, and the personality reply otherwise |
| Chat.PersonalityOf | app.js:2445 | `!role.personality \|\| role.personality.trim()`: a falsy personality reads as empty, a string as itself, and any other truthy value throws (it has no `trim`) |
| Chat.BlankReplyShape | app.js:2445-2453 | the whole message is quoted; the question clause follows exactly when it asks, the exclamation clause exactly when it exclaims without asking, nothing otherwise |
| Chat.PersonalityReplyStarts | app.js:2456 | a personality reply opens with `作为<name>，` |
| Chat.PersonalityReplyEnds | app.js:2471-2475 | it ends with the personality, cut to 50 characters and `...` when longer |
| Chat.QuotedBounds | app.js:2468 | the quote is the message's first 20 characters, with `...` only when it is longer, so at most 23 characters |
| Chat.SystemPrompt | app.js:2505-2516 | the system message throws exactly when the personality is truthy and not a string; it is the generic prompt for a falsy or blank personality, and otherwise names the role and its setting |
| Chat.LastTen | app.js:2519 | `slice(-10)` is the last `min(10, n)` entries |
| Chat.CustomMessagesShape | app.js:2503-2531 | one system message, the last ten entries as context in order, then the user message: between 2 and 12 messages |
| Chat.ReplyEntry | app.js:2483-2488 | the reply entry is an assistant entry with the reply's content |
| Chat.UserMessageSentTwice | app.js:2383-2396 | after `sendMessage` pushed the message, the list sent to the API ends with that message twice |
| Chat.AvailableModelsOf | app.js:444-446 | `get('available_models') \|\| {}` |
| Chat.ModelKeyFor | app.js:2408 | the contact's applied model when truthy, else the stored selection |
| Chat.ModelKeyFallsBackToSetting | app.js:2408 | a contact without a model uses `gpt-3.5` when no selection is stored, the text of the parsed selection when it parses, and the raw stored text when it does not |
| Chat.ChooseFor | app.js:2418-2424 | the custom API is tried exactly when its config exists, is enabled and has a key |
| Chat.DecideSpec | app.js:2400-2424 | the decision of `generateAIResponse` and the reads it makes: no open chat or no contact gives no reply; a `null` element of the contacts, `null` applied models or a bad catalogue throws; otherwise the template or the custom API, as `DecideForModel` says |
| Chat.DecideKeepsStorage | app.js:2400-2424 | the decision reads through the cache and writes nothing to storage |
| Chat.StringOf | app.js:2534-2538 | the provider name passed on is the model's `provider` when it is a string and empty otherwise |
| Chat.FieldText | app.js:2534-2538 | the key and the endpoint passed on are the config's values as strings, and empty when falsy or missing |
| Chat.CustomReplySpec | app.js:2497-2561 | `generateCustomAIResponse`: read the histories, build the messages, send them, and on success push and save the reply; any failure is reported to the caller |
| Chat.FallbackSpec | app.js:2441-2494 | `addFallbackResponse`: a personality that is truthy and not a string throws; otherwise the reply of `FallbackReply` is pushed onto the contact's history and saved |
| Chat.GenerateSpec | app.js:2400-2438 | `generateAIResponse`: the decision, then the template reply, or the custom API with the template reply when it fails |
| Chat.NonStringPersonalityThrows | app.js:2445 | a contact whose personality is truthy and not a string makes the reply throw whichever way it is answered, and storage is unchanged |
| Chat.CustomReplyNeedsPersonality | app.js:2497-2516 | with a personality that throws, `generateCustomAIResponse` fails after reading the histories, before any request, and writes nothing |
| Chat.SendSpec | app.js:2367-2397 | `sendMessage`: a blank input or no open chat does nothing; otherwise the user message is pushed and saved, then answered |
| Chat.OnlyEnabledCustomModelsCallApi | app.js:2409-2437 | only a custom catalogue model with an enabled keyed config reaches the API, and then with that model |
| Chat.DecisionCases | app.js:2400-2404 | no open chat gives no reply and no change; trying the API needs an open chat |
| Chat.TemplateRepliesIgnoreNetwork | app.js:2412-2437 | a template decision gives the same outcome whatever the network would answer |
| Chat.FallbackAppendsReply | app.js:2478-2490 | a template reply lands at the end of the contact's history with the text of `FallbackReply` |
| Chat.FirstHistoryLostOnReload | app.js:2378-2390 | on a fresh install the first message is seen in the session, and after a reload the histories are `[]` |
| Chat.BlankInputSendsNothing | app.js:2371-2372 | a blank input sends nothing and changes nothing |
| Chat.TogglePinSpec | app.js:2574-2590 | a pinned list that is not an array throws; otherwise the cache holds the toggled list |
| Chat.TogglePinFlips | app.js:2574-2590 | the list holds the id after the toggle exactly when it did not before |
| Chat.TogglePinTwiceRestores | app.js:2574-2590 | pinning and unpinning an unpinned contact leaves the cached list as it was |
| Chat.TogglePinCaches | app.js:2574-2589 | after a toggle, `get` sees the toggled list, whether or not the save went through |
| Chat.UnpinKeepsOthers | app.js:2650-2652 | the unpin step writes only the pinned list |
| Chat.DeleteContactKeepsOtherKeys | app.js:2639-2670 | deleting a contact touches only the contacts, the pins and the histories |
| Chat.DeleteContactSpec | app.js:2639-2670 | `deleteContact`: unconfirmed does nothing; otherwise the contact is filtered out, unpinned, its history deleted, and its chat closed when it was open, each step throwing on a badly shaped value |
| Chat.UnpinRemoves | app.js:2650-2652 | a completed unpin caches the pinned list without any occurrence of the contact, every other pin kept in order |
| Chat.DeleteContactCascade | app.js:2639-2670 | a completed confirmed delete caches the contact list without that id and the pinned list without it, in order, leaves no history under it, and closes its chat |
| Chat.EditChangesOneMessage | app.js:2349-2359 | an edit changes only the found message, whose content becomes the new text and which is marked edited |
| Chat.NoEditWithoutChange | app.js:2340-2341 | a cancelled, blank or unchanged edit changes nothing |
| Chat.EditSpec | app.js:2339-2364 | `editMessage`: a cancelled, blank or unchanged prompt does nothing; otherwise the found message gets the trimmed text, `edited` and `editTime`, and the histories are saved; a `null` history throws |
| Chat.ChatModule.constructor | app.js:2016-2019 | no chat is open |
| Chat.ChatModule.AppendEntry | app.js:2482-2490 | push onto the contact's history and save, as `AppendEntrySpec` says |
| Chat.ChatModule.AddFallbackResponse | app.js:2441-2494 | as `FallbackSpec` says |
| Chat.ChatModule.CustomConfigs | app.js:434-436 | `get('custom_api_configs') \|\| {}` |
| Chat.ChatModule.Decide | app.js:2400-2424 | the decision of `generateAIResponse` and the reads it makes, as `DecideSpec` says |
| Chat.ChatModule.DecideModel | app.js:2410-2424 | the decision once the model is known, as `DecideForModel` says |
| Chat.ChatModule.GenerateCustomAIResponse | app.js:2497-2561 | as `CustomReplySpec` says |
| Chat.ChatModule.Answer | app.js:2500-2561 | as `ReplyFrom` says |
| Chat.ChatModule.StoreReply | app.js:2542-2560 | as `ReplyWith` says |
| Chat.ChatModule.GenerateAIResponse | app.js:2400-2438 | as `GenerateSpec` says |
| Chat.ChatModule.SendMessage | app.js:2367-2397 | as `SendSpec` says |
| Chat.ChatModule.PushEntry | app.js:2378-2390 | as `PushUserMessage` says |
| Chat.ChatModule.TogglePinContact | app.js:2574-2590 | as `TogglePinSpec` says |
| Chat.ChatModule.DeleteContact | app.js:2639-2670 | the state and the open chat as `DeleteContactSpec` says |
| Chat.ChatModule.Unpin | app.js:2650-2652 | as `UnpinStep` says |
| Chat.ChatModule.EditMessage | app.js:2339-2364 | as `EditSpec` says |
| Moments.UserIdOf | app.js:3072-3073 | `userInfo.userId \|\| 'currentUser'`, and a `null` user info throws |
| Moments.ToggleLikeSpec | app.js:3066-3109 | `null` likes throw before anything changes |
| Moments.ToggledLikesFlips | app.js:3066-3108 | the toggle flips whether the user likes the moment, keeps it at most once, and leaves the other moments' entries |
| Moments.ToggledLikesOnArray | app.js:3074-3105 | an array entry is rewritten alone |
| Moments.ToggledLikesTwiceRestores | app.js:3066-3108 | liking and unliking gives the likes object back |
| Moments.ToggleLikeOutcome | app.js:3066-3109 | a toggle completes exactly when the likes, the user info and the entry allow it, and the cache then holds the toggled object |
| Moments.ToggleLikeTwiceRestores | app.js:3066-3109 | liking and unliking leaves the cached likes as they were, whatever the quota decided |
| Moments.ToggleLikeThrowsAfterClear | app.js:3067-3068 | right after `clearCache` a toggle throws |
| Moments.BlankCommentSendsNothing | app.js:3211-3219 | a blank comment, or no open moment, changes nothing |
| Moments.SendCommentAppends | app.js:3211-3236 | a comment lands at the end of the moment's comment list in the cache |
| Moments.SendCommentSpec | app.js:3211-3246 | `sendComment`: a blank comment or no open moment does nothing; `null` comments or user info throw; otherwise the comment is pushed onto the moment's list and saved |
| Moments.MomentKey | app.js:3274 | with no open moment the key read is the text `null` |
| Moments.CommentsWithout | app.js:3273-3276 | a `null` comments object throws |
| Moments.CommentsWithoutRemoves | app.js:3273-3276 | the moment's list becomes exactly the comments of another id in their order (`[]` for a falsy list), the other lists are kept, and it throws exactly when the list is truthy and not an array of non-`null` items |
| Moments.DeleteAbsentCommentKeepsList | app.js:3274-3276 | a list with no comment of that id is kept |
| Moments.DeleteCommentSpec | app.js:3270-3281 | `deleteComment`: unconfirmed does nothing; otherwise the moment's list is filtered by the comment id and saved |
| Moments.DeleteMomentSpec | app.js:3351-3370 | an unconfirmed delete changes nothing |
| Moments.DeleteMomentKeepsOtherKeys | app.js:3351-3370 | deleting a moment touches only `moments`, `likes` and `comments` |
| Moments.DeleteMomentCascade | app.js:3351-3365 | a completed confirmed delete caches the moment list without that id, in order, and no likes or comments entry for it |
| Moments.DeleteMomentThrowsAfterClear | app.js:3354-3355 | right after `clearCache` a confirmed delete throws and writes nothing |
| Moments.MomentsModule.constructor | app.js:2924-2928 | no moment is open |
| Moments.MomentsModule.ToggleLike | app.js:3066-3109 | as `ToggleLikeSpec` says |
| Moments.MomentsModule.SendComment | app.js:3211-3246 | as `SendCommentSpec` says |
| Moments.MomentsModule.DeleteComment | app.js:3270-3281 | as `DeleteCommentSpec` says |
| Moments.MomentsModule.DeleteMoment | app.js:3351-3370 | as `DeleteMomentSpec` says |
| Backup.Dump | app.js:1672-1686 | the dump has exactly the keys of storage |
| Backup.CollectAll | app.js:1676-1683 | the loop over `localStorage.key(i)` collects the dump of every key, whatever the order |
| Backup.Writes | app.js:1805-1811 | one write per key, in order, with the key's encoded value |
| Json.Enumerates | app.js:1805 | `Object.keys` lists each key once |
| Backup.WriteEntries | app.js:1805-1811 | the write loop is the run of writes that stops at the first refused one |
| Backup.WritesKeys | app.js:1805-1811 | the writes over the keys of the data write exactly those keys |
| Backup.RestoreWritesData | app.js:1800-1811 | restoring into empty storage under an unlimited quota leaves exactly the data's keys, each holding its encoding |
| Backup.ReloadsAs | app.js:1806-1810 | how a restored text reads compared with the dumped one |
| Backup.DumpedValueRestores | app.js:1672-1686 | a dumped value, written back with either encoding, reloads as its old text |
| Backup.StringValueLosesQuotes | app.js:1809 | a JSON string value is written back without its quotes |
| Backup.LocalBackupInfo | app.js:1738-1744 | the `_backup_info` record is an object |
| Backup.LocalBackupFile | app.js:1733-1749 | the file holds every stored key with its dumped value, plus `_backup_info` |
| Backup.RestoreLocalNeedsMarker | app.js:1777-1799 | nothing is written unless the file parses, has a truthy `_backup_info` and is confirmed |
| Backup.RestoreLocalSpec | app.js:1766-1828 | `restoreFromLocalBackup`: a file that does not parse or lacks `_backup_info`, or an unconfirmed restore, changes nothing; otherwise storage is cleared, the cache reseeded, and every other key written back, stopping at a refused write |
| Backup.MarkedObjectPersisted | app.js:1746-1749 | written out, the marked object carries `_backup_info`, and without it is the dump written out |
| Backup.RestoreLocalWritesFile | app.js:1799-1811 | a confirmed restore leaves exactly the file's other keys, each holding its encoding, and the placeholder cache |
| Backup.LocalBackupRoundTrip | app.js:1733-1811 | restoring the file a local backup produced gives back every stored key, each reloading as its old text |
| Backup.RingShape | app.js:1856-1864 | the new entry first, then the old ones in order; one entry is evicted exactly when the old list held ten or more, and it is the old last one |
| Backup.RingStep | app.js:1856-1866 | a list that is not an array throws |
| Backup.IdText | app.js:1863 | the evicted entry's id when it is a string |
| Backup.SnapshotKeysDistinct | app.js:482 | snapshot keys are equal only for equal ids, and none is `backup_list` |
| Backup.RingStepKeepsRing | app.js:1856-1866 | a completed update leaves the kept ring as the cached list |
| Backup.RingStepDeletesEvicted | app.js:1860-1864 | the evicted entry's snapshot is in neither storage nor the cache |
| Backup.RingStepKeepsOtherSnapshots | app.js:1856-1866 | no snapshot but the evicted one is touched |
| Backup.CloudDeleteKeepsOthers | app.js:491-501 | deleting a cloud backup touches no other snapshot |
| Backup.CreateCloudBackupSpec | app.js:1831-1874 | `createCloudBackup`: a cancelled prompt does nothing; otherwise the dump is saved as a snapshot and the new entry goes through the ring of ten |
| Backup.MissingSnapshotClearsStorage | app.js:1877-1911 | a confirmed restore of a missing snapshot clears storage and writes nothing back |
| Backup.RestoreCloudSpec | app.js:1877-1920 | `restoreFromCloudBackup`: unconfirmed does nothing; otherwise storage is cleared, the cache reseeded, and the snapshot's keys written back, a missing snapshot writing none |
| Backup.CloudBackupRoundTrip | app.js:1831-1911 | restoring a cloud backup made in the session gives back every key stored at the time, each reloading as its old text |
| Backup.BackupModule.constructor | app.js:1519-1522 | the module is bound to the store |
| Backup.BackupModule.GetAllData | app.js:1672-1686 | the dump of storage with `ParseOrRaw` |
| Backup.BackupModule.CreateLocalBackup | app.js:1733-1749 | the downloaded document is `LocalBackupFile` |
| Backup.BackupModule.RestoreFromLocalBackup | app.js:1766-1828 | as `RestoreLocalSpec` says |
| Backup.BackupModule.CreateCloudBackup | app.js:1831-1874 | as `CreateCloudBackupSpec` says |
| Backup.BackupModule.UpdateRing | app.js:1856-1866 | as `RingStep` says |
| Backup.BackupModule.RestoreFromCloudBackup | app.js:1877-1920 | as `RestoreCloudSpec` says |
| DevTools.ExportDocument | dev-tools.js:218-229 | the exported document has every stored key, parsed or kept raw |
| DevTools.ImportDataNeedsConfirmation | dev-tools.js:254-272 | storage is kept unless the text parses to a non-`null` value and the import is confirmed, and is rewritten whenever it is |
| DevTools.ImportDataSpec | dev-tools.js:244-280 | `importData`: a text that does not parse, `null`, or an unconfirmed import changes nothing; otherwise storage is cleared and every own property written back, objects and `null` as JSON text, stopping at a refused write |
| DevTools.ImportDataWritesFile | dev-tools.js:257-268 | a confirmed import leaves exactly the file's own properties, each holding its encoding |
| DevTools.StringPropsEncode | dev-tools.js:262-268 | the own properties of a string are its characters under the index names, and each is written back as the character itself |
| DevTools.ImportedStringSplitsIntoCharacters | dev-tools.js:262-268 | a confirmed import of a file holding a JSON string leaves exactly the keys `"0"`, `"1"`, …, one per character, key `i` holding the `i`-th character |
| DevTools.ExportImportRoundTrip | dev-tools.js:218-268 | exporting and importing gives back every stored key, each reloading as its old text |
| DevTools.BackupVersion | dev-tools.js:293 | the stored `quq_version` when non-empty, else `1.0.0` |
| DevTools.BackupEnvelope | dev-tools.js:285-312 | the envelope has timestamp, version, app name and the dump with empty texts as `null` |
| DevTools.VersionWrite | dev-tools.js:410-412 | `quq_version` is written exactly when the file's version is truthy |
| DevTools.ImportBackupNeedsEnvelope | dev-tools.js:383-398 | storage is kept unless the file passes the format check and the import is confirmed, and is rewritten whenever it is |
| DevTools.ImportBackupSpec | dev-tools.js:373-450 | `importBackup`: a file that fails the format check, or an unconfirmed import, changes nothing; otherwise storage is cleared, the entries of `data` written back, then `quq_version` when the version is truthy |
| DevTools.EntriesThenKeys | dev-tools.js:401-412 | the entry writes plus the version write cover the data's keys and the written version key |
| DevTools.EntriesThenWrite | dev-tools.js:401-412 | every write goes through; the version write wins over an entry of that name; every other entry holds its encoding |
| DevTools.ImportBackupWritesData | dev-tools.js:396-412 | a confirmed import leaves the keys of `data`, plus `quq_version` when the version is truthy, overriding an entry of that name |
| DevTools.PersistedEnvelope | dev-tools.js:318 | the written-out envelope keeps its timestamp, version and dump |
| DevTools.EnvelopeReadsBack | dev-tools.js:318-389 | the written-out envelope passes the format check and carries the dump and the version |
| DevTools.CreateImportRoundTrip | dev-tools.js:285-412 | creating and importing a backup gives back every key plus `quq_version`; an empty text comes back as `null` and any other reloads as its old text |
| DevTools.BackupValueReloads | dev-tools.js:308 | an empty text comes back as `null`, any other reloads as its old text |
| DevTools.DevPanel.constructor | dev-tools.js:2 | the panel is bound to the storage and the codec |
| DevTools.DevPanel.ExportAllData | dev-tools.js:218-229 | the document is `ExportDocument` |
| DevTools.DevPanel.ImportData | dev-tools.js:244-280 | as `ImportDataSpec` says |
| DevTools.DevPanel.CreateBackup | dev-tools.js:285-318 | the envelope is `BackupEnvelope` |
| DevTools.DevPanel.ImportBackup | dev-tools.js:373-450 | as `ImportBackupSpec` says |

## Left out

- Numbers are integers: temperature `0.7`, `model.created * 1000`, `(size / 1024).toFixed(2)` and other floating-point values are left out or kept abstract.
- `JSON.parse`/`JSON.stringify` are an abstract codec. Pretty-printing (`JSON.stringify(v, null, 2)`) and the compact form are the same codec, and the sizes they measure are kept abstract.
- The key order of `Object.keys`, `Object.entries` and `localStorage.key(i)` is a parameter (`order`). Array-index properties of objects (`"0"`, `"1"`, …) are not given JavaScript's numeric-first order.
- Object identity is not modelled. An object `get` returned and then changed in place is modelled as a new cached value (`Store.Stage`). `ApiModule.currentApiConfig`, which `init` fills with the cached object, is read as `get('custom_api_configs') || {}`.
- Strings are sequences of characters with no UTF-16 code units. `toLowerCase` is left out, because the keywords it is used on are Chinese and have no case.
- The DOM, toasts, modals, `alert`, `location.reload`, timers, file pickers, `FileReader` and downloads are left out. Their results enter as parameters: the file's text, the answer of `confirm`/`prompt`, ids from `generateId`, `Date.now()`, and the texts of `formatDate`, `toLocaleString` and `toISOString`.
- `sendApiRequest` is the `Network` parameter (answer or error). Its HTTP status handling is not modelled.
- `testApiConnection`, `saveApiConfig`, `openApiConfig`, the settings and profile screens, `loadChatList` rendering, `editComment`, `editMoment`, `addMoment`, `downloadCloudBackup`, and the other developer-panel tools (`clearAllData`, `generateTestData`, `setupAutoBackup`, the performance monitor, statistics) are not part of this model.
- `async` ordering is left out: each operation runs to completion before the next starts.
- `currentRoleId` and `currentMomentId` are `Option<string>`. An empty-string id, which JavaScript treats as no open chat, is treated as open.
- An evicted cloud backup whose `id` is not a string is modelled as a throw, not as `cloud_backup_<String(id)>` (`Backup.IdText`).
- `createBackup`'s `catch` (returning `false`) is not modelled, because none of the modelled steps throws. The download of the text is left out.
- `DevTools.DevPanel` works on `localStorage` directly. It does not clear the app's cache, and the page reload after an import is left to the caller.
- DeepMerge: `key in target` also holds for names the target inherits (`constructor`, `toString`, …). The model checks own properties only, so a source object under such a name is copied, where the code merges it into the inherited function and gets `{}`.
- FieldText: a truthy array whose `String` is empty (`[]`, `[null]`) as the API key or the endpoint is read as missing, so it gives the missing-key or missing-endpoint error; the code sees a truthy value and goes on to send the request.
