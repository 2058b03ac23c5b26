# Home Assistant API limiter, modelled in Dafny

The limiter is a proxy that sits in front of a Home Assistant instance. It
can run in one of two modes:

- **Learn mode.** It records the REST endpoints and entity ids that clients
  use into a whitelist, and saves that whitelist periodically.
- **Limit mode.** It refuses every REST request whose endpoint template or
  entity is not whitelisted. It also screens the Home Assistant WebSocket
  API in both directions. Client messages of dangerous types, services and
  targets are refused with an error object. Server results and events
  about entities, devices and areas outside the whitelist are filtered out.

This project models the decision logic of that proxy and proves properties
of it. The modules follow the program's files:

| module | models | form |
|---|---|---|
| `Json` | decoded JSON values, `dict.get`, truthiness, hashability, `str()` | datatypes and functions |
| `Strings`, `Glob` | character classes, Python's `$`, ordering of `str`, `fnmatch` with `*` and `?` | functions and lemmas |
| `Template`, `TemplateExamples`, `PathShapes`, `LearnedTemplates` | endpoint templates and the matching they are meant to have | functions and lemmas |
| `TemplateRegex` | the regular expression config.py builds from a template, step by step: `re.escape`, the placeholder substitution, the `\*` replacement, and a matcher for the resulting regex | functions and lemmas |
| `Config` | `WhitelistConfig` (config.py) | a class whose methods update its lists |
| `Limiter` | `Limiter.check_request` (limiter.py) | a decision function and a class |
| `Learner` | `Learner` (learner.py) | pure normalisation and extraction, a class for the learning state |
| `WsRules`, `WsClient`, `WsServer` | the tables and decisions of ws_filter.py | functions and lemmas |
| `WsFilter` | `WebSocketFilter` (ws_filter.py) | a class whose methods update the tracked requests and subscriptions, each proved against the functions above |
| `Proxy` | the header filter and URL helpers of proxy.py | functions and lemmas |

Python semantics the model spells out:

- Python's `$` also accepts the position before one final newline (`Strings.DollarBody`).
- `fnmatch` is modelled with `*` and `?`.
- A JSON object is a list of (key, value) pairs in insertion order. A decoded object is taken to have distinct keys, as `json.loads` produces (it keeps the last of duplicate keys). `Json.Get` returns the value of the first pair with the key, which is `dict.get` on such an object.
- The identity test `result is not msg` in ws_filter.py becomes an explicit outcome: `Keep`, `Replace(message)` or `Drop`.
- Raw WebSocket text is given already decoded, with `None` standing for text that is not JSON.
- The YAML file is an abstract record, passed in to the loader and returned by the saver.

ws_filter.py reads `areas`, `allowed_ws_types`, `allowed_event_types`
and `allowed_services` from the whitelist, and calls `is_device_allowed`
and `is_area_allowed` on it. config.py as it stands defines none of these.
The model adds to `WhitelistConfig` the lists `devices`, `areas`,
`allowed_ws_types`, `allowed_event_types` and `allowed_services`, which
start empty and which only the WebSocket filter uses. `IsDeviceAllowed`
and `IsAreaAllowed` are the same `fnmatch` loop as `is_entity_allowed`,
over the `devices` and `areas` lists.

## Model

| member | source | states |
|---|---|---|
| Glob.LiteralMatchesOnlyItself | ha_api_limiter/config.py:96-101 | a pattern without wildcards matches exactly the string equal to it |
| Glob.StarMatchesEverything | ha_api_limiter/config.py:96-101 | the pattern `*` admits every id |
| Glob.PrefixWildcardMatchesPrefix | ha_api_limiter/config.py:96-101 | `light.*` style patterns admit exactly the ids that start with the literal prefix |
| Glob.MatchesAny | ha_api_limiter/config.py:96-101 | the loop over the patterns returns true exactly when some pattern matches the id |
| Glob.DomainWildcardExample | ha_api_limiter/config.py:96-101 | `light.*` admits `light.bedroom` |
| Glob.PartialWildcardExample | ha_api_limiter/config.py:96-101 | `sensor.weather_*` refuses `sensor.humidity` |
| Template.ParamNeedsBracePair | ha_api_limiter/config.py:70 | a template with a placeholder contains a `{` followed later by a `}` |
| Template.ParamRunHasNoSlash | ha_api_limiter/config.py:70 | under the intended compilation, a placeholder never takes a `/` |
| Template.PrefixParamRefusesSlash | ha_api_limiter/config.py:69-71 | a plain prefix followed by one placeholder refuses the prefix followed by a single-line run that holds a `/` |
| Template.PrefixParamAdmits | ha_api_limiter/config.py:69-71 | under the intended compilation, a plain prefix followed by one placeholder admits the prefix followed by any non-empty run without `/`, newlines included |
| Template.TemplateMatchesOwnText | ha_api_limiter/config.py:69-71 | under the intended compilation, a template admits its own text when no `{` has a `/` before the next `}` |
| TemplateRegex.SubstituteWithoutPair | ha_api_limiter/config.py:70 | on an escaped template with no `{` followed later by a `}`, the placeholder substitution changes nothing |
| TemplateRegex.SubstituteWithPair | ha_api_limiter/config.py:70 | on an escaped template with such a pair, the substitution leaves the escaping `\` in front of `[^/]+` |
| TemplateRegex.ReplaceOfEscape | ha_api_limiter/config.py:70-71 | after escaping, the `\*` replacement turns each `*` of the template into `.*` and leaves every other character escaped |
| TemplateRegex.ParseUnits | ha_api_limiter/config.py:71 | the regex text of an escaped template reads back as one literal per character and one any-run per `*` |
| TemplateRegex.StartAfterLitNeverMatches | ha_api_limiter/config.py:70-71 | a regex with a `^` anchor right after a literal matches no text |
| TemplateRegex.BracePairMatchesNothingAsWritten | ha_api_limiter/config.py:69-71 | a template with a `{` followed later by a `}` compiles to a regex that matches no path |
| TemplateRegex.AsWrittenAgreesWithoutBracePair | ha_api_limiter/config.py:69-71 | a template without such a pair admits, as compiled, exactly the paths the intended matcher admits |
| TemplateRegex.MatchesAsWrittenCharacterized | ha_api_limiter/config.py:69-71 | the compiled regex admits a path exactly when the template has no `{`...`}` pair and the intended matcher admits it |
| TemplateRegex.PlaceholderTemplateMatchesNothingAsWritten | ha_api_limiter/config.py:70 | a template with a placeholder compiles to a regex that matches no path |
| Template.LiteralTemplateMatchesItself | ha_api_limiter/config.py:65-72 | a template without `{`, `}` or `*` admits exactly itself, or itself followed by one newline |
| Template.PrefixStarMatchesPrefix | ha_api_limiter/config.py:71-72 | `prefix*` admits exactly the single-line paths that start with the prefix |
| Template.StarMatchesLine | ha_api_limiter/config.py:71 | `.*` matches exactly the texts without a newline |
| Template.TokenizeRender | ha_api_limiter/config.py:70-71 | a template built from fixed segments and placeholders compiles to one token group per segment |
| Template.SegmentwiseMatching | ha_api_limiter/config.py:65-72 | with placeholders read as `[^/]+`, a segment template admits a slash-separated path exactly when each fixed segment equals its part and each placeholder faces a non-empty part |
| TemplateExamples.ServiceTemplateAdmitsServiceCall | ha_api_limiter/config.py:65-72 | `/api/services/{domain}/{service}` admits `/api/services/light/turn_on` under the intended compilation |
| TemplateExamples.ServiceTemplateRejectsConfig | ha_api_limiter/config.py:65-72 | the same template refuses `/api/config` |
| TemplateExamples.ServiceTemplateAsWrittenRejectsServiceCall | ha_api_limiter/config.py:70 | as written, the same template refuses `/api/services/light/turn_on` |
| Config.WithAdded | ha_api_limiter/config.py:74-87 | adding to a list extends it, the element set gains exactly the new element, and the list stays free of new duplicates |
| Config.WithAddedIdempotent | ha_api_limiter/config.py:76-84 | adding the same item twice is adding it once |
| Config.Record | ha_api_limiter/config.py:56-59 | the saved document holds both lists strictly sorted, with the same elements as the lists |
| Config.SaveLoadRoundTrip | ha_api_limiter/config.py:44-59 | loading a saved document gives back the same elements, and saving the loaded lists gives the same document |
| Config.EmptyDocumentLoadsEmpty | ha_api_limiter/config.py:46-48 | an empty document loads as two empty lists |
| Config.WhitelistConfig.constructor | ha_api_limiter/config.py:36-40 | a new whitelist holds the path and empty lists |
| Config.WhitelistConfig.Load | ha_api_limiter/config.py:42-49 | with a path and an existing file, the lists are the file's lists (missing keys give empty lists) and the matchers are recompiled; otherwise nothing changes |
| Config.WhitelistConfig.SaveRecord | ha_api_limiter/config.py:51-59 | nothing is written without a path; otherwise the record is the sorted, de-duplicated lists |
| Config.WhitelistConfig.CompileEndpointPatterns | ha_api_limiter/config.py:65-72 | afterwards there is one compiled matcher per template, in order, and no list changes |
| Config.WhitelistConfig.AddEndpoint | ha_api_limiter/config.py:74-80 | returns true exactly when the template was new; the template is appended and the matchers recompiled, and nothing else changes |
| Config.WhitelistConfig.AddEntity | ha_api_limiter/config.py:82-87 | returns true exactly when the pattern was new; the pattern is appended and nothing else changes |
| Config.WhitelistConfig.IsEndpointAllowed | ha_api_limiter/config.py:89-94 | true exactly when some compiled matcher admits the path, which for compiled lists is some template admitting it under the intended compilation (see ## Findings) |
| Config.WhitelistConfig.IsEntityAllowed | ha_api_limiter/config.py:96-101 | true exactly when some entity pattern matches the id |
| Config.WhitelistConfig.IsDeviceAllowed | ha_api_limiter/ws_filter.py:369 | true exactly when some device pattern matches the id |
| Config.WhitelistConfig.IsAreaAllowed | ha_api_limiter/ws_filter.py:380 | true exactly when some area pattern matches the id |
| Config.WhitelistConfig.ToDict | ha_api_limiter/config.py:103-108 | the record holds the current lists unchanged |
| PathShapes.EntityAfter | ha_api_limiter/limiter.py:29-34 | a result is an entity id, and the path is the prefix followed by it, possibly with one final newline |
| PathShapes.EntityAfterComplete | ha_api_limiter/limiter.py:29-34 | every entity id after the prefix is found, with or without a final newline |
| PathShapes.ServicePathComplete | ha_api_limiter/learner.py:42 | `/api/services/<d>/<s>` with `[a-z_]+` parts has the service-call shape |
| Limiter.ExtractEntityFromPath | ha_api_limiter/limiter.py:26-38 | a result is an entity id that the path names after `/api/states/` or `/api/camera_proxy/` |
| Limiter.ExtractEntityComplete | ha_api_limiter/limiter.py:26-38 | the entity of every states or camera path is extracted |
| Limiter.CameraPathIsNoStatesPath | ha_api_limiter/limiter.py:29-36 | a camera path never has the states shape, so the second regex decides it |
| Limiter.DecisionCharacterized | ha_api_limiter/limiter.py:40-73 | `Limiter.Decide` (the model of `check_request`): a request is allowed exactly when it is `/health`, or its endpoint is whitelisted (under the intended compilation, see ## Findings) and its extracted entity, if any, matches an entity pattern |
| Limiter.HealthAlwaysAllowed | ha_api_limiter/limiter.py:51-53 | `/health` is allowed whatever the whitelist, with reason "Health check endpoint" |
| Limiter.UnlistedEndpointRefused | ha_api_limiter/limiter.py:55-61 | an unlisted endpoint is refused with "Endpoint not in whitelist: " and the path, whatever the entity patterns |
| Limiter.UnlistedEntityRefused | ha_api_limiter/limiter.py:63-71 | a listed endpoint naming an unlisted entity is refused with "Entity not in whitelist: " and the entity |
| Limiter.StatesRequestFollowsEntityPatterns | ha_api_limiter/limiter.py:55-73 | with the states template whitelisted, `/api/states/<e>` is allowed exactly when `e` matches an entity pattern, under the intended compilation (see ## Findings) |
| Limiter.Limiter.constructor | ha_api_limiter/limiter.py:23-24 | the limiter holds the given whitelist |
| Limiter.Limiter.CheckRequest | ha_api_limiter/limiter.py:40-73 | the result is the decision for the current whitelist, under the intended compilation (see ## Findings); the HTTP method is ignored |
| Learner.NormalizeCases | ha_api_limiter/learner.py:29-58 | `Learner.NormalizeEndpoint` (the model of `_normalize_endpoint`) gives the path itself or one of the five templates |
| Learner.NormalizeIdempotent | ha_api_limiter/learner.py:29-58 | normalising a normalised path changes nothing |
| Learner.NormalizeStatesPath | ha_api_limiter/learner.py:38-39 | every `/api/states/<entity id>` becomes `/api/states/{entity_id}` |
| Learner.NormalizeServicePath | ha_api_limiter/learner.py:42-44 | every `/api/services/<d>/<s>` becomes `/api/services/{domain}/{service}` |
| Learner.NormalizeCameraPath | ha_api_limiter/learner.py:47-48 | every `/api/camera_proxy/<entity id>` becomes `/api/camera_proxy/{entity_id}` |
| Learner.NormalizeDatedPaths | ha_api_limiter/learner.py:51-56 | history and logbook paths that start with a `dddd-dd-dd` date become their timestamp templates |
| Learner.UnshapedPathIsKept | ha_api_limiter/learner.py:58 | a path of none of the five shapes is learned unchanged |
| Learner.BracedPathIsKept | ha_api_limiter/learner.py:38-58 | a path containing `{` that is not a dated path is learned unchanged |
| Learner.TwoStatePathsOneTemplate | ha_api_limiter/learner.py:95-96 | learning two states paths adds the one states template once |
| Learner.LearnedTemplateAdmitsPath | ha_api_limiter/learner.py:29-58 | under the intended compilation, the template learned from a path admits that path, for every path in which no `{` has a `/` before the first `}` after it, and with no `/` after a date prefix |
| Learner.BracedSlashPathRefused | ha_api_limiter/learner.py:58 | the first condition is needed: `/{a/b}` is learned unchanged and its template refuses it |
| Learner.DatedSlashPathRefused | ha_api_limiter/learner.py:51-56 | the second condition is needed: a dated history or logbook path with a further `/` is refused by the template learned from it |
| LearnedTemplates.StatesTemplateAdmits | ha_api_limiter/learner.py:38-39 | `/api/states/{entity_id}` admits `/api/states/<x>` for every non-empty segment `x` without `/` or newline |
| LearnedTemplates.ServicesTemplateAdmits | ha_api_limiter/learner.py:42-44 | `/api/services/{domain}/{service}` admits `/api/services/<x>/<y>` for every two such segments |
| LearnedTemplates.CameraTemplateAdmits | ha_api_limiter/learner.py:47-48 | `/api/camera_proxy/{entity_id}` admits `/api/camera_proxy/<x>` for every such segment |
| LearnedTemplates.HistoryTemplateAdmits | ha_api_limiter/learner.py:51-52 | `/api/history/period/{timestamp}` admits `/api/history/period/<x>` for every such segment |
| LearnedTemplates.LogbookTemplateAdmits | ha_api_limiter/learner.py:55-56 | `/api/logbook/{timestamp}` admits `/api/logbook/<x>` for every such segment |
| Learner.LearnedStatesTemplateRefusedAsWritten | ha_api_limiter/learner.py:38-39 | as written, the template learned from a states path refuses that same path |
| Learner.HistoryEntity | ha_api_limiter/learner.py:17 | a result is an entity id that follows `entity_id=` after the `?` of a history path |
| Learner.HistoryQueryYieldsEntity | ha_api_limiter/learner.py:17 | `/api/history/period/<t>?entity_id=<e>` yields `e` |
| Learner.ExtractEntityFromPath | ha_api_limiter/learner.py:60-66 | a result is an entity id |
| Learner.ExtractedEntitySource | ha_api_limiter/learner.py:60-66 | an entity extracted by `Learner.ExtractEntityFromPath` comes from the states shape or from the history query |
| Learner.ExtractFromStatePath | ha_api_limiter/learner.py:60-66 | the entity of every states path is extracted |
| Learner.NoEntityFromCameraPath | ha_api_limiter/learner.py:15-18 | unlike the limiter, the learner extracts nothing from a camera path |
| Learner.EntitiesHaveDots | ha_api_limiter/learner.py:68-87 | every id found in a response contains a `.` |
| Learner.NestedIdsAreFound | ha_api_limiter/learner.py:81-87 | the ids of every nested value or list item are among the ids found |
| Learner.DirectIdIsFound | ha_api_limiter/learner.py:72-75 | a string `entity_id` field with a dot is found |
| Learner.AddDirectIds | ha_api_limiter/learner.py:70-79 | the loop over an object's own `entity_id` adds to the set exactly its dotted string id, or the dotted string members of its list |
| Learner.ExtractEntitiesFromJson | ha_api_limiter/learner.py:68-87 | the walk adds exactly the ids of the value to the set it was given |
| Learner.SavesEveryInterval | ha_api_limiter/learner.py:122-127 | after `n` calls from zero the counter is `n mod interval` and `n div interval` saves happened |
| Learner.ThirdCallSaves | ha_api_limiter/learner.py:122-127 | with interval 3, two calls do not save and the third does |
| Learner.Learner.constructor | ha_api_limiter/learner.py:24-27 | a new learner has count 0 and interval 10 |
| Learner.Learner.LearnFromRequest | ha_api_limiter/learner.py:89-102 | the normalised endpoint is added, the extracted entity (if any) is added, and the compiled matchers stay valid |
| Learner.Learner.LearnFromResponse | ha_api_limiter/learner.py:104-120 | without a JSON content type or a decodable body nothing changes; otherwise every id found is added, and endpoints are untouched |
| Learner.Learner.MaybeSave | ha_api_limiter/learner.py:122-127 | the counter steps and wraps at the interval, a save happens exactly at the wrap, and the counter stays below the interval |
| Learner.Learner.Save | ha_api_limiter/learner.py:129-135 | the record written is the whitelist's save record |
| WsRules.BlockedPatternsSpelledOut | ha_api_limiter/ws_filter.py:53-64 | a type matches a blocked pattern exactly when it starts with one of the listed prefixes or is `auth/sign_path`, possibly with one final newline |
| WsRules.AllowedTypesMatchNoPattern | ha_api_limiter/ws_filter.py:53-71 | no built-in allowed type matches a blocked pattern |
| WsRules.MessageTypeBlockedIff | ha_api_limiter/ws_filter.py:229-244 | a type is blocked exactly when no override allows it and it is in the block list or matches a blocked pattern |
| WsRules.SignPathIsExact | ha_api_limiter/ws_filter.py:53-64 | `auth/sign_path` is blocked, but a longer type starting with it is not blocked by that pattern |
| WsRules.ServiceOverrideWins | ha_api_limiter/ws_filter.py:212-221 | an allowed `domain.service` or `domain.*` override unblocks the service |
| WsRules.ServiceBlockedWithoutOverride | ha_api_limiter/ws_filter.py:212-227 | `WsRules.IsServiceBlocked`: without an override a service is blocked exactly when its pair or its domain wildcard is in the block table |
| WsRules.WildcardDomainBlocksEveryService | ha_api_limiter/ws_filter.py:73-117 | every service of `shell_command`, `python_script`, `pyscript`, `rest_command` and `notify` is blocked unless overridden |
| WsRules.NonStringServiceNeverTableBlocked | ha_api_limiter/ws_filter.py:222-227 | a non-string domain never hits the block table |
| WsRules.ErrorResponse | ha_api_limiter/ws_filter.py:256-268 | the error object carries the request id, type `result`, success false, and code `not_allowed` with the message |
| WsClient.StrMembersExact | ha_api_limiter/ws_filter.py:193-208 | the ids taken from a list are exactly its string members |
| WsClient.ContainerIdsExact | ha_api_limiter/ws_filter.py:184-208 | an id is extracted from a container exactly when the container is an object naming it as a string or as a list member |
| WsClient.TargetIdsExact | ha_api_limiter/ws_filter.py:168-210 | an id is a target exactly when `service_data` or `target` names it |
| WsClient.TargetIdsSplit | ha_api_limiter/ws_filter.py:184 | `service_data` ids come before `target` ids |
| WsClient.Unmatched | ha_api_limiter/ws_filter.py:358-380 | the refused ids are exactly the targets that match no pattern |
| WsClient.FirstUnmatched | ha_api_limiter/ws_filter.py:358-366 | the first refused id is the first target, in order, that matches no pattern |
| WsClient.UnmatchedEmptyIff | ha_api_limiter/ws_filter.py:358-389 | nothing is refused exactly when every target matches a pattern |
| WsClient.TrackedTypesNeverBlocked | ha_api_limiter/ws_filter.py:17-71 | the list, subscription, `subscribe_events` and `call_service` types are never blocked by type |
| WsClient.UntypedMessagePasses | ha_api_limiter/ws_filter.py:293-342 | a message with a falsy type passes and tracks nothing |
| WsClient.BlockedTypeRefused | ha_api_limiter/ws_filter.py:293-297 | a blocked type is refused with "Message type not allowed: " and the type |
| WsClient.SubscribeEventsRule | ha_api_limiter/ws_filter.py:300-312 | `subscribe_events` passes exactly when it names an allowed event type; a missing event type is refused with its own message |
| WsClient.TrackedRequestPasses | ha_api_limiter/ws_filter.py:315-342 | list and subscription requests always pass |
| WsClient.ServiceCallRule | ha_api_limiter/ws_filter.py:340-400 | a service call passes exactly when it is not blocked, every entity, device and area target is whitelisted, and an entity-controlled domain names some target |
| WsClient.CallServiceSkipsTypeChecks | ha_api_limiter/ws_filter.py:293-400 | for `call_service` the verdict `WsClient.ClientVerdict` (the model of `filter_client_message`'s decision) is the service verdict alone; the rows around this one state `ClientVerdict` for every other kind of message |
| WsClient.TargetRefusalOrder | ha_api_limiter/ws_filter.py:357-389 | entities are checked before devices, devices before areas, and the error names the first refused id |
| WsServer.KeepAllowedExact | ha_api_limiter/ws_filter.py:402-466 | `WsServer.KeepAllowed`: an item survives a list filter exactly when it is an object whose key field is a non-empty string matching a pattern |
| WsServer.KeepAllowedAppend | ha_api_limiter/ws_filter.py:402-466 | filtering a concatenation is concatenating the filtered parts, so order is kept |
| WsServer.KeepAllowedIdempotent | ha_api_limiter/ws_filter.py:402-466 | filtering a filtered list changes nothing |
| WsServer.FloorListRule | ha_api_limiter/ws_filter.py:468-480 | floors are hidden when no area is whitelisted and passed through unchanged otherwise |
| WsServer.ResultListByKind | ha_api_limiter/ws_filter.py:553-562 | device results are filtered on `id`, area results on `area_id`, floor results by the floor rule, and entity results on `entity_id` |
| WsServer.KeepAllowedKeysExact | ha_api_limiter/ws_filter.py:491-511 | an addition or change survives exactly when its entity id matches a pattern |
| WsServer.KeepAllowedIdsExact | ha_api_limiter/ws_filter.py:514-521 | a removal survives exactly when it is a string matching a pattern |
| WsServer.SubscriptionEventSections | ha_api_limiter/ws_filter.py:482-539 | the filtered event keeps each non-empty filtered section and is dropped when none is left |
| WsServer.SubscriptionSectionsExact | ha_api_limiter/ws_filter.py:491-521 | each section of a filtered event holds exactly the allowed entries of the original section |
| WsServer.TrackedResultHandledOnce | ha_api_limiter/ws_filter.py:551-568 | a result for a tracked request removes it from the pending map, a non-list result is forwarded as received, and a second result with the same id is forwarded as received |
| WsServer.TrackedListResultFiltered | ha_api_limiter/ws_filter.py:553-564 | a list result for a tracked request is replaced by the message with its result filtered by the request kind |
| WsServer.OtherMessagesKept | ha_api_limiter/ws_filter.py:566-570 | `WsServer.FilterSingle` (the model of `_filter_single_message`, characterised by this row and the single-message rows around it) forwards untracked results and non-event messages unchanged |
| WsServer.StateChangedRule | ha_api_limiter/ws_filter.py:584-603 | a `state_changed` event is dropped exactly when its entity matches no pattern, and is otherwise kept |
| WsServer.SubscriptionEventRule | ha_api_limiter/ws_filter.py:574-582 | an event of an entity subscription with sections is replaced by its filtered event, or dropped when nothing is left |
| WsServer.SubscriptionEventWithoutSectionKept | ha_api_limiter/ws_filter.py:576-585 | an event of an entity subscription that names no `a`, `c` or `r` section (a dict without those keys, or a list or string not containing them) is forwarded unchanged |
| WsServer.SinglePendingShrinks | ha_api_limiter/ws_filter.py:551-552 | filtering a message only ever removes its own id from the pending map |
| WsServer.UnmodifiedBatchIsOriginal | ha_api_limiter/ws_filter.py:621-637 | a batch with nothing dropped or replaced keeps every message, and a batch never grows |
| WsServer.BatchPendingShrinks | ha_api_limiter/ws_filter.py:621-631 | a batch never adds to the pending map or changes a kept entry, and every id it removes is the id of a `result` message in the batch |
| WsServer.BatchForwarding | ha_api_limiter/ws_filter.py:633-638 | `WsServer.ServerOutcome` (the model of `filter_server_message`): an emptied batch is dropped, an unmodified one is forwarded as the original text, and a modified one as the filtered list |
| WsServer.MalformedPassesThrough | ha_api_limiter/ws_filter.py:615-619 | text that is not JSON is forwarded unchanged |
| WsFilter.WebSocketFilter.constructor | ha_api_limiter/ws_filter.py:161-166 | a new filter tracks nothing |
| WsFilter.WebSocketFilter.AppendIds | ha_api_limiter/ws_filter.py:191-194 | appends a string id, or the string members of a list |
| WsFilter.WebSocketFilter.ExtractIdsFromTarget | ha_api_limiter/ws_filter.py:168-210 | the loop returns the target ids of `service_data` and then `target` |
| WsFilter.WebSocketFilter.ScreenMessageType | ha_api_limiter/ws_filter.py:292-312 | the type and event-type checks give the type verdict |
| WsFilter.WebSocketFilter.Track | ha_api_limiter/ws_filter.py:314-338 | list requests are recorded by id with their type, and entity subscriptions by id |
| WsFilter.WebSocketFilter.CheckServiceCall | ha_api_limiter/ws_filter.py:340-400 | the service checks give the service verdict |
| WsFilter.WebSocketFilter.FilterClientMessage | ha_api_limiter/ws_filter.py:270-400 | undecodable text passes; otherwise the result is the verdict with its error object, and tracking happens exactly when the type checks pass |
| WsFilter.WebSocketFilter.FilterRegistryList | ha_api_limiter/ws_filter.py:402-466 | the loop keeps exactly the allowed items, in order |
| WsFilter.WebSocketFilter.FilterSingleMessage | ha_api_limiter/ws_filter.py:541-603 | the outcome and the new pending map are those of the single-message rule, and subscriptions are unchanged |
| WsFilter.WebSocketFilter.FilterServerMessage | ha_api_limiter/ws_filter.py:605-647 | the forwarded text and the new pending map are those of the server rule, for single messages and for batches |
| Proxy.AsciiLower | ha_api_limiter/proxy.py:70 | each character is lower-cased on its own and the length is kept |
| Proxy.AsciiLowerIdempotent | ha_api_limiter/proxy.py:70 | lower-casing a lower-cased name changes nothing |
| Proxy.FilterHeaders | ha_api_limiter/proxy.py:67-71 | a header is kept exactly when its lower-cased name is not hop-by-hop; values are unchanged and nothing is added |
| Proxy.FilterHeadersKeepsOrder | ha_api_limiter/proxy.py:67-71 | the kept headers are in their original order |
| Proxy.FilterHeadersIdempotent | ha_api_limiter/proxy.py:67-71 | filtering twice is filtering once |
| Proxy.HostAndLengthDropped | ha_api_limiter/proxy.py:23-71 | `Host` and `Content-Length` are removed and `Accept` is kept |
| Proxy.StripTrailingSlashes | ha_api_limiter/proxy.py:43 | the result is a prefix that does not end in `/`, and only slashes were removed |
| Proxy.StripAppendedSlashes | ha_api_limiter/proxy.py:43 | stripping removes exactly the slashes appended to a URL |
| Proxy.BaseUrl | ha_api_limiter/proxy.py:42-43 | the stored upstream URL never ends in `/` |
| Proxy.SchemeAndNetlocOfComposed | ha_api_limiter/proxy.py:114 | `Proxy.SchemeAndNetloc` (the model of `urlparse`): parsing `scheme://host/path` gives back the lower-cased scheme and the host |
| Proxy.WsScheme | ha_api_limiter/proxy.py:115 | the WebSocket scheme is `wss` exactly for `https`, and `ws` otherwise |
| Proxy.HAProxy.constructor | ha_api_limiter/proxy.py:42-44 | the proxy keeps the given URL, or the configured one when the given one is missing or empty, without trailing slashes |
| Proxy.HAProxy.GetWsUrl | ha_api_limiter/proxy.py:112-116 | the URL starts with `wss://` exactly when the upstream scheme is `https`, and ends with the path |
| Proxy.HAProxy.WsUrlOfHttps | ha_api_limiter/proxy.py:112-116 | `https://host/...` gives `wss://host` followed by the path |
| Proxy.HAProxy.WsUrlOfHttp | ha_api_limiter/proxy.py:112-116 | `http://host/...` gives `ws://host` followed by the path |

## Left out

- main.py, the application wiring, is not part of this model. The same holds for `Settings`, the command line and the logging calls.
- The network and asynchronous code of proxy.py is not modelled: `startup`, `shutdown`, `client`, `forward_request` and `forward_websocket`. It is I/O and concurrency.
- proxy.py:156 calls `learn_from_websocket_message`, which learner.py does not define. No learning from WebSocket traffic is modelled.
- YAML parsing and writing, file existence and directory creation are left out. The file is an abstract record.
- JSON text encoding and decoding are left out. Messages are decoded values, and a rewritten message is a value, not its text.
- `fnmatch` character classes (`[...]`), Unicode, case folding beyond ASCII letters, and floating-point numbers are left out.
- Python's equality of `True` and `1` as dictionary keys and set members is not modelled.
- Proxy.SchemeAndNetloc: `urlparse` is modelled for `scheme://host...` URLs. Leading whitespace stripping, removal of tabs and newlines, and `@`/port handling inside the host are left out.
- Proxy.AsciiLower: `str.lower()` is modelled on ASCII letters only.
- WsServer.KeepAllowed: a non-string truthy id in a registry list counts as not allowed. The source raises `TypeError` inside `fnmatch` when it compares such an id with a pattern. The same holds for WsServer.KeepAllowedIds on `r` removals and for WsServer.FilterSingle on `state_changed` entity ids.
- WsClient.WellFormedClientMessage: inputs on which the source crashes are preconditions. These are a message that is not an object, an unhashable type or id, an unhashable `domain`, `service` or `event_type`, and a truthy type that is not a string. Such a type is in no list of strings, so it reaches `pattern.match` at ws_filter.py:241-243, which raises `TypeError`.
- WsServer.WellFormedServerMessage: likewise. These are a batch element that is not an object, an unhashable id, an `event` that is not an object for an id that is not an entity subscription, and event `data` of a `state_changed` event that is not an object. For an entity subscription, an `event` that is a list or string is modelled: `in` is then element or substring membership, and such an event naming no section is forwarded. A list or string event naming a section, and an event of another type, raise in the source and are excluded.
- WsRules.IsServiceBlocked requires a hashable domain and service. The source also handles an unhashable pair when an `allowed_services` entry equals its `str()`.
- Learner.LearnedTemplateAdmitsPath: its two conditions describe real behaviour, not gaps in the proof (Learner.BracedSlashPathRefused, Learner.DatedSlashPathRefused). A `{` with no `}` after it is an ordinary character and is not constrained. The refusal is proved for the example `/{a/b}` and for every dated path without a newline; that every path failing the first condition is refused is not proved.
- Learner.ExtractEntityFromPath: completeness is proved for the `?entity_id=<id>` query shape only. Soundness is proved for every path.
- Learner.Learner.LearnFromResponse: the found ids are appended in an unspecified order, and the contract states which ids are appended, not their order. Python's set iteration order is not modelled.
- Learner.ExtractEntitiesFromJson: the found set is threaded through as a value rather than mutated in place.
- The test-only helper `_extract_ids_from_json` of the ws_filter tests is not modelled. Neither are the tests that target a different version of ws_filter.py.

## Findings

| source | as written | input that shows it | evidently intended | confidence | as-written member | corrected member |
|---|---|---|---|---|---|---|
| ha_api_limiter/config.py:70 | `re.escape` runs before the placeholder substitution. The substitution then matches `{name\}` and leaves `\` in front of `[^/]+`. The compiled regex has a `^` after a literal `[` and matches no path. | the template `/api/states/{entity_id}` (which learn mode writes) against the path `/api/states/light.kitchen` | a placeholder admits any one path segment (`[^/]+`), as the comment at config.py:69 says | not executed | TemplateRegex.BracePairMatchesNothingAsWritten, TemplateRegex.MatchesAsWrittenCharacterized, TemplateExamples.ServiceTemplateAsWrittenRejectsServiceCall, Learner.LearnedStatesTemplateRefusedAsWritten | Template.SegmentwiseMatching, TemplateExamples.ServiceTemplateAdmitsServiceCall, Learner.LearnedTemplateAdmitsPath |
