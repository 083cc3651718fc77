# study-buddy, modelled in Dafny

study-buddy watches a student at a desk through a camera. A vision model
describes each snapshot as a small JSON object (at the desk, posture,
activity, lighting, ...). A rule checker matches every field against a
regular expression. A notification manager decides when a parent is told
over WeChat Work or Telegram, and when monitoring stops because the
student has settled. A time scheduler starts and stops monitoring at
configured times of day. A Flask web application drives it all.

The repository holds two generations of this pipeline, and both are
modelled here:

- the older loop, served by `web_server.py`: `core/` (state history,
  decision making), `modules/vision` (camera and Kimi analyzer) and
  `modules/im` (WeChat and Telegram notifiers);
- the newer service, served by `web/app.py`: `src/monitor` (configuration, rule checker, notification manager and the
  monitoring service), `src/vision` (camera singleton and camera service),
  `src/ai` (vision analyzer) and `src/messenger` (message model, adapters,
  messenger service).

Each core source file is one Dafny module, in the form the Python code
takes:
- Objects whose methods update their attributes are classes with
  `modifies` clauses. Their methods are proved against specification
  functions of the old state.
- Pure helpers are functions with lemmas.
- Loops stay loops, with invariants.

The module `Common` holds the shared vocabulary:
- `Option`;
- a JSON-like `Value`;
- Python's truthiness, `==` and `str()`;
- decimal integers, and the string operations the source uses.

The outside world is modelled as parameters of the operations that touch
it:
- regular-expression matching and compilation;
- camera reads, file existence and HTTP replies;
- the vision model's answer, `json.loads`;
- the clock, as whole seconds or a `(date, hour, minute)` reading.

A result of `None` stands for a Python exception.

## Model

| member | source | states |
|---|---|---|
| Common.ParseIntRoundTrip | src/monitor/simple_config.py:75 | `int()` of the decimal text of any integer gives the integer back |
| Common.SplitJoin | src/messenger/adapters/wechat_adapter.py:107 | joining the parts of a split on the separator gives the string back |
| Common.SplitPartsFree | src/messenger/adapters/wechat_adapter.py:107 | no part of a split holds the separator |
| Common.CleanPartsStripped | src/messenger/adapters/wechat_adapter.py:107 | every recipient kept by the list comprehension is non-empty and already stripped |
| Common.CleanPartsFree | src/messenger/adapters/wechat_adapter.py:107 | cleaning parts that are free of the separator keeps them free of it |
| Common.RecipientsWellFormed | src/messenger/adapters/wechat_adapter.py:107 | every recipient of a `|`-separated list is non-empty, stripped and free of `|` |
| Common.TrimIdempotent | web/app.py:327 | stripping a stripped string changes nothing |
| Common.TrimProperties | web/app.py:327 | `strip()` never lengthens a string and leaves no whitespace at either end |
| Common.PyEqRule | src/monitor/simple_rule_checker.py:83 | a bool equals exactly the int it stands for (`True == 1`, `False == 0`), a value of any other kind equals only itself, and `==` is reflexive, symmetric and transitive |
| Common.ContainsAt | web/app.py:549 | a substring found at one position makes `sub in s` true |
| Config.FieldNamed | src/monitor/simple_config.py:110 | each of the eleven public settings is found under its own name and no other key names one; no setting shares a name with a method |
| Config.SetAttr | src/monitor/simple_config.py:121 | `setattr` changes exactly the one field and keeps every other field and the config file |
| Config.IntOf | src/monitor/simple_config.py:75 | `int()` of an int is itself and of a bool is 0 or 1; of None, a list or a dict it raises |
| Config.ToInt | src/monitor/simple_config.py:71-77 | `to_int` gives the default for None and for a value `int()` rejects, and `int(value)` otherwise |
| Config.ToDict | src/monitor/simple_config.py:43-57 | every public field appears under its name with its value, and no other key appears |
| Config.ConfigFileNotPublic | src/monitor/simple_config.py:41 | the private config path is not a field that `to_dict` or `update` reaches |
| Config.FromDictReads | src/monitor/simple_config.py:60-92 | each numeric field goes through `to_int` with its own default; the other fields are `dict.get` with their defaults; the file path is kept |
| Config.GetDefault | src/monitor/simple_config.py:152-172 | five rules; intervals 10/60, fail limit 5, capture every 30 s, preview 10 s; 09:00-18:00; scheduler off, preview on; log dir "logs" |
| Config.SameSettings | src/monitor/simple_config.py:14-41 | two configurations that agree on every field and on the file path are equal |
| Config.FromDictToDict | src/monitor/simple_config.py:43-92 | `from_dict(to_dict(c))` gives back `c` whenever its numeric fields hold integers |
| Config.Coerce | src/monitor/simple_config.py:111-119 | numeric keywords go through `int()` except None and ""; a string for a flag becomes true iff its lower case is "true", "1" or "yes"; anything else is kept |
| Config.Assign | src/monitor/simple_config.py:109-121 | the keyword loop keeps the config file; it only adds hidden method names, each a method of the class; once it completes, every method name among the keywords is hidden |
| Config.UpdateSpec | src/monitor/simple_config.py:103-124 | the config file path never changes; with `update` hidden the call raises and changes nothing; hidden methods stay hidden; a hidden `save`, in particular any update that names `save`, makes the call raise |
| Config.AssignChangesOnlySupplied | src/monitor/simple_config.py:109-121 | a setting that no keyword names keeps its value; method names and unknown or private keys change no setting |
| Config.AssignSetsSupplied | src/monitor/simple_config.py:109-121 | when the keywords are distinct and no `int()` raises, every named setting holds its converted value, whether or not `save` then raises |
| Config.MonitorConfig.FromDictionary | src/monitor/simple_config.py:60-92 | the object holds `from_dict` of the dictionary and hides no method |
| Config.MonitorConfig.Default | src/monitor/simple_config.py:152-172 | the object holds the default configuration and hides no method |
| Config.MonitorConfig.Update | src/monitor/simple_config.py:103-124 | the new settings, the hidden method names and whether the call raised (hidden `update`, `int()`, or a `save` hidden directly or through `to_dict`) are those of the update specification on the old state |
| RuleCheck.FriendlyMessage | src/monitor/simple_rule_checker.py:105-117 | the message is `key: value`, and `key: None` for a missing field |
| RuleCheck.RuleVerdict | src/monitor/simple_rule_checker.py:70-88 | a missing key fails with `key: None`; a present one passes iff the regex matches its `str()` |
| RuleCheck.FoldFailsIffMalformed | src/monitor/simple_rule_checker.py:69-71 | the check raises iff some rule lacks "key" or "regexp" |
| RuleCheck.TailHasFields | src/monitor/simple_rule_checker.py:69-71 | the rules after a well-formed first rule are well formed |
| RuleCheck.FoldPassed | src/monitor/simple_rule_checker.py:69-88 | the passed fields are the keys of the passing rules, in rule order, duplicates kept |
| RuleCheck.FoldFailedKeys | src/monitor/simple_rule_checker.py:69-88 | a key is failed iff it was failed before or some rule for it fails |
| RuleCheck.FoldLastMessage | src/monitor/simple_rule_checker.py:69-88 | a failed key's message is the one from the last failing rule for that key |
| RuleCheck.FoldKeepsUnfailed | src/monitor/simple_rule_checker.py:69-88 | a failure is kept when every later rule for that key passes |
| RuleCheck.FoldMissingKey | src/monitor/simple_rule_checker.py:74-76 | a key absent from the analysis ends failed with `key: None` |
| RuleCheck.CheckValidIff | src/monitor/simple_rule_checker.py:66-103 | the result is valid iff every rule passes; it carries the analysis unchanged |
| RuleCheck.MissingKeyFails | src/monitor/simple_rule_checker.py:74-76 | a rule whose key is missing makes that key failed, not passed, with `key: None` |
| RuleCheck.PassedKeysFrom | src/monitor/simple_rule_checker.py:84 | every passed key comes from a rule that passes |
| RuleCheck.SimpleRuleChecker.constructor | src/monitor/simple_rule_checker.py:30-40 | the checker holds the given rules |
| RuleCheck.SimpleRuleChecker.ValidateRules | src/monitor/simple_rule_checker.py:45-55 | no error iff every rule has both fields and a regex that compiles; otherwise the first bad rule is reported |
| RuleCheck.SimpleRuleChecker.Check | src/monitor/simple_rule_checker.py:57-103 | the result equals the check specification, whose properties the fold lemmas state |
| RuleCheck.SimpleRuleChecker.UpdateRules | src/monitor/simple_rule_checker.py:119-126 | the new rules are stored even when validation then fails; the error conditions are those of validation |
| RuleCheck.NewRuleChecker | src/monitor/simple_rule_checker.py:136-146 | a checker is built iff every rule is well formed and compiles, and it holds the rules |
| Notify.SecondsPart | src/monitor/notify_manager.py:113 | `timedelta.seconds` lies in [0, 86400) and is the elapsed time itself below one day |
| Notify.Decide | src/monitor/notify_manager.py:68-149 | the stop check comes first and changes nothing; otherwise a pass resets the counter and a failure adds one; the first cycle always notifies; a cycle too soon after the last notification is quiet; one past the maximum interval is forced; in between, a notification goes out iff the check failed, at WARNING; the last-notification time moves iff a notification goes out |
| Notify.Outcomes | src/monitor/notify_manager.py:68-149 | one result per cycle |
| Notify.FailedCyclesCount | src/monitor/notify_manager.py:80-94 | failed cycles below the limit each add one to the counter and none stops the service |
| Notify.StopIsSticky | src/monitor/notify_manager.py:80-88 | once the counter reaches the limit, every later cycle stops, none notifies, and the state stays as it is |
| Notify.StopAfterLimitPlusOne | src/monitor/notify_manager.py:80-94 | after a reset with limit L, L failed cycles do not stop the service; the cycle after them stops it whatever its result, and so does every cycle after that |
| Notify.NotifyManager.constructor | src/monitor/notify_manager.py:43-62 | the configuration is as given, with no failures and no last notification |
| Notify.NotifyManager.ShouldNotifyStop | src/monitor/notify_manager.py:68-149 | the result and the new state are `Decide` of the configuration, the old state, the check result and the clock |
| Notify.NotifyManager.Reset | src/monitor/notify_manager.py:151-155 | no failures and no last notification |
| Notify.NotifyManager.UpdateConfig | src/monitor/notify_manager.py:157-181 | each setting passed is stored; each one left out keeps its value; the counter and the clock are untouched |
| CameraDevice.StampShape | src/vision/camera_singleton.py:155 | the default capture name `%m%d%Y %H%M%S` has fifteen characters: digits with one space at index 8 |
| CameraDevice.RelativeTo | src/vision/camera_singleton.py:170 | `relative_to` succeeds iff the path lies under the root, and the root joined with the result is the path |
| CameraDevice.CameraSingleton.constructor | src/vision/camera_singleton.py:43-61 | no handle, no mode, no frame, nothing read or written |
| CameraDevice.CameraSingleton.SwitchToMode | src/vision/camera_singleton.py:64-113 | already in the target mode with an open handle: success, and nothing changes; otherwise any handle is released and the camera reopened in the target mode as the open outcome says; as written the settle wait never happens |
| CameraDevice.CameraSingleton.CaptureImage | src/vision/camera_singleton.py:124-175 | without an open handle nothing is read or written; a saved capture reads three frames, writes the third to the output file and returns that file relative to the project root; a third read without a frame returns None |
| CameraDevice.CameraSingleton.ReadFrame | src/vision/camera_singleton.py:177-198 | one read when open; the last frame and its time change only when a frame came back; a raising read gives None |
| CameraDevice.CameraSingleton.Shutdown | src/vision/camera_singleton.py:200-207 | no handle and no mode |
| CameraDevice.SettleDelayNeverFires | src/vision/camera_singleton.py:80-88 | as written, the settle wait never happens, although a real mode switch releases a handle |
| CameraDevice.CameraSingleton.SwitchToModeIntended | src/vision/camera_singleton.py:64-113 | with the settle test made on whether a handle was released, the wait runs exactly when the camera was not already in the target mode with an open handle and held a handle; success, handle and mode are as in `SwitchToMode` |
| CameraSvc.CameraService.constructor | src/vision/camera_service.py:53-71 | no mode, no preview client and the lock free |
| CameraSvc.CameraService.Capture | src/vision/camera_service.py:82-113 | a failed switch to capture mode returns None with nothing read or written; conversely, when the service is in capture mode with an open handle (or the switch succeeds) and the three reads return a frame, the path of the written file relative to the project root is returned |
| CameraSvc.CameraService.StartPreview | src/vision/camera_service.py:117-147 | the client and the time are recorded whatever follows; success and preview mode iff the service was previewing already or the switch to stream mode succeeds |
| CameraSvc.CameraService.StopPreviewHeld | src/vision/camera_service.py:159-175 | another client is refused with nothing changed; a failed switch back to capture keeps the client; otherwise the client is forgotten and preview becomes capture mode |
| CameraSvc.CameraService.StopPreview | src/vision/camera_service.py:149-175 | with the lock already held the call never returns and nothing changes; otherwise success iff the client may stop and the switch back succeeds, and only success forgets the client |
| CameraSvc.CameraService.ReadPreviewFrame | src/vision/camera_service.py:188-216 | None outside preview; an expired preview is stopped instead of read; otherwise one frame is read from the camera, None when the read raises |
| CameraSvc.CameraService.ShutdownAsWritten | src/vision/camera_service.py:235-250 | (as written) shutting down while previewing, or while the lock is held, never returns, because it waits for the lock it or another call holds; otherwise everything is cleared and the camera closed |
| CameraSvc.CameraService.Shutdown | src/vision/camera_service.py:235-250 | always returns with no mode, no preview client, the lock free and the camera closed |
| Messages.Draft | src/messenger/models/message.py:35-70 | an outgoing, unsent, unprocessed message with the given type, content, recipient, level and platform, no file and no extras |
| Messages.SendText | src/messenger/models/message.py:83-107 | an outgoing text message to the recipient, carrying the content, with no file and no extras |
| Messages.SendMarkdown | src/messenger/models/message.py:109-133 | an outgoing markdown message to the recipient, carrying the content, with no file and no extras |
| Messages.SendImage | src/messenger/models/message.py:135-160 | an outgoing image message whose file is the image path and whose content is `[图片] ` followed by the path |
| Messages.SendCardAsWritten | src/messenger/models/message.py:162-193 | (as written) extras exist iff a title or a url is given, and then hold both, a missing one as None |
| Messages.SendCard | src/messenger/models/message.py:162-193 | extras exist iff a title or a url is given; then both keys are present and never None, a missing one being "" |
| Messages.Prefix | src/messenger/models/message.py:78 | `s[:n]`: at most n characters, a prefix of s, all of s when it is short enough |
| Messages.Repr | src/messenger/models/message.py:76-78 | starts with `Message(` and the direction's arrow, and ends with at most thirty characters of the content followed by `...)` |
| Adapters.ExtraGet | src/messenger/adapters/base_adapter.py:168-169 | `extra.get(key, "")`: "" for an absent key, the stored value (None included) otherwise |
| Adapters.Dispatch | src/messenger/adapters/base_adapter.py:160-173 | a file message has no send; text, image, markdown and card messages go to their own send with the content or path and the recipient; a card's title and url come from its extras |
| Adapters.Resolve | src/messenger/adapters/base_adapter.py:48-104 | text is sent as it is; markdown an adapter does not implement is sent as text; a card an adapter does not implement is sent as `title\ndescription\nurl` text; an image an adapter does not implement is refused |
| Adapters.SendMessage | src/messenger/adapters/base_adapter.py:144-173 | the message comes back with the adapter's platform set; files and unsupported images return False; text reaches the text send |
| Adapters.DefaultUnsupported | src/messenger/adapters/base_adapter.py:76-88 | the default file send reports failure; so does the default `start_receiving` (lines 108-119) |
| Adapters.FactoriesRoute | src/messenger/adapters/base_adapter.py:144-173 | a message from each factory reaches the matching send, with the content or path and the recipient it was built with |
| Adapters.CardWithoutTitleAsWritten | src/messenger/adapters/base_adapter.py:167-170 | (as written) a card with a url and no title reaches `send_card` with title None, and the default text of lines 103-104 then starts with "None" |
| Adapters.CardRoutes | src/messenger/adapters/base_adapter.py:167-170 | with the corrected factory, every card reaches `send_card` with both title and url as strings, a missing one as "" |
| Messenger.FirstGiven | src/messenger/messenger_service.py:228-232 | the chain `a or b or ""` is "" iff no candidate is a non-empty string, and otherwise the first such candidate |
| Messenger.DefaultRecipient | src/messenger/messenger_service.py:225-232 | WeChat uses its recipient and Telegram its chat id when set; otherwise, and for any other platform, the default recipient or "" |
| Messenger.DefaultRecipientFirstGiven | src/messenger/messenger_service.py:225-232 | the default recipient is the first set source among the platform's own setting and the default recipient |
| Messenger.FirstNamed | src/messenger/messenger_service.py:206-213 | None iff no adapter has the name; otherwise the first adapter that has it |
| Messenger.AdapterList | src/messenger/messenger_service.py:93-99 | WeChat first, then Telegram, each only when given |
| Messenger.MessengerService.constructor | src/messenger/messenger_service.py:79-99 | the adapters are the given ones in that order, with the configuration |
| Messenger.MessengerService.SendToAllText | src/messenger/messenger_service.py:161-173 | every adapter is tried, a raising one counts as a failure, and the result is true iff some adapter reported success |
| Messenger.MessengerService.SendToAllImage | src/messenger/messenger_service.py:175-187 | the same over image messages: true iff some adapter sent the image |
| Messenger.MessengerService.SendToAllMessage | src/messenger/messenger_service.py:189-202 | true iff some adapter, handed the caller's message with its own default recipient, reported success; with no adapters the message is untouched, otherwise it ends with the last adapter's platform and default recipient |
| Messenger.MessengerService.SendToPlatformText | src/messenger/messenger_service.py:204-213 | only the first adapter with that name is used, and its exception is not caught; with no such adapter the result is false |
| Messenger.MessengerService.SendToPlatformMessage | src/messenger/messenger_service.py:215-223 | the same choice of adapter; the message gets that platform's default recipient and the platform |
| Messenger.MessengerService.Send | src/messenger/messenger_service.py:111-128 | a named platform goes to its first adapter alone, false when there is none; otherwise the result is true iff some adapter sent the text |
| Messenger.MessengerService.SendMessageTo | src/messenger/messenger_service.py:144-157 | a named platform goes to its first adapter with its default recipient; otherwise every adapter gets the message, the result is true iff some adapter succeeded, and the message ends with the last adapter's platform and recipient |
| Messenger.MessengerService.StartReceiving | src/messenger/messenger_service.py:236-257 | disabled receiving gives false; otherwise true iff some adapter that implements receiving started it |
| Messenger.CreateMessengerService | src/messenger/messenger_service.py:299-346 | WeChat is used iff corp id, secret and recipient are all set and it initializes; Telegram iff token and chat id are set and it initializes; WeChat comes first |
| WeChat.Refresh | src/messenger/adapters/wechat_adapter.py:67-97 | a fresh cached token is returned without a request; otherwise a granted token is cached until 300 seconds before it expires; a denied or failed request raises and leaves the cache as it was |
| WeChat.GrantedTokenCached | src/messenger/adapters/wechat_adapter.py:70-87 | a granted token is served from the cache until 300 seconds before its lifetime ends |
| WeChat.PostToEach | src/messenger/adapters/wechat_adapter.py:107-134 | each user is posted to in order; the result is true iff every post was accepted, and a rejected or raising post only clears the result; a non-numeric agent id raises as soon as there is a user |
| WeChat.PostImageToEach | src/messenger/adapters/wechat_adapter.py:206-232 | true iff every post was accepted; a post that raises ends the loop with false |
| WeChat.WeChatAdapter.constructor | src/messenger/adapters/wechat_adapter.py:32-51 | no cached token, expiry 0 |
| WeChat.WeChatAdapter.GetAccessToken | src/messenger/adapters/wechat_adapter.py:67-97 | the token and the new cache are those of `Refresh` on the old cache |
| WeChat.WeChatAdapter.SendText | src/messenger/adapters/wechat_adapter.py:101-134 | the cache is refreshed; raises iff the token request fails or the agent id is not a number while there are users; otherwise every recipient of the `|`-separated list is posted to and the result is true iff all posts were accepted |
| WeChat.WeChatAdapter.PostOnce | src/messenger/adapters/wechat_adapter.py:136-162 | `send_markdown`, like `send_card` at lines 234-265: raises iff the token request fails or the agent id is not a number; otherwise true iff the single post was accepted |
| WeChat.WeChatAdapter.SendImage | src/messenger/adapters/wechat_adapter.py:164-232 | a missing file or one over 2 MiB is refused before any request; a failed upload before any post; true iff the token was obtained, the upload succeeded and every post was accepted |
| WeChat.WeChatAdapter.Shutdown | src/messenger/adapters/wechat_adapter.py:59-63 | the token and its expiry are forgotten |
| Schedule.ParseHHMM | src/monitor/simple_monitor_service.py:463-464 | a time that parses is a string with exactly two parts around ":" |
| Schedule.SplitOnce | src/monitor/simple_monitor_service.py:463 | splitting at the only separator gives the two sides |
| Schedule.SplitNone | src/monitor/simple_monitor_service.py:463 | a string without the separator splits into itself alone |
| Schedule.ParseDigits | src/monitor/simple_monitor_service.py:463 | `int()` of a run of digits is its decimal value |
| Schedule.ZeroPadValue | src/monitor/simple_monitor_service.py:463 | a zero-padded two-digit field reads back as its number |
| Schedule.ParseHHMMDigits | src/monitor/simple_monitor_service.py:463-464 | two runs of digits around a colon read as hours times 60 plus minutes |
| Schedule.ParseHHMMRoundTrip | src/monitor/simple_monitor_service.py:463-464 | reading back a zero-padded "HH:MM" gives its minutes since midnight |
| Schedule.Tick | src/monitor/simple_monitor_service.py:466-515 | start iff idle, inside [start, stop) and not yet auto-started today; stop iff monitoring, on the same day, with the previous check before the stop minute and this one at or past it; never both; no start when the window is empty; no stop on a day's first tick; the date and minute are recorded every tick, and a start marks today |
| Schedule.Step | src/monitor/simple_monitor_service.py:476-515 | a step ticks on the monitoring flag the service shows at that reading, which a stop from outside the scheduler may have cleared, and keeps the tick's locals |
| Schedule.Quiet | src/monitor/simple_monitor_service.py:476-515 | clock readings with no change from outside the scheduler, one per clock reading and in order |
| Schedule.RunSnoc | src/monitor/simple_monitor_service.py:466-519 | ticking through one more reading is one more step |
| Schedule.RunRecordsLast | src/monitor/simple_monitor_service.py:476-515 | after any ticks the locals hold the last tick's date and minute |
| Schedule.MarkerKept | src/monitor/simple_monitor_service.py:489-501 | once the scheduler has started monitoring on a day, today's start marker stays for the rest of the day, whatever stops or starts happen outside the scheduler between ticks |
| Schedule.OneAutoStartPerDay | src/monitor/simple_monitor_service.py:489-501 | at most one automatic start per day, even when monitoring is stopped from outside (web interface, too many failures) between ticks |
| Schedule.OneAutoStop | src/monitor/simple_monitor_service.py:503-515 | the stop is edge-triggered: once it has fired, it does not fire again while the clock does not go back, whatever happens outside the scheduler |
| MonitorSvc.ConvertLevel | src/monitor/simple_monitor_service.py:263-274 | each notification level maps to the message level of the same name, in both directions |
| MonitorSvc.ConvertLevelInjective | src/monitor/simple_monitor_service.py:263-274 | distinct notification levels never become the same message level |
| MonitorSvc.AsMap | src/monitor/simple_monitor_service.py:142-160 | the dict has exactly the keys of the analysis items, and each key holds the value of its last item |
| MonitorSvc.FailureResult | src/monitor/simple_monitor_service.py:194-200 | the result after an exception neither notifies nor stops and is at INFO level |
| MonitorSvc.KeyErrorText | src/monitor/simple_monitor_service.py:156-160 | when a rule lacks a field, the exception text names "key" or "regexp" |
| MonitorSvc.Lines | src/monitor/simple_monitor_service.py:239-240 | one line per analysis item, in order |
| MonitorSvc.ConcatAppend | src/monitor/simple_monitor_service.py:239-240 | joining two lists of lines is joining each and concatenating |
| MonitorSvc.ContainsMiddle | src/monitor/simple_monitor_service.py:232-242 | a text contains any piece placed in its middle |
| MonitorSvc.NotificationListsEveryItem | src/monitor/simple_monitor_service.py:232-242 | every analysis item appears as its own line in the notification text |
| MonitorSvc.BuildMessage | src/monitor/simple_monitor_service.py:232-242 | the loop builds exactly the header, one line per item and the time footer |
| MonitorSvc.NoticeEvents | src/monitor/simple_monitor_service.py:244-250 | the text is always sent first; the image is sent too unless the text send raised |
| MonitorSvc.Lookup | src/monitor/simple_monitor_service.py:94-138 | a keyword argument is found iff some argument has that name |
| MonitorSvc.RulesOf | src/monitor/simple_rule_checker.py:45-55 | a list gives one rule per element; every rule is well formed iff the value is a list of dicts with string "key" and "regexp", or an empty string or dict, which iterate as no rules |
| MonitorSvc.RuleOf | src/monitor/simple_rule_checker.py:45-55 | a stored rule has both fields as strings iff the element is a dict whose "key" and "regexp" are strings, and then holds those two strings; other fields are ignored |
| MonitorSvc.NotifyArg | src/monitor/simple_monitor_service.py:130-136 | an absent or None argument is skipped; one int() refuses is an exception |
| MonitorSvc.NotifyUpdate | src/monitor/simple_monitor_service.py:130-136 | the update fails iff one of the three arguments does not convert; otherwise each setting is kept or becomes its converted argument |
| MonitorSvc.Window | src/monitor/simple_monitor_service.py:455-470 | the scheduler thread gets a window iff both times parse as HH:MM |
| MonitorSvc.SimpleMonitorService.constructor | src/monitor/simple_monitor_service.py:46-90 | the service starts idle with its collaborators, no threads, the initial status and nothing sent |
| MonitorSvc.SimpleMonitorService.StartMonitor | src/monitor/simple_monitor_service.py:278-300 | succeeds iff not monitoring; then records the start time, resets the notification state and starts the thread; a refused call changes nothing |
| MonitorSvc.SimpleMonitorService.StopMonitor | src/monitor/simple_monitor_service.py:302-339 | succeeds iff monitoring; then records the stop time and joins the thread unless called from it; the camera shutdown never returns iff the camera service is in preview mode or its lock is held, and otherwise leaves the camera shut down |
| MonitorSvc.SimpleMonitorService.SendNotification | src/monitor/simple_monitor_service.py:224-261 | sends the built text then the image, and counts the notification only when neither send raised and one succeeded |
| MonitorSvc.SimpleMonitorService.RecordDecision | src/monitor/simple_monitor_service.py:170-182 | the result and the new notification state are the manager's decision; the snapshot is counted and its record saved |
| MonitorSvc.SimpleMonitorService.AfterCheck | src/monitor/simple_monitor_service.py:166-192 | after a check: the decision, the saved record, the notification when asked for, and monitoring stopped when the decision says so; that stop never returns iff the camera is stuck in preview or locked |
| MonitorSvc.SimpleMonitorService.ProcessSnapshot | src/monitor/simple_monitor_service.py:142-202 | an exception from the analysis or the rule check yields the failure result with nothing changed; otherwise the full check follows, and the call never returns iff the decision stops monitoring while the camera is stuck in preview or locked |
| MonitorSvc.SimpleMonitorService.StartTimeScheduler | src/monitor/simple_monitor_service.py:407-436 | succeeds iff the scheduler is enabled with both times set and not already running |
| MonitorSvc.SimpleMonitorService.StopTimeScheduler | src/monitor/simple_monitor_service.py:438-453 | succeeds iff running; afterwards the scheduler is stopped and its thread joined |
| MonitorSvc.SimpleMonitorService.SchedulerTick | src/monitor/simple_monitor_service.py:472-519 | one pass of the scheduler loop moves the service exactly as one step of the schedule; it never returns iff the step stops monitoring while the camera is stuck |
| MonitorSvc.SimpleMonitorService.RunTicks | src/monitor/simple_monitor_service.py:472-519 | after the clock readings it got through, monitoring is what running the schedule over them gives; it stops early only at a tick whose automatic stop hangs |
| MonitorSvc.SimpleMonitorService.TimeSchedulerLoop | src/monitor/simple_monitor_service.py:455-525 | without a running scheduler or a parsable window nothing changes; otherwise monitoring follows the schedule up to the end or to a stop that hangs |
| MonitorSvc.SimpleMonitorService.ApplyRules | src/monitor/simple_monitor_service.py:113-114 | stores whatever was given as the rules, and rejects them iff some stored rule lacks a string field or has a pattern that does not compile |
| MonitorSvc.SimpleMonitorService.RestartScheduler | src/monitor/simple_monitor_service.py:117-128 | afterwards the scheduler runs iff it is enabled with both times set |
| MonitorSvc.SimpleMonitorService.ApplyNotifyArgs | src/monitor/simple_monitor_service.py:130-136 | raises iff an argument does not convert, changing nothing; otherwise the manager gets the converted settings |
| MonitorSvc.SimpleMonitorService.ApplyRest | src/monitor/simple_monitor_service.py:113-136 | rules when given (stored even when rejected), then the scheduler restart, then the notification settings, each only when its keys were given and no earlier step raised |
| MonitorSvc.SimpleMonitorService.UpdateConfig | src/monitor/simple_monitor_service.py:94-138 | the settings and hidden methods follow the configuration update; the rules are stored whenever given and the update got that far; an exception at any step leaves the later steps undone |
| MonitorSvc.SimpleMonitorService.Shutdown | src/monitor/simple_monitor_service.py:549-561 | afterwards monitoring is off; the call never returns iff monitoring was on while the camera was stuck, and then the scheduler keeps running; otherwise the scheduler is stopped too |
| StateMgr.Appended | core/base.py:82-92 | appending keeps at most 100 entries, ends with the new entry, and grows by one until the cap |
| StateMgr.AppendedKeepsNewest | core/base.py:82-92 | the kept history is always a suffix of the full history plus the new entry |
| StateMgr.AppendedShort | core/base.py:82-92 | below the cap nothing is dropped |
| StateMgr.AppendedFull | core/base.py:90-92 | at the cap exactly the oldest entry is dropped |
| StateMgr.NewestAfterDrop | core/base.py:90-92 | dropping the oldest of the newest 100 and appending gives the newest 100 of the longer history |
| StateMgr.RecordedKeepsNewest | core/base.py:82-92 | after any sequence of updates from empty, the history is the newest 100 entries in order |
| StateMgr.Run | core/base.py:94-102 | the consecutive count never exceeds the history length |
| StateMgr.RunIsLongestSuffix | core/base.py:94-102 | the counted newest entries all match and the entry just before them does not |
| StateMgr.AlertsAfterReset | core/base.py:104-113 | after a reset, n alerts on a key count n, and other keys keep their counts |
| StateMgr.StateManager.constructor | core/base.py:77-80 | starts with no current state, no history and no alert counts |
| StateMgr.StateManager.UpdateState | core/base.py:82-92 | the current state becomes the given one and the history gains its entry, capped at 100; alert counts are untouched |
| StateMgr.StateManager.GetConsecutiveCount | core/base.py:94-102 | the loop counts exactly the run of newest entries whose key equals the value |
| StateMgr.StateManager.ShouldAlert | core/base.py:104-108 | increments the key's count (from 0 when absent) and is due iff the new count reaches the threshold |
| StateMgr.StateManager.ResetAlertCount | core/base.py:110-113 | sets the key's count to 0 and leaves the others |
| CoreSched.MakeDecision | core/scheduler.py:58-92 | always notifies, passes the suggestion through; danger iff playing, warning iff away or slouching, info otherwise |
| CoreSched.EmptyAnalysisIsInfo | core/scheduler.py:74-91 | an empty analysis is reported as a good study state |
| CoreSched.PlayingOutranks | core/scheduler.py:80-82 | once playing is detected, no other field changes the danger level |
| CoreSched.Title | core/scheduler.py:106-111 | every level has a non-empty title |
| CoreSched.TitlesDistinct | core/scheduler.py:106-111 | different levels get different titles |
| CoreSched.ReportOpensWithTitle | core/scheduler.py:114-131 | the report starts with the level's title and then, after a blank line, the reason |
| CoreSched.Calls | core/scheduler.py:133-146 | the text is always sent with the decision's level; the image is sent second iff a path was given |
| CoreSched.Summary | core/scheduler.py:148-163 | a placeholder without state; otherwise the newest timestamp (None without history) and six fields of the current state |
| CoreSched.Scheduler.constructor | core/scheduler.py:13-19 | starts not running, with its state manager and no calls made |
| CoreSched.Scheduler.AnalyzeAndDecide | core/scheduler.py:31-56 | an analysis exception propagates with nothing recorded; otherwise the state is recorded, the decision made and its notification sent |
| CoreSched.Scheduler.SendNotification | core/scheduler.py:94-146 | appends exactly the report text and, when a path was given, the image |
| CoreSched.Scheduler.Shutdown | core/scheduler.py:26-29 | afterwards the scheduler is not running |
| IM.PostTextToEach | modules/im/__init__.py:89-111 | the result is None (an exception) iff a non-numeric agent id or a raising post is met; otherwise every user was posted to, in order, and the result is true iff every post was accepted |
| IM.RecipientList | modules/im/__init__.py:85-86 | an absent or empty recipient argument falls back to the configured list |
| IM.WeChatNotifier.constructor | modules/im/__init__.py:17-21 | starts with the configured recipients and agent id and no cached token |
| IM.WeChatNotifier.Initialize | modules/im/__init__.py:23-26 | always succeeds |
| IM.WeChatNotifier.GetAccessToken | modules/im/__init__.py:45-70 | the token and the cache are those of the shared five-minute-early refresh rule |
| IM.WeChatNotifier.SendText | modules/im/__init__.py:72-111 | posts to the trimmed, non-empty recipients in order; no token gives an exception before any post; true iff every post was accepted |
| IM.WeChatNotifier.Notify | modules/im/__init__.py:32-43 | every level is sent as plain text to the configured recipients; true iff a token was obtained and every post accepted |
| IM.WeChatNotifier.SendImage | modules/im/__init__.py:182-250 | a missing or over-2MB file is refused before any request; true iff the token, the upload and every post succeeded |
| IM.TelegramText | modules/im/__init__.py:288-299 | the text is the level's emoji, a space, then the message unchanged |
| IM.UnknownLevelBare | modules/im/__init__.py:288-294 | an unknown level gets no emoji, only the leading space |
| IM.KnownLevelsMarked | modules/im/__init__.py:288-292 | danger, warning and info each get a distinct, non-empty emoji |
| IM.TelegramNotify | modules/im/__init__.py:274-317 | a disabled notifier sends nothing and returns false; an enabled one posts to its chat and succeeds iff the reply says ok |
| IM.TelegramInitialize | modules/im/__init__.py:255-267 | succeeds iff both the bot token and the chat id are non-empty |
| IM.ResultsKeys | modules/im/__init__.py:370-389 | the results hold exactly one key per notifier class name |
| IM.ResultsLastWins | modules/im/__init__.py:370-389 | a class name's result is the outcome of its last notifier, false on an exception |
| IM.IMManager.constructor | modules/im/__init__.py:322-325 | starts with no notifiers |
| IM.IMManager.Initialize | modules/im/__init__.py:327-342 | keeps WeChat, then Telegram when it is configured, and succeeds iff any notifier was kept |
| IM.IMManager.Notify | modules/im/__init__.py:350-368 | true iff some notifier delivered; exceptions count as failures |
| IM.IMManager.NotifyAll | modules/im/__init__.py:370-389 | the loop builds exactly the per-class results |
| IM.IMManager.SendImage | modules/im/__init__.py:391-410 | asks exactly the notifiers that can send images; true iff one of them delivered |
| VisionMod.FirstGood | modules/vision/__init__.py:111-125 | the first attempt, below three, whose kept read returns a frame, with every earlier attempt's kept read failing; None iff all three fail |
| VisionMod.OutputName | modules/vision/__init__.py:127-129 | a given non-empty output path is used as is; otherwise a temp_capture_ name is made from the clock |
| VisionMod.Camera.constructor | modules/vision/__init__.py:18-21 | a new camera holds no handle |
| VisionMod.ReadsFromStep | modules/vision/__init__.py:111-125 | one read of an attempt: a raise ends the reads there, a discarded read goes on to the next read, a kept read with a frame ends them with that attempt, and one without goes on to the next attempt |
| VisionMod.ReadsFromEnds | modules/vision/__init__.py:111-125 | the reads of a capture end at the kept read of an attempt below three that returns a frame, at a read (discarded or kept) that raises, or after three misses |
| VisionMod.ReadsFromNoEarlierRaise | modules/vision/__init__.py:111-144 | no read before the last one made raises, so the first raise ends the capture |
| VisionMod.Camera.Capture | modules/vision/__init__.py:90-145 | without a handle only an existing given test image is returned; with one, the capture succeeds iff the reads end at a good kept read, after exactly two discards per attempt, and raises otherwise: at once when any read raises (re-raised at :142-144), or after three misses; the number of reads made matches that end |
| VisionMod.Camera.Shutdown | modules/vision/__init__.py:76-81 | afterwards no handle is held |
| VisionMod.ReadsFromMidAttempt | modules/vision/__init__.py:113-115 | when no read raises, the discarded reads of an attempt lead to its kept read |
| VisionMod.ReadsWithoutRaises | modules/vision/__init__.py:111-125 | when no read raises, the capture ends at the first good attempt, or after three misses iff there is none |
| VisionMod.CaptureSucceedsIffSomeAttempt | modules/vision/__init__.py:111-125 | a capture succeeds iff one of the three attempts' kept reads does, within nine reads |
| VisionMod.LastIndex | modules/vision/__init__.py:225 | the last position of a character, or None when it does not occur |
| VisionMod.FileName | modules/vision/__init__.py:225 | the file name is the part of the path after its last slash |
| VisionMod.Stem | modules/vision/__init__.py:225 | the stem is the file name without its last suffix, a leading or trailing dot not counting |
| VisionMod.ProcessedNameDiffers | modules/vision/__init__.py:199-200 | the resized copy's name never equals the original path, so the cleanup never deletes the original |
| VisionMod.SuffixLacksSlash | modules/vision/__init__.py:225 | a stem plus the processed suffix contains no slash |
| VisionMod.FileNameWithoutSlash | modules/vision/__init__.py:225 | a path without a slash is its own file name |
| VisionMod.PreprocessedPath | modules/vision/__init__.py:204-230 | the original path iff the image already fits the target size; otherwise the resized copy's name |
| VisionMod.ReplyContent | modules/vision/__init__.py:278-286 | the text of the first choice's content, "{}" when `choices` or the content is absent; an empty choices list, or a content that is present but not a string (on which `json.loads` raises a TypeError the decode handler does not catch), raises |
| VisionMod.CallKimiApi | modules/vision/__init__.py:232-292 | a non-200 status yields an error dict with the status; a 200 yields the parsed content, or an error dict with the raw content when it is not JSON |
| VisionMod.Analyze | modules/vision/__init__.py:181-202 | the result is the API call's; the resized copy is deleted iff the call returned, a copy was made and it exists, and that is never the original |
| VisionAI.Resolve | src/ai/vision_analyzer.py:100-103 | an absolute path is kept; a relative one is placed under the project root |
| VisionAI.Base64EmptyOnlyForEmpty | src/ai/vision_analyzer.py:75-76 | the base64 text is empty only for an empty file |
| VisionAI.EncodeImage | src/ai/vision_analyzer.py:90-118 | fails iff the resolved file is missing or unreadable; otherwise its base64 length |
| VisionAI.CallApi | src/ai/vision_analyzer.py:194-247 | returns the raw content of the first choice; an error status, no choices or a first choice without content raises |
| VisionAI.FirstAnswer | src/ai/vision_analyzer.py:178-189 | the first attempt below the limit whose call returns, every earlier one raising; None iff all raise |
| VisionAI.CallApiWithRetry | src/ai/vision_analyzer.py:163-192 | returns the first successful reply after that many calls and one sleep per failure; after all calls fail it raises, having slept between calls but not after the last |
| VisionAI.RetryAnswersIffSomeAttempt | src/ai/vision_analyzer.py:178-192 | the retries return a reply iff some attempt within the limit does |
| VisionAI.DefaultAnalysis | src/ai/vision_analyzer.py:271-278 | the default analysis has exactly the six documented keys |
| VisionAI.DefaultIsReassuring | src/ai/vision_analyzer.py:272-275 | the default says the student is at the desk, not playing and not away |
| VisionAI.ParseResponse | src/ai/vision_analyzer.py:249-278 | the parsed raw content, or the default when it is not JSON; a non-string raw content raises |
| VisionAI.Analyze | src/ai/vision_analyzer.py:51-88 | an image that cannot be encoded, or encodes to nothing, raises before any call; otherwise the parse of the first successful reply, or an exception when every attempt fails |
| WebServer.FailedFrom | web_server.py:87-120 | the checks from the k-th on raise iff one of them does; otherwise there is at most one label per check, and none iff every check passes |
| WebServer.CheckRules | web_server.py:81-120 | raises iff a check does (a missing rule); otherwise correct iff no label failed, with the labels in check order |
| WebServer.AtDeskReportedFirst | web_server.py:90-93 | when the desk check fails, its label comes first in the failed list |
| WebServer.Outcomes | web_server.py:87-120 | one outcome per check, in check order |
| WebServer.FailingChecks | web_server.py:87-120 | the positions of the failing checks, each within range |
| WebServer.FailingChecksExactly | web_server.py:87-120 | the positions listed are exactly the failing checks from the k-th on, in increasing order |
| WebServer.FailedInCheckOrder | web_server.py:87-120 | when no check raises, the n-th failure label belongs to the n-th failing check, so every failing check is reported once, in check order |
| WebServer.Judge | web_server.py:172-199 | a failure notifies with the failed labels; an elapsed notify interval notifies with a periodic update; an elapsed stop interval since the last correct result stops; a missing or non-numeric interval that is consulted raises |
| WebServer.NoStopBeforeFirstCorrect | web_server.py:190-199 | monitoring never stops before its first correct result |
| WebServer.FirstNotificationNeedsFailure | web_server.py:172-188 | before any notification, a correct result does not notify |
| WebServer.MonitorServer.constructor | web_server.py:35-61 | starts not running with the configured rules and intervals, no history, no times and no calls |
| WebServer.MonitorServer.Pass | web_server.py:142-219 | a capture, analysis or check exception records nothing; otherwise the snapshot is recorded (newest 100), then the pass stops with the stop message, notifies, or goes on, as the verdict says |
| WebServer.MonitorServer.Handle | web_server.py:155-212 | records the checked snapshot, then acts on the verdict, an exception there leaving the record in place |
| WebServer.MonitorServer.Record | web_server.py:157-181 | appends the history entry capped at 100, sets the capture time and, for a correct result, the last correct time |
| WebServer.MonitorServer.Conclude | web_server.py:190-212 | a stop sends the danger stop message and clears running; otherwise the notification is sent and the notify time set iff the verdict notifies |
| WebServer.MonitorServer.Start | web_server.py:657-670 | succeeds iff not running; then clears the stop event and starts one thread; afterwards running |
| WebServer.MonitorServer.Stop | web_server.py:673-682 | succeeds iff running; then sets the stop event; afterwards not running |
| WebServer.MonitorServer.PostConfig | web_server.py:685-698 | merges the posted rules then intervals; the reply succeeds iff both parts are objects and `save_config` does not raise; a rules merge done before the intervals part raised is kept, and both merges are kept when the save raises |
| WebServer.MergeIsPartial | web_server.py:693-694 | a merge replaces exactly the posted keys and keeps the others |
| WebApp.ServeImage | web/app.py:536-564 | 400 iff the path is missing or empty; 403 iff it contains ".." or lies outside data/captures/; 200 only for an allowed path to an existing file |
| WebApp.GuardIgnoresDisk | web/app.py:549-550 | a refused path is refused whatever the disk holds |
| WebApp.ParentStepRefused | web/app.py:549-550 | a path that climbs out of data/captures/ with ".." is refused |
| WebApp.FirstTouser | web/app.py:347-352 | the first line starting with WECHAT_TOUSER=, or None when no line does |
| WebApp.ConcatCons | web/app.py:359-360 | the written text of a line followed by more lines is that line followed by their text |
| WebApp.ReadLines | web/app.py:343-344 | `readlines()`: every line is non-empty, holds a newline only at its end, and every line but the last ends with one; no lines iff the text is empty |
| WebApp.ConcatReadLines | web/app.py:343-344 | writing the lines read gives the file text back |
| WebApp.ReadLinesOneLine | web/app.py:343-344 | a text with no newline before its last character is read as one line |
| WebApp.ReadLinesAfterLine | web/app.py:343-344 | a newline-ended line is read as a line of its own, whatever follows it |
| WebApp.ReadLinesConcat | web/app.py:343-360 | reading back the text written from well-formed lines gives those lines |
| WebApp.RewrittenAsWritten | web/app.py:346-356 | as written: replaces the first recipient line, or appends a new one after the last line as it stands |
| WebApp.AppendGluedToLastLine | web/app.py:355-356 | for a .env whose last line lacks a newline, the appended recipient line is glued onto it |
| WebApp.SecondSaveAfterGlueAppendsAgain | web/app.py:343-360 | after a save glued "WECHAT_TOUSER=bob" to the line "A=1", a second save reads the glued line back, finds no line starting with the prefix, and appends "WECHAT_TOUSER=alice" again |
| WebApp.Terminated | web/app.py:355-356 | the lines unchanged except that a last line is ended with a newline |
| WebApp.Rewritten | web/app.py:346-356 | replaces the first recipient line, or appends one after ending the last line |
| WebApp.ConcatSnoc | web/app.py:359-360 | writing one more line adds it at the end of the file text |
| WebApp.ConcatEndsWithNewline | web/app.py:359-360 | a file whose last line ends with a newline ends with a newline |
| WebApp.AppendedLineStartsLine | web/app.py:355-360 | with the correction, an appended recipient line starts its own line of the written file and ends it |
| WebApp.AppendAsWrittenStartsLineIff | web/app.py:355-360 | as written, the appended recipient line follows the old text unchanged and starts its own line iff the old text is empty or ends with a newline |
| WebApp.WebApp.constructor | web/app.py:41-46 | starts with no services, no scheduler, no preview and a 10-second default preview, with the given .env text and WECHAT_TOUSER |
| WebApp.WebApp.InitServices | web/app.py:41-103 | builds the services once, the messenger for the process's current WECHAT_TOUSER (:71), starting the scheduler when enabled; later calls change nothing |
| WebApp.WebApp.StartMonitor | web/app.py:398-441 | 500 on an exception, 400 when already monitoring; the preview opens for the configured duration iff the start succeeded, the preview is enabled and the duration is positive |
| WebApp.WebApp.StopMonitor | web/app.py:444-472 | 200 iff the stop succeeded, which closes the preview; 400 when not monitoring; 500 on an exception |
| WebApp.WebApp.PreviewStatus | web/app.py:569-598 | the seconds left of an open preview; an elapsed preview is closed and reports 0 |
| WebApp.WebApp.RewriteLines | web/app.py:346-356 | the loop computes the rewrite of the .env lines as written |
| WebApp.WebApp.SaveRecipients | web/app.py:316-395 | 500 for a body or recipients of the wrong type; 400 for empty recipients or no .env; otherwise the .env text becomes the lines `readlines()` gives it, rewritten as written with the stripped list, and written back; the environment and, once services exist, the messenger recipient become that list |

## Left out

- Files, databases and logs: `MonitorConfig.load`/`save`, `save_config` in web_server.py, the SQLite store behind `storage.save` and every `Logger` write. A record save of the monitoring service appears only as the `Saved` event it hands over; the store swallows its own failures, and they are not modelled. A failing file write in `MonitorConfig.save` is not caught and raises out of `update`; it is not modelled (see `Config.UpdateSpec` below). A failing `save_config` is the `saveRaises` parameter of `WebServer.MonitorServer.PostConfig`.
- Threads, locks and sleeps: `_monitor_loop`, `_run_preview_phase`, `_run_monitor_loop` and `_sleep_with_interrupt` of the monitoring service, and the outer `while` and `stop_event.wait` of web_server.py's `monitor_loop`. A thread is a flag, and "called from the monitor thread" is the parameter `fromWorker`. Waits and the settle delay are not timed.
- Hardware and HTTP: cv2 reads and writes, PIL resizing, httpx requests and replies. Each is a parameter that says what the call returned or that it raised. The result of `cv2.imwrite` is not checked by the source and is not modelled.
- VisionMod.Camera.Capture: each read is a parameter that returns a frame, returns none or raises; an `import cv2` or a `cv2.imwrite` that raises inside the `try`, which the handler would log and re-raise, is not modelled.
- Base64: only the length of the encoded text is modelled, not its characters. `_build_prompt` and `test_connection` in src/ai/vision_analyzer.py only build a constant string or make a request.
- Regular expressions: `re.match` and `re.compile` are oracle parameters, so case-insensitive, start-anchored matching is assumed, not modelled.
- `json.loads` is an oracle parameter. Python's `int()` of text (`Common.ParseInt`) is modelled for decimal digits with an optional sign and surrounding whitespace (space, \t, \n, \r, \v and \f); Python also accepts underscores between digits, non-ASCII digits and Unicode whitespace.
- Common.Trim: `str.strip()` removes only space, \t, \n, \r, \v and \f; Python also strips \x1c-\x1f and Unicode whitespace such as U+0085, U+00A0 and U+3000.
- Floating point: a JSON float is a `VFloat` holding its text. Only `int()` reads it as a number (`Config.IntOf` through `Config.TruncFloat`), truncating a plain decimal text toward zero; an exponent form such as `1e5` counts as raising, where Python converts it. Everywhere else a float is not a number, so a float `preview_duration` counts as raising in `WebApp.WebApp.StartMonitor`, where Python would compare and store it. `round(remaining, 1)` becomes whole seconds, and every clock is whole seconds or a `(date, hour, minute)` reading.
- `str()` of dicts and of containers nested inside a list is a placeholder, not Python's exact text.
- Read-only getters: every `get_status`, `get_mode`, `is_mode`, `is_preview_client`, the `current_mode` property, `has_adapters`, `get_rules`, and web_server.py's `/api/status` and `GET /api/config`. They only report fields the model already exposes.
- Singleton plumbing: `CameraSingleton.__new__`, `get_camera_singleton`, `get_camera_service`, `create_simple_rule_checker` and `create_simple_monitor_service`. They only construct the classes modelled here. `create_im_module` and `create_vision_module` do the same for the older loop.
- Lifecycle calls that only log or release a handle: `initialize`/`shutdown` of `KimiVisionAnalyzer`, `TelegramNotifier`, `IMManager` and `BaseModule`, `Scheduler.initialize`, `MessengerService.stop_receiving`/`shutdown`, `MessageAdapter.stop_receiving`/`initialize`/`shutdown`, and `WeChatAdapter.initialize`. `Camera.initialize` and `reinitialize` (modules/vision) probe devices and are not modelled; `Camera.Capture` takes the handle as given.
- `WeChatNotifier._send_text_card` and `_send_markdown` in modules/im/__init__.py are never called by `notify` and only post one request each.
- `MessengerService.send_image` is a direct call of `_send_to_all_image`, so `Messenger.MessengerService.SendToAllImage` stands for both.
- Omitted `Message` fields: id, timestamp and sender, which no modelled decision reads.
- Path handling: paths are strings. `Path` normalisation and symbolic links are not modelled, so the guard of `WebApp.ServeImage` is a check on the text of the path only. web_server.py's `/image/<path>` route serves any path it is given, and it is left out together with the other Flask routes, templates, `/video_feed` and its MJPEG generator, and the record pages.
- In web_server.py's `monitor_loop`, `scheduler.state_manager.update_state(analysis)` is not kept as a separate history. The notification reads the same analysis, and that analysis is passed to `CoreSched.Calls` directly.
- MonitorSvc.RuleOf: a dict rule keeps only its string fields, so a rule whose "key" is not a string counts as lacking it and is rejected, where Python's validation accepts any key; a rule whose "regexp" is not a string is rejected as Python does, but a later `check` then raises at once, where Python reads the rule and reports a missing analysis key without compiling the pattern.
- MonitorSvc.RulesOf: an element that is not a dict (a number, a string, a list) becomes a rule with no fields, rejected like Python's `TypeError` or `ValueError`; a later `check` over it raises the model's `KeyError` text, not Python's text. A string element that contains both "key" and "regexp" as substrings passes Python's membership test before failing; the model rejects it at once.
- WebApp.WebApp.StopMonitor: the outcome of `stop_monitor` is a parameter; whether that call hangs on the camera lock is modelled in `MonitorSvc.SimpleMonitorService.StopMonitor`.
- Config.UpdateSpec: writing the file in `save` (its directory, its encoding, a failing write) is not modelled; only whether `save` or its `to_dict` is hidden by a stored value decides whether it raises.
- VisionMod.Completion: a first choice that is not a dict, or whose `message` is not a dict, makes Python's `.get` raise an AttributeError; the model cannot hold such a reply.
- WebApp.ReadLines: the file is opened in text mode, which reads "\r\n" and a lone "\r" as "\n"; the model splits at "\n" only and keeps "\r" as it is. UTF-8 decoding is not modelled.
- CoreSched.Scheduler.AnalyzeAndDecide: the analysis is a dict (`map<string, Value>`), so a vision reply that parses to a JSON list, number or string cannot be given. Python records such a reply in the state manager first and only then raises in `_make_decision`; that path is not modelled.
- WebServer.MonitorServer.PostConfig: a posted list of key/value pairs, which `dict.update` also accepts, is treated as raising.
- Schedule.ParseHHMM: its own contract only states the shape of a time that parses; the round-trip lemmas `Schedule.ParseHHMMDigits` and `Schedule.ParseHHMMRoundTrip` state what it parses.
- The project root wiring: `create_messenger_service` passes `project_root` to a `WeChatAdapter` constructor that does not accept it. The model builds the adapter from the settings it does accept.

Three behaviours of the code that the model keeps as written:
- A rule whose key is missing from the analysis fails with the message "key: None", not a "field missing" message.
- `CameraSingleton.switch_to_mode` does not retry a failed open.
- The scheduler's automatic stop checks only that the previous minute was before the stop time, not that it was inside the window.

## Findings

| source | as written | input that shows it | evidently intended | confidence | as-written member | corrected member |
|---|---|---|---|---|---|---|
| src/vision/camera_service.py:235-250 | `shutdown` holds the non-reentrant `_lock` while calling `stop_preview`, which takes `_lock` again | shutdown while in preview mode | stop the preview without taking the lock a second time, then clear the state and shut the camera down | not executed | CameraSvc.CameraService.ShutdownAsWritten | CameraSvc.CameraService.Shutdown |
| src/vision/camera_singleton.py:80-88 | the settle delay tests `self.mode`, which the release has just set to None | switch from preview to capture with an open handle | wait after every release of a handle | not executed | CameraDevice.SettleDelayNeverFires | CameraDevice.CameraSingleton.SwitchToModeIntended |
| src/messenger/models/message.py:182-193 | `send_card` stores a missing title or url as None whenever the other one is given | `send_card` with url "u" and no title; the default `send_card` then sends "None" followed by the content and the url | store a missing title or url as "" | not executed | Adapters.CardWithoutTitleAsWritten | Adapters.CardRoutes |
| web/app.py:355-356 | the new WECHAT_TOUSER line is appended after the last line as it stands | a .env holding "A=1" with no final newline, recipients "bob": the file becomes "A=1WECHAT_TOUSER=bob" followed by a newline, and a second save with "alice" finds no recipient line in it and appends once more (`WebApp.SecondSaveAfterGlueAppendsAgain`) | end the last line first, so the setting gets its own line | not executed | WebApp.AppendGluedToLastLine | WebApp.AppendedLineStartsLine |
