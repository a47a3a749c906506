# Settings menus and voice pipeline of a Telegram chat bot, in Dafny

This project models two parts of a Telegram bot that relays chats to a
conversational AI:

- the settings-menu state machine of `bot/cmds.py`;
- the helpers of `bot/utils.py` that the state machine uses.

The settings-menu state machine covers these pieces:

- the callback tokens of the inline keyboards, and how `button_handler`
  dispatches on them;
- the per-chat preference record (voice, conversation style, text-to-speech
  flag) that a button press rewrites;
- the screen each menu builds from the preferences and the voice catalog;
- the `voice` handler, modelled as a trace of the events it produces.

The helpers are:

- `chunk`;
- `list_voices`, which groups the provider's voices and caches them in a
  global slot;
- the status poll loop of `automatic_speech_recognition`;
- `NoLog.filter`, `button_query`, `is_group` and `button`.

Layout:

- `outcomes.dfy` holds Option, Result and the Python exceptions that matter
  (`KeyError`, `IndexError`, `ValueError`, and the provider failing).
- `strings.dfy` holds the Python string operations the code relies on:
  - `str.split`, which always yields at least one field;
  - `startswith` and the `in` substring test;
  - `upper` on ASCII letters;
  - code-point ordering and `sorted`;
  - `str(int)`.
- `utils.dfy` holds module `Utils`, the model of `bot/utils.py`.
- `menus.dfy` holds module `Menus`, the pure part of `bot/cmds.py`:
  - the token builders and the parser `Parse`;
  - the screen builders;
  - `Handle`, the function that specifies one `button_handler` call.
- `cmds.dfy` holds module `Cmds`, the stateful part of `bot/cmds.py`:
  - the preference store as a class;
  - the menu handlers and `ButtonHandler` as methods proved against `Handle`;
  - the `voice` handler as a method proved against `VoiceTrace`.

Conventions of the model:

- A Python exception that escapes a handler is a `Raised(fault)` effect.
- An exception inside `automatic_speech_recognition` is a step of the
  provider's script (`Raise(HttpException)` or `Raise(OtherException)`).
- The script lists the provider's answers in order:
  - `steps[0]` answers the upload;
  - `steps[1]` answers the creation of the transcription job;
  - every later step answers one status poll.

  A script that runs out before a terminal status stands for a loop that has
  not ended.

## Model

| member | source | states |
|---|---|---|
| Strings.Split | bot/cmds.py:29 | `str.split` yields at least one field |
| Strings.SplitAtSeparator | bot/cmds.py:29 | splitting `x + sep + y` gives the fields of `x` followed by those of `y` |
| Strings.ContainsOccurrence | bot/utils.py:49 | the substring test `lf in message` holds exactly when the needle occurs at some offset |
| Strings.Upper | bot/cmds.py:81 | `upper` keeps the length and maps each character through the ASCII case mapping |
| Strings.LexLeqIsTotalOrder | bot/cmds.py:83 | the string order used by `sorted` is reflexive, antisymmetric, transitive and total |
| Strings.Sort | bot/cmds.py:144 | `sorted` of a list is ordered and a permutation of it, duplicates kept |
| Strings.SortedKeys | bot/cmds.py:83 | `sorted` of a dict's keys is ordered, lists every key, and each key once |
| Utils.LangOf | bot/utils.py:130 | a record's language is its locale up to the first `-` |
| Utils.Group | bot/utils.py:129-136 | the records are inserted one by one, in provider order, under language, then gender |
| Utils.Fetch | bot/utils.py:125-137 | a filled slot is returned as it is; otherwise the slot is set to an empty catalog, then the provider is asked and its records are grouped into that slot, or its failure escapes and the empty catalog stays |
| Utils.Polling | bot/utils.py:192-203 | the loop from one answer on: a terminal status returns the answer's text; otherwise each later step is one poll, an exception ending the loop through the `except` |
| Utils.Transcription | bot/utils.py:178-207 | the upload, then the job creation, each of which may raise, then the poll loop from the creation's answer |
| Utils.NullStatusKeepsPolling | bot/utils.py:192-198 | a `null` status is not terminal, so the loop keeps polling until a terminal one |
| Utils.Button | bot/utils.py:106-107 | one button per `(label, data)` pair, in order, with that label and callback data |
| Utils.IsGroup | bot/utils.py:102-103 | a chat is a group exactly when its id is negative |
| Utils.Chunk | bot/utils.py:120-122 | the slices concatenate back to the list; each one is non-empty and at most `size` long; all but the last are exactly `size` long |
| Utils.NoLog.Filter | bot/utils.py:46-52 | a record is kept exactly when no entry of `LOG_FILT` is a substring of its message |
| Utils.ButtonQuery | bot/utils.py:114-117 | finds the text of the first button with data `response_<index>`; gives None when every row has one button and none matches; raises ValueError at the first row before a match that has other than one button |
| Utils.AddVoice | bot/utils.py:132-136 | one insertion adds the language and the gender, and leaves every other language unchanged |
| Utils.AddVoiceLookup | bot/utils.py:132-136 | one insertion appends the name under its language and gender, and changes no other list |
| Utils.GroupLookup | bot/utils.py:129-136 | the list under a language and gender holds the short names of exactly the records with that language and gender, in provider order, duplicates kept |
| Utils.GroupLanguages | bot/utils.py:130-133 | a language is a key exactly when some record's locale has it before its first `-` |
| Utils.GroupGenders | bot/utils.py:131-135 | a gender is present under a language exactly when some record has both |
| Utils.GroupSize | bot/utils.py:129-136 | the catalog holds as many names as the provider listed records |
| Utils.AddVoiceSize | bot/utils.py:136 | each insertion adds exactly one name |
| Utils.CachedCatalogIsFinal | bot/utils.py:126-137 | once the slot is set, the call returns it unchanged, whatever the provider does |
| Utils.FailedFetchIsNotRetried | bot/utils.py:126-128 | a failed first fetch leaves an empty catalog cached, and the next call returns that empty catalog without fetching |
| Utils.Data.ListVoices | bot/utils.py:125-137 | the slot and the result are those `Fetch` gives for the old slot; the loop builds the grouped catalog record by record |
| Utils.TerminalAt | bot/utils.py:190-204 | with the first terminal status at step `j`, the result is that answer's text after `j - 1` polls, and later steps are never read |
| Utils.RaisedAt | bot/utils.py:205-207 | an exception at step `j` ends the exchange; an `HTTPException` gives the default text, another kind escapes |
| Utils.Exhausted | bot/utils.py:195-203 | while no status is terminal, every remaining step is read as a poll and no result is produced |
| Utils.AutomaticSpeechRecognition | bot/utils.py:178-207 | the loop's outcome and number of polls are those of `Transcription` |
| Menus.Parse | bot/cmds.py:22-50 | the token tests of `button_handler` in the source's order, each branch reading its fields from the end of `split("_")`; a `voice_set` with fewer than three fields keeps its voice and has no screen to return to; any other token is ignored |
| Menus.Marked | bot/cmds.py:139 | the current name is framed by `»` and `«`, any other is left as it is |
| Menus.Toggled | bot/cmds.py:49 | a flag of 1 becomes 0 and any other becomes 1 |
| Menus.SettingsScreen | bot/cmds.py:57-61 | the top screen's two buttons, opening the language menu and the toggle screen |
| Menus.LangScreen | bot/cmds.py:79-85 | the voice header, the sorted languages in rows of six, then a back row |
| Menus.GenderScreen | bot/cmds.py:103-114 | KeyError for an unknown language, else the sorted genders one per row, then the back row |
| Menus.VoiceScreen | bot/cmds.py:135-154 | KeyError for an unknown language or gender, else the sorted voices one per row with the current one framed, then the back row |
| Menus.StyleScreen | bot/cmds.py:171-182 | the styles in declaration order with the current one framed, then the back row |
| Menus.TtsScreen | bot/cmds.py:197-202 | the toggle labelled `ON` for a flag of 1 and `OFF` otherwise, then the back row |
| Menus.ParseGenderToken | bot/cmds.py:28-30 | `gender_menu_<lang>` parses back to the gender screen of `lang` |
| Menus.ParseVoiceMenuToken | bot/cmds.py:31-33 | `voice_menu_<lang>_<gend>` parses back to the voice screen of `lang` and `gend` |
| Menus.ParseVoiceSetToken | bot/cmds.py:34-37 | `voice_set_<lang>_<gend>_<voice>` parses back to setting `voice` and returning to `lang`, `gend` |
| Menus.ParseStyleSetToken | bot/cmds.py:40-43 | `style_set_<s>` parses back to setting style `s` |
| Menus.ParseShortVoiceSet | bot/cmds.py:34-37 | `voice_set<rest>` without a further `_` stores `set<rest>`, its last field, as the voice, and has no screen to return to |
| Menus.ParseToggleToken | bot/cmds.py:48-50 | `tts_toggle` parses to the toggle |
| Menus.ToggleTwice | bot/cmds.py:49 | toggling a stored flag of 0 or 1 twice restores it |
| Menus.Apply | bot/cmds.py:36-49 | a press rewrites at most the pressing chat's record and never adds or removes a chat |
| Menus.MarkedIffCurrent | bot/cmds.py:139 | a label is framed by `»` and `«` exactly when it names the current choice |
| Menus.LangScreenLayout | bot/cmds.py:79-85 | language buttons come six to a row (only the last row may be shorter, none is empty), then one back-to-settings row |
| Menus.LangScreenLists | bot/cmds.py:79-84 | read row by row, the language buttons are those of the sorted languages, each once |
| Menus.LangRowRoundTrip | bot/cmds.py:81 | each language button is labelled `lang.upper()`, and its token opens that language's gender screen |
| Menus.GenderScreenShape | bot/cmds.py:103-114 | one row per sorted gender, carrying `voice_menu_<lang>_<gend>`, then the two back buttons |
| Menus.GenderScreenRows | bot/cmds.py:103-114 | an unknown language raises KeyError; otherwise one single-button row per gender of the language, then the back row |
| Menus.GenderScreenOrder | bot/cmds.py:105 | gender labels come in sorted order |
| Menus.GenderScreenCovers | bot/cmds.py:103-106 | every gender of the language has a button |
| Menus.GenderButtonRoundTrip | bot/cmds.py:104 | each gender button's token opens the voice screen of its language and gender |
| Menus.VoiceScreenShape | bot/cmds.py:135-154 | one row per sorted stored voice, labelled with the framed-or-plain name and carrying `voice_set_<lang>_<gend>_<voice>`, then the three back buttons |
| Menus.VoiceScreenRows | bot/cmds.py:135-154 | one row per stored voice in sorted order, duplicates kept; each token sets its voice and returns to this screen; the label is framed exactly when the voice is current; then the three back buttons |
| Menus.VoiceScreenMarksCurrent | bot/cmds.py:139 | the current voice's framed button is on the screen exactly when the voice is stored under that language and gender |
| Menus.StyleScreenRows | bot/cmds.py:171-182 | one row per style in declaration order; each token sets its style; exactly the current style is framed; then the back row |
| Menus.TtsScreenLabel | bot/cmds.py:197-202 | the toggle reads `TTS: ON` exactly when the stored flag is 1 and `TTS: OFF` otherwise; its token toggles |
| Menus.Handle | bot/cmds.py:17-50 | a chat that is not stored gets nothing: no answer, no change, no screen; a stored chat is always answered; no chat is added or removed; no other chat's record changes |
| Menus.VoiceSetRedisplays | bot/cmds.py:34-37 | `voice_set` stores the voice, changes no other field, and redisplays the voice screen it came from |
| Menus.VoiceSetShowsChoice | bot/cmds.py:34-37 | after `voice_set`, the redisplayed screen frames the chosen voice |
| Menus.StyleSetRedisplays | bot/cmds.py:40-43 | `style_set` stores the style, changes no other field, and redisplays the style screen |
| Menus.TtsToggleRedisplays | bot/cmds.py:48-50 | `tts_toggle` flips the flag, changes no other field, and redisplays the toggle, which then shows the opposite state |
| Menus.UnmatchedTokenIsIgnored | bot/cmds.py:22-50 | a token no branch tests for changes no record and renders nothing |
| Cmds.Store.AddUser | bot/cmds.py:56 | a new record with the defaults is stored under the chat |
| Cmds.Store.SetVoice | bot/cmds.py:36 | only the chat's voice is rewritten |
| Cmds.Store.SetStyle | bot/cmds.py:42 | only the chat's style is rewritten |
| Cmds.Store.ToggleTts | bot/cmds.py:49 | only the chat's flag is flipped |
| Cmds.Settings | bot/cmds.py:53-69 | an unknown chat is registered first; the top screen is shown |
| Cmds.LangMenu | bot/cmds.py:72-93 | nothing for an unknown chat; otherwise the catalog is fetched through the cache and the language screen is shown, or the fetch failure escapes |
| Cmds.GenderMenu | bot/cmds.py:96-122 | as for the language menu, and an unknown language escapes as KeyError |
| Cmds.VoiceMenu | bot/cmds.py:125-162 | as for the language menu, and an unknown language or gender escapes as KeyError |
| Cmds.StyleMenu | bot/cmds.py:165-191 | nothing for an unknown chat; otherwise the style screen for the stored style |
| Cmds.TtsMenu | bot/cmds.py:194-210 | nothing for an unknown chat; otherwise the toggle screen for the stored flag |
| Cmds.Tts | bot/cmds.py:213-222 | the last reply is spoken exactly when one is remembered; otherwise the bot says it cannot remember |
| Cmds.ButtonHandler | bot/cmds.py:17-50 | the new store, the new cache slot, the answer and the effect are those `Handle` gives |
| Cmds.Perform | bot/cmds.py:22-50 | the store is written as the action asks before the screen is rebuilt; a short `voice_set` raises IndexError after storing the voice |
| Cmds.OpenMenu | bot/cmds.py:22-47 | opening a menu leaves the store unchanged and shows what that menu renders, fetching the catalog through the cache when the menu needs it |
| Cmds.JobName | bot/cmds.py:241 | the chat-action job's name: the action's name, `_`, the chat id in decimal |
| Cmds.VoiceTrace | bot/cmds.py:225-245 | the events of `voice` as written: the token checks, the activity check, then download, schedule, recognition, and only on a returned text the job's removal and the query |
| Cmds.ReleasingTrace | bot/cmds.py:239-241 | as `VoiceTrace`, except that an escaping exception removes the job as well |
| Cmds.VoiceQueriesNullOnError | bot/cmds.py:239-243 | a job that ends in `error` with a `null` text passes `None` to the query |
| Cmds.Voice | bot/cmds.py:225-245 | the events and the ending are those of `VoiceTrace`, the code as written |
| Cmds.VoiceNeedsToken | bot/cmds.py:228-233 | a missing or placeholder token only logs: nothing is downloaded, scheduled or recognised |
| Cmds.VoiceIgnored | bot/cmds.py:227-235 | an unknown chat, or an inactive conversation, produces no event |
| Cmds.VoiceQueriesTranscript | bot/cmds.py:236-243 | with a terminal answer, the order is download, schedule, recognise, delete the job, then run the query on that answer's text |
| Cmds.VoiceAfterHttpException | bot/cmds.py:240-243 | an `HTTPException` during recognition still deletes the job, and the query runs on the default text |
| Cmds.IndicatorLeaks | bot/cmds.py:239-241 | as written, any other exception during recognition escapes after the job was scheduled and before it was deleted |
| Cmds.IndicatorLeakExample | bot/cmds.py:239-241 | a failing upload leaves the schedule without a deletion |
| Cmds.VoiceReleasing | bot/cmds.py:239-241 | the corrected handler's events are those of `ReleasingTrace` |
| Cmds.IndicatorReleased | bot/cmds.py:239-241 | with the deletion in a `finally`, every call that schedules the job and ends also deletes it under the chat's job name, right after recognition and exactly once |
| Cmds.ReleasingAgreesOnQueries | bot/cmds.py:236-243 | the correction changes nothing on the paths where no exception escapes |

## Left out

- `bot/hdext.py` is not part of this model. It wraps the `edge_tts` stream
  and Telegram's `reply_voice`.
- Network calls:
  - the HTTP requests to the recognition provider are replaced by a script of
    answers;
  - the five-second sleep between polls is not modelled;
  - `edge_tts.list_voices` is a `Provider` value that lists records or fails.
- Telegram I/O:
  - `send` and `edit` are a `Delivery` tag on the shown screen;
  - their `BadRequest` handling is not modelled;
  - the answer to the callback is a boolean;
  - the voice file's download and the query's run are trace events;
  - a download that raises is not modelled.
- The `database` module is not part of this model. The store is a map from
  chat id to record:
  - `toggle_tts` is taken to flip between 1 and 0, the 1 being "on";
  - the defaults of `add_user` are a parameter of the store;
  - the setters do nothing for a chat that is not stored, a case the handlers
    never reach.
- Functions not part of this model:
  - `ut.Query` is replaced by the `Spoken` effect and the `RunQuery` event;
  - `action_schedule` and `delete_job` are replaced by events;
  - `is_active_conversation` is replaced by a boolean parameter.
- Configuration and filesystem: `set_up`, `rename_files`, `path`, `exists`
  and `passwd_correct` are not modelled. `settings` is a lookup in a map
  given as a parameter.
- The markdown regular expressions of `bot/utils.py` are not modelled. The
  code shown never uses them.
- Concurrency is not modelled: neither two updates on one chat at once, nor
  two first fetches of the catalog at once.
- The names of `EdgeGPT.ConversationStyle` are taken as `creative`,
  `balanced` and `precise`.
- Utils.Chunk: requires a positive size. With size 0, Python's
  `range(0, n, 0)` raises ValueError. That case is not modelled, because the
  only caller uses 6.
- Strings.Upper: maps only ASCII letters. Python's Unicode case mapping is
  not modelled.
- Utils.ButtonQuery: does not model a message without a keyboard, where
  `reply_markup` is None and an AttributeError is raised.
- Utils.AutomaticSpeechRecognition: a JSON answer that lacks a key the code
  reads is modelled as a raised non-HTTP exception, which is the `KeyError` the
  lookup raises. A `null` value is kept as `None`: a `null` status is not
  terminal, so the loop polls again (`Utils.NullStatusKeepsPolling`), and a
  `null` text is returned as it is and reaches the query
  (`Cmds.VoiceQueriesNullOnError`).
- Utils.AutomaticSpeechRecognition: a poll loop that never sees a terminal
  status is modelled as a script that runs out, so it ends as `Unfinished`.
- The second `query.data == "tts"` test of `button_handler` can never be
  reached. `Parse` keeps it in place, and no state change follows from it.
- `Cmds.ButtonHandler` dispatches through `Parse`, where the source tests
  the token inline. `Parse` makes the same tests in the same order.

Two behaviours of the code a reader might not expect:

- `list_voices` sets the cache slot to an empty catalog before it fetches
  (bot/utils.py:127-128). A failed fetch therefore leaves an empty catalog
  cached, and later calls do not retry (`Utils.FailedFetchIsNotRetried`).
- The chat-action job is deleted only when recognition returns a text
  (bot/cmds.py:240-241). See the finding below.

## Findings

| source | as written | input that shows it | evidently intended | confidence | as-written member | corrected member |
|---|---|---|---|---|---|---|
| bot/cmds.py:239-241 | `delete_job` runs after `automatic_speech_recognition` without a `finally`. The function catches only `aiohttp.web.HTTPException` (bot/utils.py:205), a server-side class, so client errors and missing JSON keys escape | an active conversation with a valid token, whose upload raises a client error (script `[Raise(OtherException)]`): the trace is download, schedule, recognise, with no deletion | the `RECORD_VOICE` indicator job is deleted on every path that leaves recognition | medium, not executed | Cmds.IndicatorLeaks | Cmds.IndicatorReleased |
