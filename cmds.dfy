/** The stateful part of bot/cmds.py: the preference store the handlers update,
    the menu handlers, `button_handler`, `settings` and the `voice` handler. */
module Cmds {
  import opened Outcomes
  import opened Strings
  import opened Utils
  import opened Menus

  /** The per-chat preference records kept by the `database` module. */
  class Store {
    var users: map<int, Preference>
    /** The record `add_user` stores for a new chat. */
    const defaults: Preference

    constructor (defaults: Preference)
      ensures users == map[] && this.defaults == defaults
    {
      users := map[];
      this.defaults := defaults;
    }

    /** `db.cached`. */
    predicate Cached(cid: int)
      reads this
    {
      cid in users
    }

    /** `db.add_user`. */
    method AddUser(cid: int)
      modifies this
      ensures users == old(users)[cid := defaults]
    {
      users := users[cid := defaults];
    }

    /** `db.set_voice`: rewrites the voice of a stored chat. */
    method SetVoice(cid: int, voice: string)
      modifies this
      ensures users == Apply(old(users), cid, Action.SetVoice(voice, None))
    {
      if cid in users {
        users := users[cid := users[cid].(voice := voice)];
      }
    }

    /** `db.set_style`: rewrites the style of a stored chat. */
    method SetStyle(cid: int, style: string)
      modifies this
      ensures users == Apply(old(users), cid, Action.SetStyle(style))
    {
      if cid in users {
        users := users[cid := users[cid].(style := style)];
      }
    }

    /** `db.toggle_tts`: flips the stored flag of a stored chat. */
    method ToggleTts(cid: int)
      modifies this
      ensures users == Apply(old(users), cid, Action.ToggleTts)
    {
      if cid in users {
        users := users[cid := users[cid].(tts := Toggled(users[cid].tts))];
      }
    }
  }

  // ---------------------------------------------------------------------------
  // Menu handlers

  /** `settings`: registers an unknown chat, then shows the top screen. */
  method Settings(store: Store, cid: int, delivery: Delivery) returns (effect: Effect)
    modifies store
    ensures store.users == if cid in old(store.users) then old(store.users)
                           else old(store.users)[cid := store.defaults]
    ensures effect == Shown(delivery, SettingsScreen())
  {
    if !store.Cached(cid) {
      store.AddUser(cid);
    }
    effect := Shown(delivery, SettingsScreen());
  }

  /** `lang_menu`. */
  method LangMenu(store: Store, data: Data, cid: int, provider: Provider, delivery: Delivery)
    returns (effect: Effect)
    modifies data`tts
    ensures cid !in store.users ==> effect == Silent && data.tts == old(data.tts)
    ensures cid in store.users ==>
      (data.tts, effect) == Display(old(data.tts), provider, LangView, store.users[cid], delivery)
  {
    effect := Silent;
    if store.Cached(cid) {
      var voices := data.ListVoices(provider);
      match voices
      case Err(f) => effect := Raised(f);
      case Ok(cat) => effect := Shown(delivery, LangScreen(store.users[cid].voice, cat));
    }
  }

  /** `gender_menu`: an unknown language escapes as KeyError. */
  method GenderMenu(store: Store, data: Data, cid: int, lang: string, provider: Provider,
                    delivery: Delivery) returns (effect: Effect)
    modifies data`tts
    ensures cid !in store.users ==> effect == Silent && data.tts == old(data.tts)
    ensures cid in store.users ==>
      (data.tts, effect) == Display(old(data.tts), provider, GenderView(lang), store.users[cid], delivery)
  {
    effect := Silent;
    if store.Cached(cid) {
      var voices := data.ListVoices(provider);
      match voices
      case Err(f) => effect := Raised(f);
      case Ok(cat) =>
        match GenderScreen(store.users[cid].voice, cat, lang)
        case Err(f) => effect := Raised(f);
        case Ok(screen) => effect := Shown(delivery, screen);
    }
  }

  /** `voice_menu`: an unknown language or gender escapes as KeyError. */
  method VoiceMenu(store: Store, data: Data, cid: int, lang: string, gend: string,
                   provider: Provider, delivery: Delivery) returns (effect: Effect)
    modifies data`tts
    ensures cid !in store.users ==> effect == Silent && data.tts == old(data.tts)
    ensures cid in store.users ==>
      (data.tts, effect) == Display(old(data.tts), provider, VoiceView(lang, gend), store.users[cid], delivery)
  {
    effect := Silent;
    if store.Cached(cid) {
      var voices := data.ListVoices(provider);
      match voices
      case Err(f) => effect := Raised(f);
      case Ok(cat) =>
        match VoiceScreen(store.users[cid].voice, cat, lang, gend)
        case Err(f) => effect := Raised(f);
        case Ok(screen) => effect := Shown(delivery, screen);
    }
  }

  /** `style_menu`: needs no catalog. */
  method StyleMenu(store: Store, cid: int, delivery: Delivery) returns (effect: Effect)
    ensures cid !in store.users ==> effect == Silent
    ensures cid in store.users ==> effect == Shown(delivery, StyleScreen(store.users[cid].style))
  {
    effect := Silent;
    if store.Cached(cid) {
      effect := Shown(delivery, StyleScreen(store.users[cid].style));
    }
  }

  /** `tts_menu`: needs no catalog. */
  method TtsMenu(store: Store, cid: int, delivery: Delivery) returns (effect: Effect)
    ensures cid !in store.users ==> effect == Silent
    ensures cid in store.users ==> effect == Shown(delivery, TtsScreen(store.users[cid].tts))
  {
    effect := Silent;
    if store.Cached(cid) {
      effect := Shown(delivery, TtsScreen(store.users[cid].tts));
    }
  }

  /** `tts`: speaks the chat's last reply, or says that there is none. */
  method Tts(store: Store, data: Data, cid: int) returns (effect: Effect)
    ensures cid !in store.users ==> effect == Silent
    ensures cid in store.users ==>
      (effect.Spoken? <==> cid in data.msg) &&
      (effect.Spoken? ==> effect.text == data.msg[cid]) &&
      (!effect.Spoken? ==> effect == Said(NoMemory))
  {
    effect := Silent;
    if store.Cached(cid) {
      if cid in data.msg {
        effect := Spoken(data.msg[cid]);
      } else {
        effect := Said(NoMemory);
      }
    }
  }

  // ---------------------------------------------------------------------------
  // The callback dispatcher

  /** `button_handler`: answers the callback of a stored chat and performs what
      its token asks for. */
  method ButtonHandler(store: Store, data: Data, cid: int, token: string, provider: Provider)
    returns (answered: bool, effect: Effect)
    modifies store, data`tts
    ensures var (users', slot', answered', effect') :=
        Handle(old(store.users), old(data.tts), data.msg, cid, token, provider);
      store.users == users' && data.tts == slot' && answered == answered' && effect == effect'
  {
    answered, effect := false, Silent;
    if !store.Cached(cid) {
      return;
    }
    answered := true;
    effect := Perform(store, data, cid, Parse(token), provider);
  }

  /** The branch of `button_handler` an action selects: the store is written
      before the screen is rebuilt, and a `voice_set` token with fewer than three
      fields raises IndexError after the voice was stored. */
  method Perform(store: Store, data: Data, cid: int, action: Action, provider: Provider)
    returns (effect: Effect)
    requires cid in store.users
    modifies store, data`tts
    ensures store.users == Apply(old(store.users), cid, action)
    ensures (data.tts, effect) == Respond(store.users, old(data.tts), data.msg, cid, Target(action), provider)
  {
    effect := Silent;
    match action
    case ReplayTts => effect := Tts(store, data, cid);
    case Open(menu) => effect := OpenMenu(store, data, cid, menu, provider, EditInPlace);
    case SetVoice(voice, back) =>
      store.SetVoice(cid, voice);
      match back {
      case None => effect := Raised(IndexError);
      case Some((lang, gend)) => effect := VoiceMenu(store, data, cid, lang, gend, provider, EditInPlace);
      }
    case SetStyle(style) =>
      store.SetStyle(cid, style);
      effect := StyleMenu(store, cid, EditInPlace);
    case ToggleTts =>
      store.ToggleTts(cid);
      effect := TtsMenu(store, cid, EditInPlace);
    case Ignore =>
  }

  /** The handler `button_handler` calls for a menu token, for a stored chat. */
  method OpenMenu(store: Store, data: Data, cid: int, menu: Menu, provider: Provider, delivery: Delivery)
    returns (effect: Effect)
    requires cid in store.users
    modifies store, data`tts
    ensures store.users == old(store.users)
    ensures (data.tts, effect) == Display(old(data.tts), provider, menu, store.users[cid], delivery)
  {
    match menu
    case SettingsView => effect := Settings(store, cid, delivery);
    case LangView => effect := LangMenu(store, data, cid, provider, delivery);
    case GenderView(lang) => effect := GenderMenu(store, data, cid, lang, provider, delivery);
    case VoiceView(lang, gend) => effect := VoiceMenu(store, data, cid, lang, gend, provider, delivery);
    case StyleView => effect := StyleMenu(store, cid, delivery);
    case TtsView => effect := TtsMenu(store, cid, delivery);
  }

  // ---------------------------------------------------------------------------
  // The voice handler

  /** The observable steps of `voice`: log lines, the download of the voice
      file, the chat-action job, the recognition call, the job's removal and
      the query run on the transcription. */
  datatype Event =
    | LogError(text: string)
    | LogInfo(text: string)
    | Download
    | ScheduleAction(action: string)
    | Recognize
    | DeleteJob(name: string)
    | RunQuery(transcription: Option<string>)

  /** How a `voice` call ends: normally, with an exception escaping it, or still
      waiting for a terminal status from the provider. */
  datatype VoiceEnd = Done | Escaped | Waiting

  /** The settings key of the recognition token; its value is a placeholder
      when it equals the key itself. */
  const TokenKey := "assemblyai_token"

  /** The name of `constants.ChatAction.RECORD_VOICE`. */
  const RecordVoice := "RECORD_VOICE"

  /** The name under which the chat-action job of chat `cid` is scheduled. */
  function JobName(cid: int): string {
    RecordVoice + "_" + IntToString(cid)
  }

  /** The events every accepted voice message produces before recognition ends. */
  const Begun: seq<Event> := [Download, ScheduleAction(RecordVoice), Recognize]

  /** `voice` as written: the chat-action job is removed only when recognition
      returns a text, so an exception that escapes recognition skips it. */
  function VoiceTrace(cached: bool, settings: map<string, string>, active: bool, cid: int,
                      steps: seq<Step>): (seq<Event>, VoiceEnd)
  {
    if !cached then ([], Done)
    else if TokenKey !in settings then ([LogError("assemblyai_token not defined")], Done)
    else if settings[TokenKey] == TokenKey then ([LogInfo("assemblyai_token invalid")], Done)
    else if !active then ([], Done)
    else match Transcription(steps).outcome
      case Returned(text) => (Begun + [DeleteJob(JobName(cid)), RunQuery(text)], Done)
      case Propagated => (Begun, Escaped)
      case Unfinished => (Begun, Waiting)
  }

  /** `voice` with the job removal in a `finally`: an escaping exception
      removes the job too. */
  function ReleasingTrace(cached: bool, settings: map<string, string>, active: bool, cid: int,
                          steps: seq<Step>): (seq<Event>, VoiceEnd)
  {
    if !cached then ([], Done)
    else if TokenKey !in settings then ([LogError("assemblyai_token not defined")], Done)
    else if settings[TokenKey] == TokenKey then ([LogInfo("assemblyai_token invalid")], Done)
    else if !active then ([], Done)
    else match Transcription(steps).outcome
      case Returned(text) => (Begun + [DeleteJob(JobName(cid)), RunQuery(text)], Done)
      case Propagated => (Begun + [DeleteJob(JobName(cid))], Escaped)
      case Unfinished => (Begun, Waiting)
  }

  /** `voice`: `settings` is the configuration's settings table, `active` the
      answer of `is_active_conversation`, `steps` the provider's script. */
  method Voice(store: Store, settings: map<string, string>, active: bool, cid: int, steps: seq<Step>)
    returns (trace: seq<Event>, end: VoiceEnd)
    ensures (trace, end) == VoiceTrace(cid in store.users, settings, active, cid, steps)
  {
    trace, end := [], Done;
    if store.Cached(cid) {
      if TokenKey !in settings {
        trace := [LogError("assemblyai_token not defined")];
      } else if settings[TokenKey] != TokenKey {
        if active {
          trace := trace + [Download];
          trace := trace + [ScheduleAction(RecordVoice)];
          trace := trace + [Recognize];
          assert trace == Begun;
          var run := AutomaticSpeechRecognition(steps);
          match run.outcome
          case Propagated => end := Escaped;
          case Unfinished => end := Waiting;
          case Returned(text) =>
            trace := trace + [DeleteJob(JobName(cid))];
            trace := trace + [RunQuery(text)];
            assert trace == Begun + [DeleteJob(JobName(cid)), RunQuery(text)];
        }
      } else {
        trace := [LogInfo("assemblyai_token invalid")];
      }
    }
  }

  /** `voice` with the job removal moved into a `finally` around recognition. */
  method VoiceReleasing(store: Store, settings: map<string, string>, active: bool, cid: int,
                        steps: seq<Step>)
    returns (trace: seq<Event>, end: VoiceEnd)
    ensures (trace, end) == ReleasingTrace(cid in store.users, settings, active, cid, steps)
  {
    trace, end := [], Done;
    if store.Cached(cid) {
      if TokenKey !in settings {
        trace := [LogError("assemblyai_token not defined")];
      } else if settings[TokenKey] != TokenKey {
        if active {
          trace := trace + [Download];
          trace := trace + [ScheduleAction(RecordVoice)];
          trace := trace + [Recognize];
          assert trace == Begun;
          var run := AutomaticSpeechRecognition(steps);
          if run.outcome.Unfinished? {
            end := Waiting;
          } else {
            trace := trace + [DeleteJob(JobName(cid))];
            match run.outcome
            case Propagated => end := Escaped;
            case Returned(text) =>
              trace := trace + [RunQuery(text)];
              assert trace == Begun + [DeleteJob(JobName(cid)), RunQuery(text)];
          }
        }
      } else {
        trace := [LogInfo("assemblyai_token invalid")];
      }
    }
  }

  // ---------------------------------------------------------------------------
  // Properties of the voice handler

  /** Whether the trace holds any event of the recognition pipeline. */
  predicate Accepted(trace: seq<Event>) {
    exists i :: 0 <= i < |trace| && (trace[i].Download? || trace[i].ScheduleAction? || trace[i].Recognize?)
  }

  /** A missing or placeholder token only logs: nothing is downloaded, no
      indicator is scheduled and nothing is recognised. */
  lemma VoiceNeedsToken(cached: bool, settings: map<string, string>, active: bool, cid: int,
                        steps: seq<Step>)
    requires TokenKey !in settings || settings[TokenKey] == TokenKey
    ensures var (trace, end) := VoiceTrace(cached, settings, active, cid, steps);
      end == Done && !Accepted(trace) &&
      (cached ==> trace == [if TokenKey in settings then LogInfo("assemblyai_token invalid")
                            else LogError("assemblyai_token not defined")])
  {
  }

  /** A chat that is not stored, or a conversation that is not active, produces
      no event at all. */
  lemma VoiceIgnored(cached: bool, settings: map<string, string>, active: bool, cid: int,
                     steps: seq<Step>)
    requires !cached || (TokenKey in settings && settings[TokenKey] != TokenKey && !active)
    ensures VoiceTrace(cached, settings, active, cid, steps) == ([], Done)
  {
  }

  /** When the provider answers with a terminal status at `steps[j]`, the trace is
      download, schedule, recognition, removal of the job, and the query on that
      answer's text, in this order. */
  lemma {:induction false} VoiceQueriesTranscript(settings: map<string, string>, cid: int,
                                                  steps: seq<Step>, j: nat)
    requires TokenKey in settings && settings[TokenKey] != TokenKey
    requires 1 <= j < |steps| && PendingBefore(steps, j)
    requires steps[j].Answer? && Terminal(steps[j].status)
    ensures VoiceTrace(true, settings, true, cid, steps) ==
      ([Download, ScheduleAction(RecordVoice), Recognize, DeleteJob(JobName(cid)), RunQuery(steps[j].text)], Done)
  {
    TerminalAt(steps, j);
    assert Begun + [DeleteJob(JobName(cid)), RunQuery(steps[j].text)] ==
      [Download, ScheduleAction(RecordVoice), Recognize, DeleteJob(JobName(cid)), RunQuery(steps[j].text)];
  }

  /** A job that ends in `error` answers with a `null` text; `voice` passes that
      `None` on to the query unchanged. */
  lemma {:induction false} VoiceQueriesNullOnError(settings: map<string, string>, cid: int,
                                                   steps: seq<Step>, j: nat)
    requires TokenKey in settings && settings[TokenKey] != TokenKey
    requires 1 <= j < |steps| && PendingBefore(steps, j)
    requires steps[j] == Answer(Some("error"), None)
    ensures var (trace, end) := VoiceTrace(true, settings, true, cid, steps);
      end == Done && |trace| == 5 && trace[4] == RunQuery(None)
  {
    VoiceQueriesTranscript(settings, cid, steps, j);
  }

  /** An `HTTPException` during recognition still releases the indicator and runs
      the query on the default text. */
  lemma {:induction false} VoiceAfterHttpException(settings: map<string, string>, cid: int,
                                                   steps: seq<Step>, j: nat)
    requires TokenKey in settings && settings[TokenKey] != TokenKey
    requires j < |steps| && PendingBefore(steps, j) && steps[j] == Raise(HttpException)
    ensures VoiceTrace(true, settings, true, cid, steps) ==
      (Begun + [DeleteJob(JobName(cid)), RunQuery(Some(DefaultTranscript))], Done)
  {
    RaisedAt(steps, j);
  }

  /** As written, any other exception during recognition escapes with the
      indicator still scheduled: the trace holds the schedule and no removal. */
  lemma {:induction false} IndicatorLeaks(settings: map<string, string>, cid: int,
                                          steps: seq<Step>, j: nat)
    requires TokenKey in settings && settings[TokenKey] != TokenKey
    requires j < |steps| && PendingBefore(steps, j) && steps[j] == Raise(OtherException)
    ensures var (trace, end) := VoiceTrace(true, settings, true, cid, steps);
      end == Escaped && ScheduleAction(RecordVoice) in trace && DeleteJob(JobName(cid)) !in trace
  {
    RaisedAt(steps, j);
  }

  /** The smallest instance: the upload itself fails with a client error. */
  lemma IndicatorLeakExample()
    ensures var (trace, end) :=
      VoiceTrace(true, map[TokenKey := "secret"], true, 7, [Raise(OtherException)]);
      trace == [Download, ScheduleAction(RecordVoice), Recognize] && end == Escaped
  {
  }

  /** With the removal in a `finally`, every call that schedules the indicator and
      does not wait forever removes the job, under the chat's own job name, right
      after recognition and exactly once. */
  lemma IndicatorReleased(cached: bool, settings: map<string, string>, active: bool, cid: int,
                          steps: seq<Step>)
    ensures var (trace, end) := ReleasingTrace(cached, settings, active, cid, steps);
      (ScheduleAction(RecordVoice) in trace && end != Waiting) ==>
        |trace| >= 4 && trace[1] == ScheduleAction(RecordVoice) && trace[3] == DeleteJob(JobName(cid)) &&
        multiset(trace)[DeleteJob(JobName(cid))] == 1
  {
  }

  /** The correction changes nothing on the paths the original handles. */
  lemma ReleasingAgreesOnQueries(cached: bool, settings: map<string, string>, active: bool, cid: int,
                                 steps: seq<Step>)
    ensures VoiceTrace(cached, settings, active, cid, steps).1 != Escaped ==>
      ReleasingTrace(cached, settings, active, cid, steps) == VoiceTrace(cached, settings, active, cid, steps)
  {
  }
}
