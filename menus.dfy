/** The pure part of bot/cmds.py: the callback tokens and how `button_handler`
    parses them, the screens each menu renders, and what a button press does to
    the preference records. */
module Menus {
  import opened Outcomes
  import opened Strings
  import opened Utils

  /** A chat's stored preferences; `tts` is the stored integer flag (1 is on). */
  datatype Preference = Preference(voice: string, style: string, tts: int)

  /** The names of the conversation styles, in declaration order. */
  const Styles: seq<string> := ["creative", "balanced", "precise"]

  /** A rendered screen: its header text and its inline keyboard. */
  datatype Screen = Screen(header: string, keyboard: Keyboard)

  /** The screens of the settings hierarchy. */
  datatype Menu =
    | SettingsView
    | LangView
    | GenderView(lang: string)
    | VoiceView(lang: string, gender: string)
    | StyleView
    | TtsView

  /** What a callback token asks for. `SetVoice` carries the language and gender
      of the screen to redisplay, or None when the token has too few fields. */
  datatype Action =
    | ReplayTts
    | Open(menu: Menu)
    | SetVoice(voice: string, back: Option<(string, string)>)
    | SetStyle(style: string)
    | ToggleTts
    | Ignore

  // ---------------------------------------------------------------------------
  // Tokens

  function GenderToken(lang: string): string {
    "gender_menu_" + lang
  }

  function VoiceMenuToken(lang: string, gend: string): string {
    "voice_menu_" + lang + "_" + gend
  }

  function VoiceSetToken(lang: string, gend: string, voice: string): string {
    "voice_set_" + lang + "_" + gend + "_" + voice
  }

  function StyleSetToken(style: string): string {
    "style_set_" + style
  }

  /** `args[-k]` for a Python list. */
  function FromEnd(args: seq<string>, k: nat): string
    requires 1 <= k <= |args|
  {
    args[|args| - k]
  }

  /** The dispatch of `button_handler`: exact tokens and prefixes, tried in the
      source's order, with arguments taken from the end of `token.split("_")`. */
  function Parse(token: string): Action {
    if token == "tts" then ReplayTts
    else if token == "settings_menu" then Open(SettingsView)
    else if token == "lang_menu" then Open(LangView)
    else if StartsWith(token, "gender_menu") then
      var args := Split(token, '_');
      Open(GenderView(FromEnd(args, 1)))
    else if StartsWith(token, "voice_menu") then
      var args := Split(token, '_');
      assert token[5] == "voice_menu"[5] == '_';
      SplitHasTwoFields(token, '_', 5);
      Open(VoiceView(FromEnd(args, 2), FromEnd(args, 1)))
    else if StartsWith(token, "voice_set") then
      var args := Split(token, '_');
      SetVoice(FromEnd(args, 1),
        if |args| >= 3 then Some((FromEnd(args, 3), FromEnd(args, 2))) else None)
    else if token == "style_menu" then Open(StyleView)
    else if StartsWith(token, "style_set") then
      var args := Split(token, '_');
      SetStyle(FromEnd(args, 1))
    else if token == "tts" then ReplayTts  // unreachable: the first test already took it
    else if token == "tts_menu" then Open(TtsView)
    else if token == "tts_toggle" then ToggleTts
    else Ignore
  }

  /** `p + "_" + rest` splits into the fields of `p` followed by those of `rest`. */
  lemma SplitToken(p: string, rest: string)
    requires '_' !in p
    ensures Split(p + "_" + rest, '_') == [p] + Split(rest, '_')
  {
    SplitAtSeparator(p, rest, '_');
    SplitWithoutSeparator(p, '_');
  }

  /** A token starting with `gender_menu` takes the gender branch. */
  lemma ParseGenderPrefix(t: string)
    requires StartsWith(t, "gender_menu")
    ensures Parse(t) == Open(GenderView(FromEnd(Split(t, '_'), 1)))
  {
    assert t[0] == 'g';
  }

  /** A token starting with `voice_menu` has two fields at least and takes the
      voice-screen branch. */
  lemma ParseVoiceMenuPrefix(t: string)
    requires StartsWith(t, "voice_menu")
    ensures |Split(t, '_')| >= 2
    ensures Parse(t) == Open(VoiceView(FromEnd(Split(t, '_'), 2), FromEnd(Split(t, '_'), 1)))
  {
    assert t[0] == 'v' && t[5] == '_';
    SplitHasTwoFields(t, '_', 5);
  }

  /** A token starting with `voice_set` takes the voice-setting branch. */
  lemma ParseVoiceSetPrefix(t: string)
    requires StartsWith(t, "voice_set")
    ensures var args := Split(t, '_');
      Parse(t) == SetVoice(FromEnd(args, 1),
        if |args| >= 3 then Some((FromEnd(args, 3), FromEnd(args, 2))) else None)
  {
    assert t[0] == 'v' && t[6] == 's';
    assert !StartsWith(t, "voice_menu");
  }

  /** A token starting with `style_set` takes the style-setting branch. */
  lemma ParseStyleSetPrefix(t: string)
    requires StartsWith(t, "style_set")
    ensures Parse(t) == SetStyle(FromEnd(Split(t, '_'), 1))
  {
    assert t[0] == 's' && t[1] == 't' && t[6] == 's';
    assert !StartsWith(t, "gender_menu") && !StartsWith(t, "voice_menu") && !StartsWith(t, "voice_set");
  }

  /** The token a language button carries parses back to that language. */
  lemma ParseGenderToken(lang: string)
    requires '_' !in lang
    ensures Parse(GenderToken(lang)) == Open(GenderView(lang))
  {
    var t := GenderToken(lang);
    assert t[..11] == "gender_menu";
    ParseGenderPrefix(t);
    assert t == "gender" + "_" + ("menu" + "_" + lang);
    SplitToken("gender", "menu" + "_" + lang);
    SplitToken("menu", lang);
    SplitWithoutSeparator(lang, '_');
  }

  /** The fields of a gender button's token. */
  lemma SplitVoiceMenuToken(lang: string, gend: string)
    requires '_' !in lang && '_' !in gend
    ensures Split(VoiceMenuToken(lang, gend), '_') == ["voice", "menu", lang, gend]
  {
    var t := VoiceMenuToken(lang, gend);
    assert t == "voice" + "_" + ("menu" + "_" + (lang + "_" + gend));
    SplitToken("voice", "menu" + "_" + (lang + "_" + gend));
    SplitToken("menu", lang + "_" + gend);
    SplitToken(lang, gend);
    SplitWithoutSeparator(gend, '_');
  }

  /** The token a gender button carries parses back to that language and gender. */
  lemma ParseVoiceMenuToken(lang: string, gend: string)
    requires '_' !in lang && '_' !in gend
    ensures Parse(VoiceMenuToken(lang, gend)) == Open(VoiceView(lang, gend))
  {
    var t := VoiceMenuToken(lang, gend);
    assert t[..10] == "voice_menu";
    ParseVoiceMenuPrefix(t);
    SplitVoiceMenuToken(lang, gend);
  }

  /** The fields of a voice button's token. */
  lemma SplitVoiceSetToken(lang: string, gend: string, voice: string)
    requires '_' !in lang && '_' !in gend && '_' !in voice
    ensures Split(VoiceSetToken(lang, gend, voice), '_') == ["voice", "set", lang, gend, voice]
  {
    var t := VoiceSetToken(lang, gend, voice);
    assert t == "voice" + "_" + ("set" + "_" + (lang + "_" + (gend + "_" + voice)));
    SplitToken("voice", "set" + "_" + (lang + "_" + (gend + "_" + voice)));
    SplitToken("set", lang + "_" + (gend + "_" + voice));
    SplitToken(lang, gend + "_" + voice);
    SplitToken(gend, voice);
    SplitWithoutSeparator(voice, '_');
  }

  /** The token a voice button carries parses back to its language, gender and voice. */
  lemma ParseVoiceSetToken(lang: string, gend: string, voice: string)
    requires '_' !in lang && '_' !in gend && '_' !in voice
    ensures Parse(VoiceSetToken(lang, gend, voice)) == SetVoice(voice, Some((lang, gend)))
  {
    var t := VoiceSetToken(lang, gend, voice);
    assert t[..9] == "voice_set";
    ParseVoiceSetPrefix(t);
    SplitVoiceSetToken(lang, gend, voice);
  }

  /** The token a style button carries parses back to that style. */
  lemma ParseStyleSetToken(style: string)
    requires '_' !in style
    ensures Parse(StyleSetToken(style)) == SetStyle(style)
  {
    var t := StyleSetToken(style);
    assert t[..9] == "style_set";
    ParseStyleSetPrefix(t);
    assert t == "style" + "_" + ("set" + "_" + style);
    SplitToken("style", "set" + "_" + style);
    SplitToken("set", style);
    SplitWithoutSeparator(style, '_');
  }

  /** `voice_set<rest>` without a further `_` splits into two fields: the last one,
      `set<rest>`, is stored as the voice, and there is no screen to return to. */
  lemma ParseShortVoiceSet(rest: string)
    requires '_' !in rest
    ensures Parse("voice_set" + rest) == SetVoice("set" + rest, None)
  {
    var t := "voice_set" + rest;
    assert t[..9] == "voice_set";
    ParseVoiceSetPrefix(t);
    assert t == "voice" + "_" + ("set" + rest);
    SplitToken("voice", "set" + rest);
    SplitWithoutSeparator("set" + rest, '_');
  }

  // ---------------------------------------------------------------------------
  // Preference updates

  /** `toggle_tts` on the stored flag. */
  function Toggled(tts: int): int {
    if tts == 1 then 0 else 1
  }

  /** Toggling twice restores a stored flag that is 0 or 1. */
  lemma ToggleTwice(tts: int)
    requires tts == 0 || tts == 1
    ensures Toggled(Toggled(tts)) == tts
  {
  }

  /** The store writes a parsed action performs for chat `cid`. */
  function Apply(users: map<int, Preference>, cid: int, action: Action): (users': map<int, Preference>)
    ensures users'.Keys == users.Keys
    ensures forall c :: c in users && c != cid ==> users'[c] == users[c]
  {
    if cid !in users then users
    else match action
      case SetVoice(v, _) => users[cid := users[cid].(voice := v)]
      case SetStyle(s) => users[cid := users[cid].(style := s)]
      case ToggleTts => users[cid := users[cid].(tts := Toggled(users[cid].tts))]
      case _ => users
  }

  /** What a parsed action renders afterwards. */
  datatype Next = Nothing | Show(menu: Menu) | Replay | Fail(fault: Fault)

  function Target(action: Action): Next {
    match action
    case ReplayTts => Replay
    case Open(m) => Show(m)
    case SetVoice(_, back) =>
      if back.Some? then Show(VoiceView(back.value.0, back.value.1)) else Fail(IndexError)
    case SetStyle(_) => Show(StyleView)
    case ToggleTts => Show(TtsView)
    case Ignore => Nothing
  }

  // ---------------------------------------------------------------------------
  // Screens

  /** A choice's label: the current one is framed by guillemets. */
  function Marked(name: string, current: string): string {
    if name != current then name else "» " + name + " «"
  }

  lemma MarkedIffCurrent(name: string, current: string)
    ensures Marked(name, current) == "» " + name + " «" <==> name == current
    ensures Marked(name, current) == name <==> name != current
  {
    assert |"» " + name + " «"| != |name|;
    if name != current {
      assert |Marked(name, current)| != |"» " + name + " «"|;
    }
  }

  function VoiceHeader(voice: string, title: string): string {
    "Your current voice is <b>" + voice + "</b>\n\n" + title
  }

  const BackToSettings := ("« Back to Settings", "settings_menu")
  const BackToLanguages := ("« Back to Languages", "lang_menu")

  /** `settings`: the two entries of the top screen. */
  function SettingsScreen(): Screen {
    Screen("Bot settings", [Button([("Language/Voice", "lang_menu")]), Button([("Toggle TTS", "tts_menu")])])
  }

  /** One row of language buttons. */
  function LangRow(langs: seq<string>): seq<KeyButton> {
    Button(seq(|langs|, j requires 0 <= j < |langs| => (Upper(langs[j]), GenderToken(langs[j]))))
  }

  /** `lang_menu`: the sorted languages in rows of six, then a back row. */
  function LangScreen(voice: string, cat: Catalog): Screen {
    var rows := Chunk(SortedKeys(cat.Keys), RowWidth);
    Screen(VoiceHeader(voice, "Languages"),
      seq(|rows|, i requires 0 <= i < |rows| => LangRow(rows[i])) + [Button([BackToSettings])])
  }

  /** `gender_menu`: one row per sorted gender of the language, then a back row. */
  function GenderScreen(voice: string, cat: Catalog, lang: string): Result<Screen> {
    if lang !in cat then Err(KeyError)
    else
      var genders := SortedKeys(cat[lang].Keys);
      Ok(Screen(VoiceHeader(voice, "Genders"),
        seq(|genders|, i requires 0 <= i < |genders| =>
          Button([(genders[i], VoiceMenuToken(lang, genders[i]))])) +
        [Button([BackToLanguages, BackToSettings])]))
  }

  /** `voice_menu`: one row per sorted voice, the current one marked, then a back row. */
  function VoiceScreen(voice: string, cat: Catalog, lang: string, gend: string): Result<Screen> {
    if lang !in cat || gend !in cat[lang] then Err(KeyError)
    else
      var names := Sort(cat[lang][gend]);
      Ok(Screen(VoiceHeader(voice, "Voices"),
        seq(|names|, i requires 0 <= i < |names| =>
          Button([(Marked(names[i], voice), VoiceSetToken(lang, gend, names[i]))])) +
        [Button([("« Back to Genders", GenderToken(lang)), BackToLanguages, BackToSettings])]))
  }

  /** `style_menu`: one row per style in declaration order, the current one marked. */
  function StyleScreen(style: string): Screen {
    Screen("Your current conversation style is <b>" + style + "</b>\n\nStyles",
      seq(|Styles|, i requires 0 <= i < |Styles| =>
        Button([(Marked(Styles[i], style), StyleSetToken(Styles[i]))])) +
      [Button([BackToSettings])])
  }

  /** `tts_menu`: the toggle, labelled with the current state, then a back row. */
  function TtsScreen(tts: int): Screen {
    var state := if tts == 1 then "ON" else "OFF";
    Screen("Automatic Text-to-Speech", [Button([("TTS: " + state, "tts_toggle")]), Button([BackToSettings])])
  }

  /** The menus that read the voice catalog. */
  predicate NeedsCatalog(menu: Menu) {
    menu.LangView? || menu.GenderView? || menu.VoiceView?
  }

  /** The screen a menu shows for a chat's preferences and the catalog. */
  function Render(menu: Menu, pref: Preference, cat: Catalog): Result<Screen> {
    match menu
    case SettingsView => Ok(SettingsScreen())
    case LangView => Ok(LangScreen(pref.voice, cat))
    case GenderView(l) => GenderScreen(pref.voice, cat, l)
    case VoiceView(l, g) => VoiceScreen(pref.voice, cat, l, g)
    case StyleView => Ok(StyleScreen(pref.style))
    case TtsView => Ok(TtsScreen(pref.tts))
  }

  // ---------------------------------------------------------------------------
  // What a handler call produces

  /** `ut.send` (a new message) or `ut.edit` (the message holding the pressed button). */
  datatype Delivery = SendNew | EditInPlace

  /** The visible result of a handler call, or the exception that escapes it. */
  datatype Effect =
    | Silent
    | Shown(delivery: Delivery, screen: Screen)
    | Said(text: string)
    | Spoken(text: string)
    | Raised(fault: Fault)

  const NoMemory := "I can't remember our last conversation, sorry!"

  /** Showing a menu: fetch the catalog when the menu needs it, then render. The
      cache slot after the call is returned beside the effect. */
  function Display(slot: Option<Catalog>, provider: Provider, menu: Menu, pref: Preference,
                   delivery: Delivery): (Option<Catalog>, Effect)
  {
    var (slot', cat) := if NeedsCatalog(menu) then Fetch(slot, provider) else (slot, Ok(map[]));
    var effect := match cat
      case Err(f) => Raised(f)
      case Ok(c) => match Render(menu, pref, c)
        case Err(f) => Raised(f)
        case Ok(s) => Shown(delivery, s);
    (slot', effect)
  }

  /** `tts`: speak the chat's last reply, or say that there is none. */
  function ReplayEffect(msg: map<int, string>, cid: int): Effect {
    if cid in msg then Spoken(msg[cid]) else Said(NoMemory)
  }

  /** Everything a `button_handler` call does: the new preference records, the
      new catalog slot, whether the callback was answered, and the effect. */
  function Handle(users: map<int, Preference>, slot: Option<Catalog>, msg: map<int, string>,
                  cid: int, token: string, provider: Provider)
    : (r: (map<int, Preference>, Option<Catalog>, bool, Effect))
    ensures cid !in users ==> r == (users, slot, false, Silent)
    ensures r.2 <==> cid in users
    ensures r.0.Keys == users.Keys
    ensures forall c :: c in users && c != cid ==> r.0[c] == users[c]
  {
    if cid !in users then (users, slot, false, Silent)
    else
      var action := Parse(token);
      var users' := Apply(users, cid, action);
      var (slot', e) := Respond(users', slot, msg, cid, Target(action), provider);
      (users', slot', true, e)
  }

  /** What the handler shows once the store has been written. */
  function Respond(users: map<int, Preference>, slot: Option<Catalog>, msg: map<int, string>,
                   cid: int, next: Next, provider: Provider): (Option<Catalog>, Effect)
    requires cid in users
  {
    match next
    case Nothing => (slot, Silent)
    case Replay => (slot, ReplayEffect(msg, cid))
    case Fail(f) => (slot, Raised(f))
    case Show(m) => Display(slot, provider, m, users[cid], EditInPlace)
  }

  // ---------------------------------------------------------------------------
  // Properties of the screens

  lemma LangRowAppend(a: seq<string>, b: seq<string>)
    ensures LangRow(a + b) == LangRow(a) + LangRow(b)
  {
  }

  lemma {:induction false} FlattenLangRows(rows: seq<seq<string>>)
    ensures Flatten(seq(|rows|, i requires 0 <= i < |rows| => LangRow(rows[i]))) == LangRow(Flatten(rows))
    decreases |rows|
  {
    var mapped := seq(|rows|, i requires 0 <= i < |rows| => LangRow(rows[i]));
    if rows != [] {
      assert mapped[1..] == seq(|rows[1..]|, i requires 0 <= i < |rows[1..]| => LangRow(rows[1..][i]));
      FlattenLangRows(rows[1..]);
      LangRowAppend(rows[0], Flatten(rows[1..]));
    }
  }

  /** The language screen puts its buttons six to a row (only the last language
      row may be shorter, none is empty) and ends with one back row. */
  lemma LangScreenLayout(voice: string, cat: Catalog)
    ensures var kb := LangScreen(voice, cat).keyboard;
      |kb| >= 1 && kb[|kb| - 1] == [KeyButton("« Back to Settings", "settings_menu")] &&
      (forall i :: 0 <= i < |kb| - 1 ==> 0 < |kb[i]| <= RowWidth) &&
      (forall i :: 0 <= i < |kb| - 2 ==> |kb[i]| == RowWidth)
  {
    var rows := Chunk(SortedKeys(cat.Keys), RowWidth);
    var body := seq(|rows|, i requires 0 <= i < |rows| => LangRow(rows[i]));
    var kb: Keyboard := LangScreen(voice, cat).keyboard;
    assert kb == body + [Button([BackToSettings])];
    assert forall i :: 0 <= i < |body| ==> |body[i]| == |rows[i]|;
  }

  /** Read row by row, the language buttons are those of the catalog's languages in
      sorted order, each once (see `LangRowRoundTrip` for a single button). */
  lemma LangScreenLists(voice: string, cat: Catalog)
    ensures var kb := LangScreen(voice, cat).keyboard;
      |kb| >= 1 && Flatten(kb[..|kb| - 1]) == LangRow(SortedKeys(cat.Keys))
  {
    var rows := Chunk(SortedKeys(cat.Keys), RowWidth);
    var body := seq(|rows|, i requires 0 <= i < |rows| => LangRow(rows[i]));
    LangScreenBody(voice, cat);
    DropLast(body, Button([BackToSettings]));
    FlattenLangRows(rows);
  }

  /** The language screen is the list of language rows followed by the back row. */
  lemma LangScreenBody(voice: string, cat: Catalog)
    ensures var rows := Chunk(SortedKeys(cat.Keys), RowWidth);
      LangScreen(voice, cat).keyboard ==
        seq(|rows|, i requires 0 <= i < |rows| => LangRow(rows[i])) + [Button([BackToSettings])]
  {
  }

  lemma DropLast<T>(s: seq<T>, x: T)
    ensures (s + [x])[..|s|] == s
  {
  }

  /** Each language button is labelled with `lang.upper()` and its token opens that
      language's gender screen. */
  lemma LangRowRoundTrip(langs: seq<string>, j: nat)
    requires j < |langs| && '_' !in langs[j]
    ensures |LangRow(langs)| == |langs|
    ensures LangRow(langs)[j].text == Upper(langs[j])
    ensures Parse(LangRow(langs)[j].callbackData) == Open(GenderView(langs[j]))
  {
    ParseGenderToken(langs[j]);
  }

  /** The gender screen's button rows, one per sorted gender of the language. */
  lemma GenderScreenShape(voice: string, cat: Catalog, lang: string)
    requires lang in cat
    ensures GenderScreen(voice, cat, lang).Ok?
    ensures var kb := GenderScreen(voice, cat, lang).value.keyboard;
      var genders := SortedKeys(cat[lang].Keys);
      |kb| == |genders| + 1 &&
      kb[|kb| - 1] == [KeyButton("« Back to Languages", "lang_menu"), KeyButton("« Back to Settings", "settings_menu")] &&
      forall i :: 0 <= i < |genders| ==> kb[i] == [KeyButton(genders[i], VoiceMenuToken(lang, genders[i]))]
  {
  }

  /** The gender screen has one button per gender of the language, in sorted order,
      then one back row; an unknown language raises KeyError. */
  lemma GenderScreenRows(voice: string, cat: Catalog, lang: string)
    ensures lang !in cat <==> GenderScreen(voice, cat, lang) == Err(KeyError)
    ensures lang in cat ==> var kb := GenderScreen(voice, cat, lang).value.keyboard;
      |kb| == |cat[lang]| + 1 &&
      kb[|kb| - 1] == [KeyButton("« Back to Languages", "lang_menu"), KeyButton("« Back to Settings", "settings_menu")] &&
      (forall i :: 0 <= i < |kb| - 1 ==> |kb[i]| == 1 && kb[i][0].text in cat[lang])
  {
    if lang in cat {
      GenderScreenShape(voice, cat, lang);
    }
  }

  /** The gender labels appear in sorted order. */
  lemma GenderScreenOrder(voice: string, cat: Catalog, lang: string)
    requires lang in cat
    ensures var kb := GenderScreen(voice, cat, lang).value.keyboard;
      forall i, j :: 0 <= i < j < |kb| - 1 ==> LexLeq(kb[i][0].text, kb[j][0].text)
  {
    GenderScreenShape(voice, cat, lang);
  }

  /** Every gender of the language has a button. */
  lemma GenderScreenCovers(voice: string, cat: Catalog, lang: string)
    requires lang in cat
    ensures var kb := GenderScreen(voice, cat, lang).value.keyboard;
      forall g :: g in cat[lang] ==> exists i :: 0 <= i < |kb| - 1 && kb[i][0].text == g
  {
    var genders := SortedKeys(cat[lang].Keys);
    GenderScreenShape(voice, cat, lang);
    var kb: Keyboard := GenderScreen(voice, cat, lang).value.keyboard;
    forall g | g in cat[lang] ensures exists i :: 0 <= i < |kb| - 1 && kb[i][0].text == g {
      var i :| 0 <= i < |genders| && genders[i] == g;
      assert kb[i][0].text == g;
    }
  }

  /** Each gender button's token opens the voice screen of its language and gender. */
  lemma GenderButtonRoundTrip(voice: string, cat: Catalog, lang: string, i: nat)
    requires lang in cat && '_' !in lang && forall g :: g in cat[lang] ==> '_' !in g
    requires i < |cat[lang]|
    ensures var kb := GenderScreen(voice, cat, lang).value.keyboard;
      |kb[i]| == 1 && Parse(kb[i][0].callbackData) == Open(VoiceView(lang, kb[i][0].text))
  {
    var genders := SortedKeys(cat[lang].Keys);
    GenderScreenShape(voice, cat, lang);
    ParseVoiceMenuToken(lang, genders[i]);
  }

  /** The voice screen's button rows, one per sorted voice, then the back row. */
  lemma VoiceScreenShape(voice: string, cat: Catalog, lang: string, gend: string)
    requires lang in cat && gend in cat[lang]
    ensures VoiceScreen(voice, cat, lang, gend).Ok?
    ensures var kb := VoiceScreen(voice, cat, lang, gend).value.keyboard;
      var names := Sort(cat[lang][gend]);
      |kb| == |names| + 1 && |names| == |cat[lang][gend]| &&
      kb[|kb| - 1] == [KeyButton("« Back to Genders", GenderToken(lang)),
                       KeyButton("« Back to Languages", "lang_menu"),
                       KeyButton("« Back to Settings", "settings_menu")] &&
      forall i :: 0 <= i < |names| ==>
        kb[i] == [KeyButton(Marked(names[i], voice), VoiceSetToken(lang, gend, names[i]))]
  {
    var names := Sort(cat[lang][gend]);
    var body := seq(|names|, i requires 0 <= i < |names| =>
      Button([(Marked(names[i], voice), VoiceSetToken(lang, gend, names[i]))]));
    var back := Button([("« Back to Genders", GenderToken(lang)), BackToLanguages, BackToSettings]);
    var kb := VoiceScreen(voice, cat, lang, gend).value.keyboard;
    assert kb == body + [back];
    assert back == [KeyButton("« Back to Genders", GenderToken(lang)),
                    KeyButton("« Back to Languages", "lang_menu"),
                    KeyButton("« Back to Settings", "settings_menu")];
  }

  /** The voice screen has one row per stored voice, duplicates kept, in sorted
      order; each button's token sets that voice and returns to this screen; a
      label is framed exactly when its voice is the current one; a final row holds
      the three back buttons. An unknown language or gender raises KeyError. */
  lemma VoiceScreenRows(voice: string, cat: Catalog, lang: string, gend: string)
    requires lang in cat && gend in cat[lang]
    requires '_' !in lang && '_' !in gend && forall v :: v in cat[lang][gend] ==> '_' !in v
    ensures VoiceScreen(voice, cat, lang, gend).Ok?
    ensures var kb := VoiceScreen(voice, cat, lang, gend).value.keyboard;
      var names := Sort(cat[lang][gend]);
      |kb| == |cat[lang][gend]| + 1 &&
      kb[|kb| - 1] == [KeyButton("« Back to Genders", GenderToken(lang)),
                       KeyButton("« Back to Languages", "lang_menu"),
                       KeyButton("« Back to Settings", "settings_menu")] &&
      forall i :: 0 <= i < |kb| - 1 ==>
        |kb[i]| == 1 &&
        Parse(kb[i][0].callbackData) == SetVoice(names[i], Some((lang, gend))) &&
        (kb[i][0].text == "» " + names[i] + " «" <==> names[i] == voice) &&
        (kb[i][0].text == names[i] <==> names[i] != voice)
  {
    var names := Sort(cat[lang][gend]);
    VoiceScreenShape(voice, cat, lang, gend);
    var kb: Keyboard := VoiceScreen(voice, cat, lang, gend).value.keyboard;
    forall i | 0 <= i < |kb| - 1
      ensures |kb[i]| == 1
      ensures Parse(kb[i][0].callbackData) == SetVoice(names[i], Some((lang, gend)))
      ensures kb[i][0].text == "» " + names[i] + " «" <==> names[i] == voice
      ensures kb[i][0].text == names[i] <==> names[i] != voice
    {
      assert names[i] in multiset(cat[lang][gend]);
      ParseVoiceSetToken(lang, gend, names[i]);
      MarkedIffCurrent(names[i], voice);
    }
  }

  /** The current voice is framed on the voice screen exactly when it is one of the
      stored voices of that language and gender. */
  lemma VoiceScreenMarksCurrent(voice: string, cat: Catalog, lang: string, gend: string)
    requires lang in cat && gend in cat[lang]
    ensures VoiceScreen(voice, cat, lang, gend).Ok?
    ensures var kb := VoiceScreen(voice, cat, lang, gend).value.keyboard;
      (exists i :: 0 <= i < |kb| - 1 &&
        kb[i] == [KeyButton("» " + voice + " «", VoiceSetToken(lang, gend, voice))]) <==>
      voice in cat[lang][gend]
  {
    var names := Sort(cat[lang][gend]);
    var kb: Keyboard := VoiceScreen(voice, cat, lang, gend).value.keyboard;
    VoiceScreenShape(voice, cat, lang, gend);
    var framed := [KeyButton("» " + voice + " «", VoiceSetToken(lang, gend, voice))];
    if voice in cat[lang][gend] {
      assert voice in multiset(names);
      var i :| 0 <= i < |names| && names[i] == voice;
      assert kb[i] == framed;
    }
    if exists i :: 0 <= i < |kb| - 1 && kb[i] == framed {
      var i :| 0 <= i < |kb| - 1 && kb[i] == framed;
      var prefix := "voice_set_" + lang + "_" + gend + "_";
      assert VoiceSetToken(lang, gend, names[i]) == VoiceSetToken(lang, gend, voice);
      assert (prefix + names[i])[|prefix|..] == names[i];
      assert (prefix + voice)[|prefix|..] == voice;
      assert names[i] in multiset(cat[lang][gend]);
    }
  }


  /** The style screen lists the styles in declaration order, frames exactly the
      current one, and each button's token sets its style. */
  lemma StyleScreenRows(style: string)
    ensures var kb := StyleScreen(style).keyboard;
      |kb| == |Styles| + 1 && kb[|Styles|] == [KeyButton("« Back to Settings", "settings_menu")] &&
      forall i :: 0 <= i < |Styles| ==>
        |kb[i]| == 1 &&
        Parse(kb[i][0].callbackData) == SetStyle(Styles[i]) &&
        (kb[i][0].text == "» " + Styles[i] + " «" <==> Styles[i] == style)
  {
    var kb: Keyboard := StyleScreen(style).keyboard;
    forall i | 0 <= i < |Styles|
      ensures Parse(kb[i][0].callbackData) == SetStyle(Styles[i])
      ensures kb[i][0].text == "» " + Styles[i] + " «" <==> Styles[i] == style
    {
      assert '_' !in Styles[i];
      ParseStyleSetToken(Styles[i]);
      MarkedIffCurrent(Styles[i], style);
    }
  }

  /** The toggle reads "TTS: ON" exactly when the stored flag is 1, and its token
      toggles the flag. */
  lemma TtsScreenLabel(tts: int)
    ensures var kb := TtsScreen(tts).keyboard;
      |kb| == 2 && |kb[0]| == 1 &&
      (kb[0][0].text == "TTS: ON" <==> tts == 1) &&
      (kb[0][0].text == "TTS: OFF" <==> tts != 1) &&
      Parse(kb[0][0].callbackData) == ToggleTts &&
      kb[1] == [KeyButton("« Back to Settings", "settings_menu")]
  {
    var kb: Keyboard := TtsScreen(tts).keyboard;
    ParseToggleToken();
    if tts != 1 {
      assert kb[0][0].text == "TTS: OFF";
      assert |"TTS: OFF"| != |"TTS: ON"|;
    } else {
      assert kb[0][0].text == "TTS: ON";
      assert |"TTS: OFF"| != |"TTS: ON"|;
    }
  }

  lemma ParseToggleToken()
    ensures Parse("tts_toggle") == ToggleTts
  {
    var t := "tts_toggle";
    assert t[0] == 't' && t[3] == '_' && t[4] == 't';
    assert !StartsWith(t, "gender_menu") && !StartsWith(t, "voice_menu");
    assert !StartsWith(t, "voice_set") && !StartsWith(t, "style_set");
  }

  // ---------------------------------------------------------------------------
  // Properties of button_handler

  /** `voice_set_<l>_<g>_<v>` stores `v` as the voice, changes nothing else, and
      redisplays the voice screen of `l` and `g`. */
  lemma VoiceSetRedisplays(users: map<int, Preference>, slot: Option<Catalog>, msg: map<int, string>,
                           cid: int, lang: string, gend: string, voice: string, provider: Provider)
    requires cid in users && '_' !in lang && '_' !in gend && '_' !in voice
    ensures var pref := users[cid].(voice := voice);
      var (slot', e) := Display(slot, provider, VoiceView(lang, gend), pref, EditInPlace);
      Handle(users, slot, msg, cid, VoiceSetToken(lang, gend, voice), provider) ==
        (users[cid := pref], slot', true, e)
  {
    ParseVoiceSetToken(lang, gend, voice);
  }

  /** After `voice_set_<l>_<g>_<v>`, the redisplayed screen frames `v`'s button. */
  lemma VoiceSetShowsChoice(users: map<int, Preference>, slot: Option<Catalog>, msg: map<int, string>,
                            cid: int, lang: string, gend: string, voice: string, provider: Provider,
                            cat: Catalog)
    requires cid in users && Fetch(slot, provider).1 == Ok(cat)
    requires lang in cat && gend in cat[lang] && voice in cat[lang][gend]
    requires '_' !in lang && '_' !in gend && '_' !in voice
    ensures var e := Handle(users, slot, msg, cid, VoiceSetToken(lang, gend, voice), provider).3;
      e.Shown? && e.delivery == EditInPlace &&
      exists i :: 0 <= i < |e.screen.keyboard| - 1 &&
        e.screen.keyboard[i] == [KeyButton("» " + voice + " «", VoiceSetToken(lang, gend, voice))]
  {
    var pref := users[cid].(voice := voice);
    VoiceSetRedisplays(users, slot, msg, cid, lang, gend, voice, provider);
    VoiceViewDisplays(slot, provider, lang, gend, pref, cat);
    VoiceScreenMarksCurrent(voice, cat, lang, gend);
  }

  /** With the catalogue fetched, opening a voice list edits the message into that list. */
  lemma VoiceViewDisplays(slot: Option<Catalog>, provider: Provider, lang: string, gend: string,
                          pref: Preference, cat: Catalog)
    requires Fetch(slot, provider).1 == Ok(cat) && lang in cat && gend in cat[lang]
    ensures VoiceScreen(pref.voice, cat, lang, gend).Ok?
    ensures Display(slot, provider, VoiceView(lang, gend), pref, EditInPlace).1 ==
      Shown(EditInPlace, VoiceScreen(pref.voice, cat, lang, gend).value)
  {
  }

  /** `style_set_<s>` stores `s` as the style and redisplays the style screen. */
  lemma StyleSetRedisplays(users: map<int, Preference>, slot: Option<Catalog>, msg: map<int, string>,
                           cid: int, style: string, provider: Provider)
    requires cid in users && '_' !in style
    ensures var pref := users[cid].(style := style);
      Handle(users, slot, msg, cid, StyleSetToken(style), provider) ==
        (users[cid := pref], slot, true, Shown(EditInPlace, StyleScreen(style)))
  {
    ParseStyleSetToken(style);
  }

  /** `tts_toggle` flips the stored flag and redisplays the toggle screen, whose
      label then shows the opposite state. */
  lemma TtsToggleRedisplays(users: map<int, Preference>, slot: Option<Catalog>, msg: map<int, string>,
                            cid: int, provider: Provider)
    requires cid in users
    ensures var pref := users[cid].(tts := Toggled(users[cid].tts));
      Handle(users, slot, msg, cid, "tts_toggle", provider) ==
        (users[cid := pref], slot, true, Shown(EditInPlace, TtsScreen(pref.tts)))
    ensures var kb := Handle(users, slot, msg, cid, "tts_toggle", provider).3.screen.keyboard;
      kb[0][0].text == "TTS: ON" <==> users[cid].tts != 1
  {
    ParseToggleToken();
    TtsScreenLabel(Toggled(users[cid].tts));
  }

  /** The fixed tokens and prefixes `button_handler` tests for. */
  predicate MatchesSomeBranch(token: string) {
    token in {"tts", "settings_menu", "lang_menu", "style_menu", "tts_menu", "tts_toggle"} ||
    StartsWith(token, "gender_menu") || StartsWith(token, "voice_menu") ||
    StartsWith(token, "voice_set") || StartsWith(token, "style_set")
  }

  /** A token no branch matches changes no record and renders nothing. */
  lemma UnmatchedTokenIsIgnored(users: map<int, Preference>, slot: Option<Catalog>, msg: map<int, string>,
                                cid: int, token: string, provider: Provider)
    requires !MatchesSomeBranch(token)
    ensures Parse(token) == Ignore
    ensures Handle(users, slot, msg, cid, token, provider) == (users, slot, cid in users, Silent)
  {
  }
}
