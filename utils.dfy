/** The helpers of bot/utils.py: keyboard buttons, row chunking, the log filter,
    the voice catalog cache and the speech-recognition poll loop. */
module Utils {
  import opened Outcomes
  import opened Strings

  // ---------------------------------------------------------------------------
  // Keyboards

  /** An inline keyboard button: its label and its callback token. */
  datatype KeyButton = KeyButton(text: string, callbackData: string)

  /** An inline keyboard, row by row. */
  type Keyboard = seq<seq<KeyButton>>

  /** `button`: one keyboard button per (label, callback token) pair, in order. */
  function Button(pairs: seq<(string, string)>): (row: seq<KeyButton>)
    ensures |row| == |pairs|
    ensures forall i :: 0 <= i < |pairs| ==>
      row[i].text == pairs[i].0 && row[i].callbackData == pairs[i].1
  {
    seq(|pairs|, i requires 0 <= i < |pairs| => KeyButton(pairs[i].0, pairs[i].1))
  }

  /** A negative chat id is a group chat. */
  function IsGroup(chatId: int): (group: bool)
    ensures group <==> chatId < 0
  {
    chatId < 0
  }

  function Flatten<T>(rows: seq<seq<T>>): seq<T> {
    if rows == [] then [] else rows[0] + Flatten(rows[1..])
  }

  /** The row width used for language buttons. */
  const RowWidth := 6

  /** `chunk`: consecutive slices of `size` elements, the last one possibly shorter. */
  function Chunk<T>(lst: seq<T>, size: nat): (rows: seq<seq<T>>)
    requires size > 0
    ensures Flatten(rows) == lst
    ensures forall i :: 0 <= i < |rows| ==> 0 < |rows[i]| <= size
    ensures forall i :: 0 <= i < |rows| - 1 ==> |rows[i]| == size
    decreases |lst|
  {
    if lst == [] then []
    else if |lst| <= size then
      assert Flatten([lst]) == lst + Flatten([]);
      [lst]
    else
      var rest := Chunk(lst[size..], size);
      assert ([lst[..size]] + rest)[1..] == rest;
      assert lst == lst[..size] + lst[size..];
      [lst[..size]] + rest
  }

  // ---------------------------------------------------------------------------
  // Log filtering

  /** The log messages containing any of these are dropped. */
  const LogFilters: seq<string> := ["Removed job", "Added job", "Job", "Running job"]

  /** The logging filter attached to the job scheduler's logger. */
  class NoLog {
    constructor () {}

    /** `filter`: a message is logged unless it contains one of the filter strings. */
    method Filter(message: string) returns (logged: bool)
      ensures logged <==> forall i :: 0 <= i < |LogFilters| ==> !Contains(message, LogFilters[i])
    {
      logged := true;
      var i := 0;
      while i < |LogFilters|
        invariant 0 <= i <= |LogFilters|
        invariant logged
        invariant forall j :: 0 <= j < i ==> !Contains(message, LogFilters[j])
      {
        if Contains(message, LogFilters[i]) {
          logged := false;
          break;
        }
        i := i + 1;
      }
    }
  }

  // ---------------------------------------------------------------------------
  // Finding a response button

  /** The rows before `i` are single buttons and none of them carries `data`. */
  ghost predicate PassedOver(keyboard: Keyboard, i: nat, data: string)
    requires i <= |keyboard|
  {
    forall j :: 0 <= j < i ==> |keyboard[j]| == 1 && keyboard[j][0].callbackData != data
  }

  /** `button_query`: the label of the first button whose callback token is
      `response_<index>`; a row that is not a single button raises ValueError when
      the loop unpacks it, and no match gives None. */
  method ButtonQuery(keyboard: Keyboard, index: string) returns (r: Result<Option<string>>)
    ensures r.Err? ==> (r.fault == ValueError &&
      exists i :: 0 <= i < |keyboard| && PassedOver(keyboard, i, "response_" + index) && |keyboard[i]| != 1)
    ensures r.Ok? && r.value.Some? ==>
      exists i :: 0 <= i < |keyboard| && PassedOver(keyboard, i, "response_" + index) &&
        keyboard[i] == [KeyButton(r.value.value, "response_" + index)]
    ensures r == Ok(None) <==> PassedOver(keyboard, |keyboard|, "response_" + index)
  {
    var data := "response_" + index;
    var i := 0;
    while i < |keyboard|
      invariant 0 <= i <= |keyboard|
      invariant PassedOver(keyboard, i, data)
    {
      if |keyboard[i]| != 1 {
        return Err(ValueError);
      }
      if keyboard[i][0].callbackData == data {
        return Ok(Some(keyboard[i][0].text));
      }
      i := i + 1;
    }
    return Ok(None);
  }

  // ---------------------------------------------------------------------------
  // Voice catalog

  /** language -> gender -> voice short names. */
  type Catalog = map<string, map<string, seq<string>>>

  /** One voice as listed by the text-to-speech provider. */
  datatype VoiceRecord = VoiceRecord(locale: string, gender: string, shortName: string)

  /** What the provider's voice listing does when it is called. */
  datatype Provider = Listed(records: seq<VoiceRecord>) | Unreachable

  /** The language part of a locale tag: `locale.split("-")[0]`. */
  function LangOf(v: VoiceRecord): string {
    Split(v.locale, '-')[0]
  }

  /** The voices stored under a language and gender, or none. */
  function Lookup(c: Catalog, lang: string, gend: string): seq<string> {
    if lang in c && gend in c[lang] then c[lang][gend] else []
  }

  /** One loop step of `list_voices`: create the language and gender entries when
      missing, then append the name. */
  function AddVoice(c: Catalog, lang: string, gend: string, name: string): (c': Catalog)
    ensures c'.Keys == c.Keys + {lang}
    ensures c'[lang].Keys == (if lang in c then c[lang].Keys else {}) + {gend}
    ensures forall l :: l in c && l != lang ==> c'[l] == c[l]
  {
    var c1 := if lang in c then c else c[lang := map[]];
    var c2 := if gend in c1[lang] then c1 else c1[lang := c1[lang][gend := []]];
    c2[lang := c2[lang][gend := c2[lang][gend] + [name]]]
  }

  /** The three steps amount to one update of the language's gender map. */
  lemma AddVoiceUpdates(c: Catalog, lang: string, gend: string, name: string)
    ensures var genders := if lang in c then c[lang] else map[];
      var names := if gend in genders then genders[gend] else [];
      AddVoice(c, lang, gend, name) == c[lang := genders[gend := names + [name]]]
  {
    var genders := if lang in c then c[lang] else map[];
    var names := if gend in genders then genders[gend] else [];
    var c' := c[lang := genders[gend := names + [name]]];
    assert AddVoice(c, lang, gend, name).Keys == c'.Keys;
    assert AddVoice(c, lang, gend, name)[lang] == c'[lang];
  }

  /** Adding a voice appends it to its own list and changes no other list. */
  lemma AddVoiceLookup(c: Catalog, lang: string, gend: string, name: string, l: string, g: string)
    ensures Lookup(AddVoice(c, lang, gend, name), l, g) ==
      Lookup(c, l, g) + (if (l, g) == (lang, gend) then [name] else [])
  {
    AddVoiceUpdates(c, lang, gend, name);
  }

  /** The catalog `list_voices` builds from the provider's records, in order. */
  function Group(rs: seq<VoiceRecord>): Catalog
    decreases |rs|
  {
    if rs == [] then map[]
    else
      var v := rs[|rs| - 1];
      AddVoice(Group(rs[..|rs| - 1]), LangOf(v), v.gender, v.shortName)
  }

  /** Grouping one more record of the list adds that record. */
  lemma GroupPrefix(rs: seq<VoiceRecord>, i: nat)
    requires i < |rs|
    ensures Group(rs[..i + 1]) == AddVoice(Group(rs[..i]), LangOf(rs[i]), rs[i].gender, rs[i].shortName)
  {
    assert rs[..i + 1][..i] == rs[..i] && rs[..i + 1][i] == rs[i];
  }

  /** The names of the records under a language and gender, in provider order,
      duplicates kept. */
  function NamesUnder(rs: seq<VoiceRecord>, lang: string, gend: string): seq<string>
    decreases |rs|
  {
    if rs == [] then []
    else
      var v := rs[|rs| - 1];
      NamesUnder(rs[..|rs| - 1], lang, gend) +
        (if LangOf(v) == lang && v.gender == gend then [v.shortName] else [])
  }

  /** Each language and gender list holds exactly its records' names, in order. */
  lemma {:induction false} GroupLookup(rs: seq<VoiceRecord>, lang: string, gend: string)
    ensures Lookup(Group(rs), lang, gend) == NamesUnder(rs, lang, gend)
    decreases |rs|
  {
    if rs != [] {
      var v := rs[|rs| - 1];
      GroupLookup(rs[..|rs| - 1], lang, gend);
      AddVoiceLookup(Group(rs[..|rs| - 1]), LangOf(v), v.gender, v.shortName, lang, gend);
    }
  }

  /** Some record has this language. */
  ghost predicate HasLang(rs: seq<VoiceRecord>, lang: string) {
    exists i :: 0 <= i < |rs| && LangOf(rs[i]) == lang
  }

  lemma HasLangSnoc(rs: seq<VoiceRecord>, lang: string)
    requires rs != []
    ensures HasLang(rs, lang) <==> HasLang(rs[..|rs| - 1], lang) || LangOf(rs[|rs| - 1]) == lang
  {
    var init := rs[..|rs| - 1];
    if HasLang(init, lang) {
      var i :| 0 <= i < |init| && LangOf(init[i]) == lang;
      assert rs[i] == init[i];
    }
    if HasLang(rs, lang) {
      var i :| 0 <= i < |rs| && LangOf(rs[i]) == lang;
      if i < |init| {
        assert init[i] == rs[i];
      }
    }
  }

  /** A language is in the catalog exactly when some record has it. */
  lemma {:induction false} GroupLanguages(rs: seq<VoiceRecord>, lang: string)
    ensures lang in Group(rs) <==> HasLang(rs, lang)
    decreases |rs|
  {
    if rs != [] {
      HasLangSnoc(rs, lang);
      GroupLanguages(rs[..|rs| - 1], lang);
    }
  }

  /** Some record has this language and gender. */
  ghost predicate HasVoice(rs: seq<VoiceRecord>, lang: string, gend: string) {
    exists i :: 0 <= i < |rs| && LangOf(rs[i]) == lang && rs[i].gender == gend
  }

  lemma HasVoiceSnoc(rs: seq<VoiceRecord>, lang: string, gend: string)
    requires rs != []
    ensures HasVoice(rs, lang, gend) <==>
      HasVoice(rs[..|rs| - 1], lang, gend) ||
      (LangOf(rs[|rs| - 1]) == lang && rs[|rs| - 1].gender == gend)
  {
    var init := rs[..|rs| - 1];
    if HasVoice(init, lang, gend) {
      var i :| 0 <= i < |init| && LangOf(init[i]) == lang && init[i].gender == gend;
      assert rs[i] == init[i];
    }
    if HasVoice(rs, lang, gend) {
      var i :| 0 <= i < |rs| && LangOf(rs[i]) == lang && rs[i].gender == gend;
      if i < |init| {
        assert init[i] == rs[i];
      }
    }
  }

  /** A gender is listed under a language exactly when some record has both. */
  lemma {:induction false} GroupGenders(rs: seq<VoiceRecord>, lang: string, gend: string)
    requires lang in Group(rs)
    ensures gend in Group(rs)[lang] <==> HasVoice(rs, lang, gend)
    decreases |rs|
  {
    var init := rs[..|rs| - 1];
    HasVoiceSnoc(rs, lang, gend);
    if lang in Group(init) {
      GroupGenders(init, lang, gend);
    } else {
      GroupLanguages(init, lang);
    }
  }

  /** The sum of the values of a map. */
  ghost function Total<K>(m: map<K, nat>): nat
    decreases |m|
  {
    if m == map[] then 0 else var k :| k in m; m[k] + Total(m - {k})
  }

  lemma {:induction false} TotalRemove<K>(m: map<K, nat>, k: K)
    requires k in m
    ensures Total(m) == m[k] + Total(m - {k})
    decreases |m|
  {
    var j :| j in m && Total(m) == m[j] + Total(m - {j});
    if j != k {
      TotalRemove(m - {j}, k);
      TotalRemove(m - {k}, j);
      assert m - {j} - {k} == m - {k} - {j};
    }
  }

  lemma TotalUpdate<K>(m: map<K, nat>, k: K, v: nat)
    ensures Total(m[k := v]) == Total(m) - (if k in m then m[k] else 0) + v
  {
    TotalRemove(m[k := v], k);
    assert m[k := v] - {k} == m - {k};
    if k in m {
      TotalRemove(m, k);
    } else {
      assert m - {k} == m;
    }
  }

  lemma TotalEmpty<K>(m: map<K, nat>)
    requires m.Keys == {}
    ensures Total(m) == 0
  {
    assert m == map[];
  }

  /** The length of each gender's name list. */
  function Counts(gm: map<string, seq<string>>): (counts: map<string, nat>)
    ensures counts.Keys == gm.Keys
    ensures forall g :: g in gm ==> counts[g] == |gm[g]|
  {
    map g | g in gm :: |gm[g]|
  }

  /** How many names a gender map holds. */
  ghost function GenderSize(gm: map<string, seq<string>>): nat {
    Total(Counts(gm))
  }

  /** The number of names under each language. */
  ghost function Sizes(c: Catalog): (sizes: map<string, nat>)
    ensures sizes.Keys == c.Keys
    ensures forall l :: l in c ==> sizes[l] == GenderSize(c[l])
  {
    map l | l in c :: GenderSize(c[l])
  }

  /** How many names a catalog holds. */
  ghost function Size(c: Catalog): nat {
    Total(Sizes(c))
  }

  lemma GenderSizeAppend(gm: map<string, seq<string>>, gend: string, name: string)
    ensures var names := if gend in gm then gm[gend] else [];
      GenderSize(gm[gend := names + [name]]) == GenderSize(gm) + 1
  {
    var names := if gend in gm then gm[gend] else [];
    assert Counts(gm[gend := names + [name]]) == Counts(gm)[gend := |names| + 1];
    TotalUpdate(Counts(gm), gend, |names| + 1);
  }

  lemma SizeReplace(c: Catalog, lang: string, gm: map<string, seq<string>>)
    ensures Size(c[lang := gm]) == Size(c) - (if lang in c then GenderSize(c[lang]) else 0) + GenderSize(gm)
  {
    assert Sizes(c[lang := gm]) == Sizes(c)[lang := GenderSize(gm)];
    TotalUpdate(Sizes(c), lang, GenderSize(gm));
  }

  lemma AddVoiceSize(c: Catalog, lang: string, gend: string, name: string)
    ensures Size(AddVoice(c, lang, gend, name)) == Size(c) + 1
  {
    var genders := if lang in c then c[lang] else map[];
    var names := if gend in genders then genders[gend] else [];
    AddVoiceUpdates(c, lang, gend, name);
    GenderSizeAppend(genders, gend, name);
    SizeReplace(c, lang, genders[gend := names + [name]]);
    if lang !in c {
      TotalEmpty(Counts(genders));
    }
  }

  /** The catalog stores one name per provider record. */
  lemma {:induction false} GroupSize(rs: seq<VoiceRecord>)
    ensures Size(Group(rs)) == |rs|
    decreases |rs|
  {
    if rs == [] {
      TotalEmpty(Sizes(Group(rs)));
    } else {
      var v := rs[|rs| - 1];
      GroupSize(rs[..|rs| - 1]);
      AddVoiceSize(Group(rs[..|rs| - 1]), LangOf(v), v.gender, v.shortName);
    }
  }

  /** What `list_voices` leaves in its cache slot and what it returns, given the
      slot before the call and what the provider would do if called. */
  function Fetch(slot: Option<Catalog>, provider: Provider): (Option<Catalog>, Result<Catalog>) {
    if slot.Some? then (slot, Ok(slot.value))
    else match provider
      case Unreachable => (Some(map[]), Err(ProviderError))
      case Listed(rs) => (Some(Group(rs)), Ok(Group(rs)))
  }

  /** A populated slot is returned as it is, without calling the provider. */
  lemma CachedCatalogIsFinal(slot: Option<Catalog>, p: Provider, q: Provider)
    requires slot.Some?
    ensures Fetch(slot, p) == Fetch(slot, q) == (slot, Ok(slot.value))
  {
  }

  /** The slot is set before the provider is called, so a failed first call
      leaves an empty catalog that every later call returns. */
  lemma FailedFetchIsNotRetried(p: Provider)
    ensures Fetch(None, Unreachable).0 == Some(map[])
    ensures Fetch(Fetch(None, Unreachable).0, p) == (Some(map[]), Ok(map[]))
  {
  }

  /** The process-wide `DATA` dictionary: the voice catalog slot and the last
      reply of each chat. */
  class Data {
    var tts: Option<Catalog>
    var msg: map<int, string>

    constructor ()
      ensures tts == None && msg == map[]
    {
      tts := None;
      msg := map[];
    }

    /** `list_voices`: fill the slot on the first call, then serve it. */
    method ListVoices(provider: Provider) returns (r: Result<Catalog>)
      modifies this`tts
      ensures (tts, r) == Fetch(old(tts), provider)
    {
      if tts.Some? {
        return Ok(tts.value);
      }
      tts := Some(map[]);
      if provider.Unreachable? {
        return Err(ProviderError);
      }
      var rs := provider.records;
      var i := 0;
      while i < |rs|
        invariant 0 <= i <= |rs|
        invariant tts == Some(Group(rs[..i]))
      {
        var v := rs[i];
        var lang := Split(v.locale, '-')[0];
        ghost var before := tts.value;
        var cat := tts.value;
        if lang !in cat {
          cat := cat[lang := map[]];
        }
        if v.gender !in cat[lang] {
          cat := cat[lang := cat[lang][v.gender := []]];
        }
        cat := cat[lang := cat[lang][v.gender := cat[lang][v.gender] + [v.shortName]]];
        tts := Some(cat);
        assert cat == AddVoice(before, lang, v.gender, v.shortName);
        GroupPrefix(rs, i);
        assert lang == LangOf(rs[i]) && before == Group(rs[..i]);
        assert cat == Group(rs[..i + 1]);
        i := i + 1;
      }
      assert rs[..i] == rs;
      r := Ok(tts.value);
    }
  }

  // ---------------------------------------------------------------------------
  // Speech recognition

  const DefaultTranscript := "Could not connect to AssemblyAI API. Try again later."

  /** The two kinds of exception that matter: the caught `aiohttp.web.HTTPException`
      and everything else. */
  datatype Exception = HttpException | OtherException

  /** One exchange with the recognition provider: a JSON answer or a raised exception.
      A JSON `null` in the `status` or `text` field is `None`; a missing field makes
      the lookup raise, so it is a `Raise(OtherException)` step. */
  datatype Step = Answer(status: Option<string>, text: Option<string>) | Raise(kind: Exception)

  /** How `automatic_speech_recognition` ends: it returns a text, an exception
      escapes it, or the script ends while it still waits for the provider. */
  datatype AsrOutcome = Returned(text: Option<string>) | Propagated | Unfinished

  /** The outcome and the number of status polls issued. */
  datatype AsrRun = AsrRun(outcome: AsrOutcome, polls: nat)

  /** `status in ("completed", "error")`; a `null` status is not terminal. */
  predicate Terminal(status: Option<string>) {
    status == Some("completed") || status == Some("error")
  }

  /** An exception inside the `try`: the caught kind returns the default text. */
  function Caught(kind: Exception): AsrOutcome {
    if kind == HttpException then Returned(Some(DefaultTranscript)) else Propagated
  }

  /** The poll loop from response `resp` on, with `rest` the answers to later polls. */
  function Polling(resp: Step, rest: seq<Step>): (run: AsrRun)
    requires resp.Answer?
    decreases |rest|
  {
    if Terminal(resp.status) then AsrRun(Returned(resp.text), 0)
    else if rest == [] then AsrRun(Unfinished, 0)
    else
      var after := match rest[0]
        case Raise(k) => AsrRun(Caught(k), 0)
        case Answer(_, _) => Polling(rest[0], rest[1..]);
      after.(polls := after.polls + 1)
  }

  /** The whole exchange: `steps[0]` answers the upload, `steps[1]` the creation
      of the transcription job, and `steps[2..]` the successive status polls. */
  function Transcription(steps: seq<Step>): (run: AsrRun) {
    if |steps| == 0 then AsrRun(Unfinished, 0)
    else if steps[0].Raise? then AsrRun(Caught(steps[0].kind), 0)
    else if |steps| == 1 then AsrRun(Unfinished, 0)
    else if steps[1].Raise? then AsrRun(Caught(steps[1].kind), 0)
    else Polling(steps[1], steps[2..])
  }

  /** The exchanges before `j` were answered, and no answer from the job creation
      on before `j` was terminal. */
  ghost predicate PendingBefore(steps: seq<Step>, j: nat)
    requires j <= |steps|
  {
    (forall k :: 0 <= k < j ==> steps[k].Answer?) &&
    (forall k :: 1 <= k < j ==> !Terminal(steps[k].status))
  }

  lemma {:induction false} PollingTerminalAt(resp: Step, rest: seq<Step>, j: nat)
    requires resp.Answer? && j <= |rest|
    requires !Terminal(resp.status) || j == 0
    requires forall k :: 0 <= k < j ==> rest[k].Answer?
    requires forall k :: 0 <= k < j - 1 ==> !Terminal(rest[k].status)
    requires j > 0 ==> rest[j - 1].Answer? && Terminal(rest[j - 1].status)
    requires j == 0 ==> Terminal(resp.status)
    ensures Polling(resp, rest) ==
      AsrRun(Returned(if j == 0 then resp.text else rest[j - 1].text), j)
    decreases j
  {
    if j > 0 {
      if j > 1 {
        PollingTerminalAt(rest[0], rest[1..], j - 1);
      } else {
        PollingTerminalAt(rest[0], rest[1..], 0);
      }
    }
  }

  /** The first terminal answer ends the loop: its text is returned, one poll was
      issued per non-terminal status before it, and later script entries are never read. */
  lemma TerminalAt(steps: seq<Step>, j: nat)
    requires 1 <= j < |steps| && PendingBefore(steps, j)
    requires steps[j].Answer? && Terminal(steps[j].status)
    ensures Transcription(steps) == AsrRun(Returned(steps[j].text), j - 1)
    ensures Transcription(steps[..j + 1]) == Transcription(steps)
  {
    assert steps[0].Answer? && steps[1].Answer?;
    var pre := steps[..j + 1];
    PollingTerminalAt(steps[1], steps[2..], j - 1);
    PollingTerminalAt(pre[1], pre[2..], j - 1);
  }

  lemma {:induction false} PollingRaisedAt(resp: Step, rest: seq<Step>, j: nat)
    requires resp.Answer? && !Terminal(resp.status) && j < |rest|
    requires forall k :: 0 <= k < j ==> rest[k].Answer? && !Terminal(rest[k].status)
    requires rest[j].Raise?
    ensures Polling(resp, rest) == AsrRun(Caught(rest[j].kind), j + 1)
    decreases j
  {
    if j > 0 {
      PollingRaisedAt(rest[0], rest[1..], j - 1);
    }
  }

  /** An exception at any exchange ends the call: HTTPException returns the default
      text, any other exception escapes; every poll issued up to it is counted. */
  lemma RaisedAt(steps: seq<Step>, j: nat)
    requires j < |steps| && PendingBefore(steps, j) && steps[j].Raise?
    ensures Transcription(steps) == AsrRun(Caught(steps[j].kind), if j >= 2 then j - 1 else 0)
    ensures steps[j].kind == HttpException ==> Transcription(steps).outcome == Returned(Some(DefaultTranscript))
  {
    if j >= 2 {
      PollingRaisedAt(steps[1], steps[2..], j - 2);
    }
  }

  lemma {:induction false} PollingExhausted(resp: Step, rest: seq<Step>)
    requires resp.Answer? && !Terminal(resp.status)
    requires forall k :: 0 <= k < |rest| ==> rest[k].Answer? && !Terminal(rest[k].status)
    ensures Polling(resp, rest) == AsrRun(Unfinished, |rest|)
    decreases |rest|
  {
    if rest != [] {
      PollingExhausted(rest[0], rest[1..]);
    }
  }

  /** A script without a terminal answer or an exception leaves the loop waiting. */
  lemma Exhausted(steps: seq<Step>)
    requires PendingBefore(steps, |steps|)
    ensures Transcription(steps) == AsrRun(Unfinished, if |steps| >= 2 then |steps| - 2 else 0)
  {
    if |steps| >= 2 {
      PollingExhausted(steps[1], steps[2..]);
    }
  }

  /** A `null` status is not terminal: the loop polls again, as for a pending job. */
  lemma NullStatusKeepsPolling()
    ensures Transcription([Answer(None, None), Answer(None, None), Answer(None, None),
                           Answer(Some("completed"), Some("hi"))]) == AsrRun(Returned(Some("hi")), 2)
  {
  }

  /** `automatic_speech_recognition`: upload, create the job, poll until the
      status is terminal, and return the last answer's text. */
  method AutomaticSpeechRecognition(steps: seq<Step>) returns (run: AsrRun)
    ensures run == Transcription(steps)
  {
    var text: Option<string> := Some(DefaultTranscript);
    // POST /upload
    if |steps| == 0 {
      return AsrRun(Unfinished, 0);
    }
    if steps[0].Raise? {
      return AsrRun(Caught(steps[0].kind), 0);
    }
    // POST /transcript
    if |steps| == 1 {
      return AsrRun(Unfinished, 0);
    }
    if steps[1].Raise? {
      return AsrRun(Caught(steps[1].kind), 0);
    }
    var resp := steps[1];
    var status := resp.status;
    var polls := 0;
    var i := 2;
    while !Terminal(status)
      invariant 2 <= i <= |steps| && polls == i - 2
      invariant resp.Answer? && status == resp.status
      invariant Polling(steps[1], steps[2..]) ==
        var tail := Polling(resp, steps[i..]); tail.(polls := tail.polls + polls)
      decreases |steps| - i
    {
      // GET /transcript/<id>
      if i == |steps| {
        return AsrRun(Unfinished, polls);
      }
      polls := polls + 1;
      if steps[i].Raise? {
        return AsrRun(Caught(steps[i].kind), polls);
      }
      assert steps[i..][1..] == steps[i + 1..];
      resp := steps[i];
      status := resp.status;
      i := i + 1;
    }
    text := resp.text;
    return AsrRun(Returned(text), polls);
  }
}
