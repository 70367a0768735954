/** The /gastei conversation: five states, the per-user dictionary the
    handlers fill in, and the ConversationHandler that routes each text
    message to a state's handler or to the fallback. */
module Dialog {
  import opened Wrappers
  import opened Text
  import Format

  /** The five state labels, WAIT_EXPENSE_TYPE .. SEND_DATA. No conversation
      (ConversationHandler.END) is None in an Option<State>. */
  datatype State = WaitExpenseType | WaitExpenseValue | WaitForUserName | ConfirmInput | SendData

  /** context.user_data as the handlers use it: the four keys they write. */
  datatype UserData = UserData(
    tipo: Option<string>,
    valor: Option<string>,
    descricao: Option<string>,
    comprador: Option<string>)

  const NoUserData := UserData(None, None, None, None)

  /** The four form fields upload_data posts. */
  datatype FormData = FormData(tipo: string, valor: string, descricao: string, comprador: string)

  /** What one message does: the conversation's next state, the user's data
      afterwards, and the form the message submits, if any. */
  datatype Turn = Turn(state: Option<State>, userData: UserData, upload: Option<FormData>)

  // ---------------------------------------------------------------------------
  // Message filters

  /** Characters Telegram accepts in a bot command's name. */
  predicate IsCommandChar(c: char)
  {
    'a' <= c <= 'z' || 'A' <= c <= 'Z' || '0' <= c <= '9' || c == '_'
  }

  /** Filters.command: the text opens with a bot command, a slash followed by
      a command name. */
  predicate IsCommand(text: string)
  {
    |text| >= 2 && text[0] == '/' && IsCommandChar(text[1])
  }

  function CommandNameLength(s: string): (n: nat)
    ensures n <= |s|
  {
    if s != [] && IsCommandChar(s[0]) then 1 + CommandNameLength(s[1..]) else 0
  }

  /** The command's name: the run of command characters after the slash. */
  function CommandName(text: string): string
    requires IsCommand(text)
  {
    text[1..1 + CommandNameLength(text[1..])]
  }

  /** CommandHandler("gastei"): the text opens with the command gastei, in any
      letter case. */
  predicate IsGastei(text: string)
  {
    IsCommand(text) && Lower(CommandName(text)) == "gastei"
  }

  /** Filters.regex("^word$"): Python's re.search, where $ also matches just
      before a final newline. */
  predicate MatchesWhole(text: string, word: string)
  {
    text == word || text == word + "\n"
  }

  /** Filters.regex("^(r|R)eset$") */
  predicate IsReset(text: string)
  {
    MatchesWhole(text, "reset") || MatchesWhole(text, "Reset")
  }

  predicate IsSim(text: string) { MatchesWhole(text, "Sim") }

  predicate IsNao(text: string) { MatchesWhole(text, "Não") }

  /** The filter of every state handler: Filters.text & ~(Filters.command |
      Filters.regex("^(r|R)eset$")), further narrowed to "^Sim$" in SEND_DATA. */
  predicate HandlerMatches(state: State, text: string)
  {
    !IsCommand(text) && !IsReset(text) && (state == SendData ==> IsSim(text))
  }

  /** The fallback's filter, Filters.regex("^(r|R)eset$|^Não$"). */
  predicate FallbackMatches(text: string)
  {
    IsReset(text) || IsNao(text)
  }

  // ---------------------------------------------------------------------------
  // Handlers and the conversation step

  predicate Complete(data: UserData)
  {
    data.tipo.Some? && data.valor.Some? && data.descricao.Some? && data.comprador.Some?
  }

  /** upload_data's form: every stored value lower-cased. */
  function Lowered(data: UserData): (form: FormData)
    requires Complete(data)
    ensures SameUpToCase(form.tipo, data.tipo.value) && NoUpper(form.tipo)
    ensures SameUpToCase(form.valor, data.valor.value) && NoUpper(form.valor)
    ensures SameUpToCase(form.descricao, data.descricao.value) && NoUpper(form.descricao)
    ensures SameUpToCase(form.comprador, data.comprador.value) && NoUpper(form.comprador)
  {
    FormData(Lower(data.tipo.value), Lower(data.valor.value),
             Lower(data.descricao.value), Lower(data.comprador.value))
  }

  /** The state's handler, run once its filter has matched: expense_value,
      expense_description, buyer_name and confirm each store the text under
      their key and move on; upload_data submits and ends the conversation.
      Should a key be missing, upload_data raises KeyError, and the framework
      then keeps the state as it was. */
  function RunHandler(state: State, data: UserData, text: string): (t: Turn)
    ensures state != SendData ==>
              t.state == Some(Next(state)) && Answer(t.userData, state) == Some(text) &&
              forall s :: s != state ==> Answer(t.userData, s) == Answer(data, s)
    ensures state == SendData ==> t.userData == data
    ensures Grows(data, t.userData)
    ensures t.upload.Some? <==> state == SendData && Complete(data)
    ensures t.upload.Some? ==> t.upload.value == Lowered(data) && t.state == None
    ensures state != SendData ==> t.state.Some? && t.state.value != state
  {
    match state
    case WaitExpenseType => Turn(Some(WaitExpenseValue), data.(tipo := Some(text)), None)
    case WaitExpenseValue => Turn(Some(WaitForUserName), data.(valor := Some(text)), None)
    case WaitForUserName => Turn(Some(ConfirmInput), data.(descricao := Some(text)), None)
    case ConfirmInput => Turn(Some(SendData), data.(comprador := Some(text)), None)
    case SendData =>
      if Complete(data) then Turn(None, data, Some(Lowered(data)))
      else Turn(Some(SendData), data, None)
  }

  /** One text message through the ConversationHandler. With no conversation
      only the entry point /gastei is tried (it leaves user_data alone); inside
      one, the state's handler is tried first, then the fallback done, which
      ends the conversation; a message neither matches is not handled and
      changes nothing. Re-entry is off, so /gastei inside a conversation is
      not handled. */
  function Step(state: Option<State>, data: UserData, text: string): (t: Turn)
    ensures t.upload.Some? <==> state == Some(SendData) && IsSim(text) && Complete(data)
    ensures t.upload.Some? ==> t.upload.value == Lowered(data) && t.state == None
    ensures Grows(data, t.userData)
  {
    match state
    case None =>
      if IsGastei(text) then Turn(Some(WaitExpenseType), data, None) else Turn(None, data, None)
    case Some(s) =>
      if HandlerMatches(s, text) then RunHandler(s, data, text)
      else if FallbackMatches(text) then Turn(None, data, None)
      else Turn(state, data, None)
  }

  /** No key is ever removed from user_data. */
  predicate Grows(before: UserData, after: UserData)
  {
    (before.tipo.Some? ==> after.tipo.Some?) &&
    (before.valor.Some? ==> after.valor.Some?) &&
    (before.descricao.Some? ==> after.descricao.Some?) &&
    (before.comprador.Some? ==> after.comprador.Some?)
  }

  /** The answer each of the first four states' handler stores. */
  function Answer(data: UserData, s: State): Option<string>
  {
    match s
    case WaitExpenseType => data.tipo
    case WaitExpenseValue => data.valor
    case WaitForUserName => data.descricao
    case ConfirmInput => data.comprador
    case SendData => None
  }

  /** The state each of the first four states' handler moves to. */
  function Next(s: State): State
  {
    match s
    case WaitExpenseType => WaitExpenseValue
    case WaitExpenseValue => WaitForUserName
    case WaitForUserName => ConfirmInput
    case ConfirmInput => SendData
    case SendData => SendData
  }

  /** A submitted form: no field holds an upper-case letter. */
  predicate LowerForm(form: FormData)
  {
    NoUpper(form.tipo) && NoUpper(form.valor) && NoUpper(form.descricao) && NoUpper(form.comprador)
  }

  /** Many messages in a row: the final state and user data, and the forms
      submitted on the way, in order. */
  datatype Trace = Trace(state: Option<State>, userData: UserData, uploads: seq<FormData>)

  function Run(state: Option<State>, data: UserData, texts: seq<string>): Trace
    decreases |texts|
  {
    if texts == [] then Trace(state, data, [])
    else
      var t := Step(state, data, texts[0]);
      var rest := Run(t.state, t.userData, texts[1..]);
      Trace(rest.state, rest.userData, (if t.upload.Some? then [t.upload.value] else []) + rest.uploads)
  }

  // ---------------------------------------------------------------------------
  // What the conversation guarantees

  /** Text a state handler of the first four states accepts as data. */
  predicate IsData(text: string) { !IsCommand(text) && !IsReset(text) }

  /** With no conversation, exactly /gastei starts one, in WAIT_EXPENSE_TYPE,
      and nothing is stored or submitted. */
  lemma StartOnlyByGastei(data: UserData, text: string)
    ensures Step(None, data, text).state.Some? <==> IsGastei(text)
    ensures IsGastei(text) ==> Step(None, data, text) == Turn(Some(WaitExpenseType), data, None)
    ensures !IsGastei(text) ==> Step(None, data, text) == Turn(None, data, None)
  {
  }

  /** The name of "/" + name + rest is name when rest does not go on with a
      command character. */
  lemma {:induction false} CommandNameOf(name: string, rest: string)
    requires name != [] && forall i :: 0 <= i < |name| ==> IsCommandChar(name[i])
    requires rest == [] || !IsCommandChar(rest[0])
    ensures IsCommand("/" + name + rest) && CommandName("/" + name + rest) == name
  {
    var text := "/" + name + rest;
    assert text[1..] == name + rest;
    NameLength(name, rest);
    assert text[1..1 + |name|] == name;
  }

  lemma {:induction false} NameLength(name: string, rest: string)
    requires forall i :: 0 <= i < |name| ==> IsCommandChar(name[i])
    requires rest == [] || !IsCommandChar(rest[0])
    ensures CommandNameLength(name + rest) == |name|
    decreases |name|
  {
    if name == [] {
      assert name + rest == rest;
    } else {
      assert (name + rest)[1..] == name[1..] + rest;
      NameLength(name[1..], rest);
    }
  }

  /** /gastei is recognised in any letter case and as the first word of a
      longer text, but not as part of a longer command name or without the
      slash. */
  lemma GasteiForms()
    ensures IsGastei("/gastei") && IsGastei("/Gastei") && IsGastei("/gastei agora")
    ensures !IsGastei("/gasteii") && !IsGastei("gastei")
  {
    GasteiPlain();
    GasteiCapital();
    GasteiWithText();
    GasteiLonger();
  }

  lemma GasteiPlain()
    ensures IsGastei("/gastei")
  {
    CommandNameOf("gastei", "");
    assert "/" + "gastei" + "" == "/gastei";
    LowerKeeps("gastei");
  }

  lemma GasteiCapital()
    ensures IsGastei("/Gastei")
  {
    CommandNameOf("Gastei", "");
    assert "/" + "Gastei" + "" == "/Gastei";
    var r := Lower("Gastei");
    assert r[0] == LowerChar('G') == 'g';
    assert r[1..] == "astei";
  }

  lemma GasteiWithText()
    ensures IsGastei("/gastei agora")
  {
    CommandNameOf("gastei", " agora");
    assert "/" + "gastei" + " agora" == "/gastei agora";
    LowerKeeps("gastei");
  }

  lemma GasteiLonger()
    ensures !IsGastei("/gasteii")
  {
    CommandNameOf("gasteii", "");
    assert "/" + "gasteii" + "" == "/gasteii";
    assert |Lower("gasteii")| == 7;
  }

  lemma LowerKeeps(s: string)
    requires forall i :: 0 <= i < |s| ==> !IsUpper(s[i])
    ensures Lower(s) == s
  {
  }

  /** Four data messages fill tipo, valor, descrição and comprador in this
      order and reach SEND_DATA, whatever user_data held before. */
  lemma FourAnswers(data: UserData, tipo: string, valor: string, descricao: string, comprador: string)
    requires IsData(tipo) && IsData(valor) && IsData(descricao) && IsData(comprador)
    ensures Run(Some(WaitExpenseType), data, [tipo, valor, descricao, comprador]) ==
            Trace(Some(SendData), UserData(Some(tipo), Some(valor), Some(descricao), Some(comprador)), [])
  {
    var d1 := data.(tipo := Some(tipo));
    var d2 := d1.(valor := Some(valor));
    var d3 := d2.(descricao := Some(descricao));
    var d4 := d3.(comprador := Some(comprador));
    assert d4 == UserData(Some(tipo), Some(valor), Some(descricao), Some(comprador));
    assert Run(Some(SendData), d4, []) == Trace(Some(SendData), d4, []);
    assert Run(Some(ConfirmInput), d3, [comprador]) == Trace(Some(SendData), d4, []) by {
      assert [comprador][1..] == [];
    }
    assert Run(Some(WaitForUserName), d2, [descricao, comprador]) == Trace(Some(SendData), d4, []) by {
      assert [descricao, comprador][1..] == [comprador];
    }
    assert Run(Some(WaitExpenseValue), d1, [valor, descricao, comprador]) == Trace(Some(SendData), d4, []) by {
      assert [valor, descricao, comprador][1..] == [descricao, comprador];
    }
    assert [tipo, valor, descricao, comprador][1..] == [valor, descricao, comprador];
  }

  /** The whole dialog: /gastei, four answers and "Sim" submit the answers
      lower-cased and end the conversation. */
  lemma FullDialog(data: UserData, tipo: string, valor: string, descricao: string, comprador: string)
    requires IsData(tipo) && IsData(valor) && IsData(descricao) && IsData(comprador)
    ensures Run(None, data, ["/gastei", tipo, valor, descricao, comprador, "Sim"]) ==
            Trace(None, UserData(Some(tipo), Some(valor), Some(descricao), Some(comprador)),
                  [FormData(Lower(tipo), Lower(valor), Lower(descricao), Lower(comprador))])
  {
    GasteiPlain();
    var texts := ["/gastei", tipo, valor, descricao, comprador, "Sim"];
    assert Step(None, data, "/gastei") == Turn(Some(WaitExpenseType), data, None);
    assert texts[0] == "/gastei" && texts[1..] == [tipo, valor, descricao, comprador, "Sim"];
    AnswersThenSim(data, tipo, valor, descricao, comprador);
  }

  /** From WAIT_EXPENSE_TYPE, four answers and "Sim" submit the answers
      lower-cased and end the conversation. */
  lemma AnswersThenSim(data: UserData, tipo: string, valor: string, descricao: string, comprador: string)
    requires IsData(tipo) && IsData(valor) && IsData(descricao) && IsData(comprador)
    ensures Run(Some(WaitExpenseType), data, [tipo, valor, descricao, comprador, "Sim"]) ==
            Trace(None, UserData(Some(tipo), Some(valor), Some(descricao), Some(comprador)),
                  [FormData(Lower(tipo), Lower(valor), Lower(descricao), Lower(comprador))])
  {
    var answers := [tipo, valor, descricao, comprador];
    assert answers + ["Sim"] == [tipo, valor, descricao, comprador, "Sim"];
    var filled := UserData(Some(tipo), Some(valor), Some(descricao), Some(comprador));
    var form := FormData(Lower(tipo), Lower(valor), Lower(descricao), Lower(comprador));
    RunAppend(Some(WaitExpenseType), data, answers, ["Sim"]);
    FourAnswers(data, tipo, valor, descricao, comprador);
    assert Step(Some(SendData), filled, "Sim") == Turn(None, filled, Some(form)) by {
      assert !IsCommand("Sim") && !IsReset("Sim");
    }
    assert Run(Some(SendData), filled, ["Sim"]) == Trace(None, filled, [form]) by {
      assert ["Sim"][1..] == [];
      assert Run(None, filled, []) == Trace(None, filled, []);
    }
  }

  /** "despesa", "50,00", "mercado", "Bruno" and "Sim" submit despesa, 50,00,
      mercado and bruno. */
  lemma DespesaScenario(data: UserData)
    ensures Run(Some(WaitExpenseType), data, ["despesa", "50,00", "mercado", "Bruno", "Sim"]) ==
            Trace(None, UserData(Some("despesa"), Some("50,00"), Some("mercado"), Some("Bruno")),
                  [FormData("despesa", "50,00", "mercado", "bruno")])
  {
    ScenarioAnswersAreData();
    ScenarioLowered();
    AnswersThenSim(data, "despesa", "50,00", "mercado", "Bruno");
  }

  lemma ScenarioAnswersAreData()
    ensures IsData("despesa") && IsData("50,00") && IsData("mercado") && IsData("Bruno")
  {
  }

  lemma ScenarioLowered()
    ensures Lower("despesa") == "despesa" && Lower("50,00") == "50,00" && Lower("mercado") == "mercado"
    ensures Lower("Bruno") == "bruno"
  {
    LowerKeeps("despesa");
    LowerKeeps("50,00");
    LowerKeeps("mercado");
    LowerBruno();
  }

  lemma LowerBruno()
    ensures Lower("Bruno") == "bruno"
  {
    var r := Lower("Bruno");
    assert r[0] == LowerChar('B') == 'b';
    assert r[1..] == Lower("runo") == "runo" by { LowerKeeps("runo"); }
  }

  /** Running two batches of messages is running their concatenation. */
  lemma {:induction false} RunAppend(state: Option<State>, data: UserData, xs: seq<string>, ys: seq<string>)
    ensures var a := Run(state, data, xs);
            var b := Run(a.state, a.userData, ys);
            Run(state, data, xs + ys) == Trace(b.state, b.userData, a.uploads + b.uploads)
    decreases |xs|
  {
    if xs == [] {
      assert xs + ys == ys;
    } else {
      var t := Step(state, data, xs[0]);
      var first := if t.upload.Some? then [t.upload.value] else [];
      RunAppend(t.state, t.userData, xs[1..], ys);
      var a' := Run(t.state, t.userData, xs[1..]);
      var b := Run(a'.state, a'.userData, ys);
      assert (xs + ys)[0] == xs[0] && (xs + ys)[1..] == xs[1..] + ys;
      RunFirst(state, data, xs + ys);
      RunFirst(state, data, xs);
      assert first + (a'.uploads + b.uploads) == (first + a'.uploads) + b.uploads;
    }
  }

  /** Each message submits at most once, and every submitted form is
      lower-cased. */
  lemma {:induction false} RunUploads(state: Option<State>, data: UserData, texts: seq<string>)
    ensures var r := Run(state, data, texts);
            |r.uploads| <= |texts| && forall i :: 0 <= i < |r.uploads| ==> LowerForm(r.uploads[i])
    decreases |texts|
  {
    if texts != [] {
      var t := Step(state, data, texts[0]);
      RunUploads(t.state, t.userData, texts[1..]);
      RunFirst(state, data, texts);
    }
  }

  /** Run on a nonempty batch: the first message's step, then the rest. */
  lemma RunFirst(state: Option<State>, data: UserData, texts: seq<string>)
    requires texts != []
    ensures var t := Step(state, data, texts[0]);
            var rest := Run(t.state, t.userData, texts[1..]);
            Run(state, data, texts) == Trace(rest.state, rest.userData, (if t.upload.Some? then [t.upload.value] else []) + rest.uploads)
  {
  }

  /** "reset" and "Reset" end the conversation from every state, storing and
      submitting nothing. */
  lemma ResetAborts(state: State, data: UserData, text: string)
    requires IsReset(text)
    ensures Step(Some(state), data, text) == Turn(None, data, None)
  {
  }

  /** The reset pattern is case-sensitive beyond its first letter: "RESET" is
      data to the first four states and matches nothing in SEND_DATA. */
  lemma UpperResetIsData(data: UserData)
    ensures Step(Some(WaitExpenseType), data, "RESET") == Turn(Some(WaitExpenseValue), data.(tipo := Some("RESET")), None)
    ensures Step(Some(SendData), data, "RESET") == Turn(Some(SendData), data, None)
  {
    assert !IsReset("RESET") && !IsNao("RESET") && !IsSim("RESET");
  }

  /** Before SEND_DATA, "Não" is ordinary data: the state's handler matches it
      before the fallback is consulted. */
  lemma NaoIsDataBeforeConfirmation(state: State, data: UserData)
    requires state != SendData
    ensures Step(Some(state), data, "Não") == RunHandler(state, data, "Não")
    ensures Step(Some(state), data, "Não").state.Some?
  {
    assert !IsCommand("Não") && !IsReset("Não");
  }

  /** In SEND_DATA, "Sim" submits and ends; "Não" and the reset words end
      without submitting; anything else changes nothing. */
  lemma Confirmation(data: UserData, text: string)
    requires Complete(data)
    ensures IsSim(text) ==> Step(Some(SendData), data, text) == Turn(None, data, Some(Lowered(data)))
    ensures FallbackMatches(text) ==> Step(Some(SendData), data, text) == Turn(None, data, None)
    ensures !IsSim(text) && !FallbackMatches(text) ==>
              Step(Some(SendData), data, text) == Turn(Some(SendData), data, None)
  {
    if IsSim(text) {
      assert text[0] == 'S';
      assert !IsReset(text);
    }
  }

  /** Commands inside a conversation, /gastei among them, are handled by no
      handler of the conversation. */
  lemma CommandsIgnoredInConversation(state: State, data: UserData, text: string)
    requires IsCommand(text)
    ensures Step(Some(state), data, text) == Turn(Some(state), data, None)
  {
    assert text[0] == '/';
  }

  // ---------------------------------------------------------------------------
  // The invariant that keeps upload_data from raising KeyError

  /** In each state, the keys the earlier handlers wrote are present. */
  predicate Inv(state: Option<State>, data: UserData)
  {
    match state
    case None => true
    case Some(WaitExpenseType) => true
    case Some(WaitExpenseValue) => data.tipo.Some?
    case Some(WaitForUserName) => data.tipo.Some? && data.valor.Some?
    case Some(ConfirmInput) => data.tipo.Some? && data.valor.Some? && data.descricao.Some?
    case Some(SendData) => Complete(data)
  }

  lemma InvGrows(state: Option<State>, before: UserData, after: UserData)
    requires Inv(state, before) && Grows(before, after)
    ensures Inv(state, after)
  {
  }

  lemma StepKeepsInv(state: Option<State>, data: UserData, text: string)
    requires Inv(state, data)
    ensures var t := Step(state, data, text); Inv(t.state, t.userData)
  {
  }

  /** From any invariant configuration, any run of messages keeps the
      invariant, so every "Sim" accepted in SEND_DATA submits. */
  lemma {:induction false} RunKeepsInv(state: Option<State>, data: UserData, texts: seq<string>)
    requires Inv(state, data)
    ensures var r := Run(state, data, texts); Inv(r.state, r.userData)
    decreases |texts|
  {
    if texts != [] {
      var t := Step(state, data, texts[0]);
      StepKeepsInv(state, data, texts[0]);
      RunKeepsInv(t.state, t.userData, texts[1..]);
    }
  }

  /** After any messages from a fresh start, "Sim" in SEND_DATA submits. */
  lemma SimAlwaysSubmits(texts: seq<string>)
    ensures var r := Run(None, NoUserData, texts);
            r.state == Some(SendData) ==> Step(r.state, r.userData, "Sim").upload.Some?
  {
    RunKeepsInv(None, NoUserData, texts);
  }

  /** user_data as facts_to_str lists it. Keys keep their first insertion
      order in a Python dict, and the handlers can only ever insert them in
      the order tipo, valor, descrição, comprador (Inv). */
  function Entries(data: UserData): seq<(string, string)>
  {
    (if data.tipo.Some? then [("tipo", data.tipo.value)] else []) +
    (if data.valor.Some? then [("valor", data.valor.value)] else []) +
    (if data.descricao.Some? then [("descrição", data.descricao.value)] else []) +
    (if data.comprador.Some? then [("comprador", data.comprador.value)] else [])
  }

  /** The summary confirm shows lists, line by line, the four answers. */
  lemma ConfirmationSummary(data: UserData)
    requires Inv(Some(SendData), data)
    requires Format.NoNewline(data.tipo.value) && Format.NoNewline(data.valor.value)
    requires Format.NoNewline(data.descricao.value) && Format.NoNewline(data.comprador.value)
    ensures Format.SplitLines(Format.FactsToStr(Entries(data))) ==
            ["", "tipo: " + data.tipo.value, "valor: " + data.valor.value,
             "descrição: " + data.descricao.value, "comprador: " + data.comprador.value, ""]
  {
    var es := Entries(data);
    assert es == [("tipo", data.tipo.value), ("valor", data.valor.value),
                  ("descrição", data.descricao.value), ("comprador", data.comprador.value)];
    Format.FactsToStrLines(es);
    var lines := seq(|es|, i requires 0 <= i < |es| => Format.FactLine(es[i]));
    assert |lines| == 4;
    assert lines[0] == "tipo: " + data.tipo.value;
    assert lines[1] == "valor: " + data.valor.value;
    assert lines[2] == "descrição: " + data.descricao.value;
    assert lines[3] == "comprador: " + data.comprador.value;
    assert lines == ["tipo: " + data.tipo.value, "valor: " + data.valor.value,
                     "descrição: " + data.descricao.value, "comprador: " + data.comprador.value];
  }

  // ---------------------------------------------------------------------------
  // The handler object

  /** The conversation key under its default per-chat, per-user setting. */
  datatype ConversationKey = ConversationKey(chat: int, user: int)

  /** ConversationHandler together with the dispatcher's user_data: the state
      of every open conversation, and every user's dictionary. user_data is
      per user and shared by that user's conversations in all chats; it is
      never cleared. */
  class ConversationHandler {
    var conversations: map<ConversationKey, State>
    var userData: map<int, UserData>

    function StateOf(key: ConversationKey): Option<State>
      reads this
    {
      if key in conversations then Some(conversations[key]) else None
    }

    /** A user not seen yet has an empty dictionary (user_data is a defaultdict). */
    function UserDataOf(user: int): UserData
      reads this
    {
      if user in userData then userData[user] else NoUserData
    }

    ghost predicate Valid()
      reads this
    {
      forall key :: key in conversations ==> Inv(Some(conversations[key]), UserDataOf(key.user))
    }

    constructor ()
      ensures Valid()
      ensures conversations == map[] && userData == map[]
    {
      conversations := map[];
      userData := map[];
    }

    /** Handles one text message sent by key.user in key.chat. */
    method HandleMessage(key: ConversationKey, text: string) returns (upload: Option<FormData>)
      requires Valid()
      modifies this
      ensures Valid()
      ensures var t := Step(old(StateOf(key)), old(UserDataOf(key.user)), text);
              upload == t.upload &&
              userData == old(userData)[key.user := t.userData] &&
              conversations == (if t.state.Some? then old(conversations)[key := t.state.value]
                                else old(conversations) - {key})
    {
      var t := Step(StateOf(key), UserDataOf(key.user), text);
      StepKeepsInv(StateOf(key), UserDataOf(key.user), text);
      ghost var before := UserDataOf(key.user);
      ghost var oldConversations := conversations;
      ghost var oldUserData := userData;
      userData := userData[key.user := t.userData];
      if t.state.Some? {
        conversations := conversations[key := t.state.value];
      } else {
        conversations := conversations - {key};
      }
      upload := t.upload;
      forall k | k in conversations
        ensures Inv(Some(conversations[k]), UserDataOf(k.user))
      {
        if k != key {
          assert k in oldConversations && conversations[k] == oldConversations[k];
          if k.user == key.user {
            InvGrows(Some(conversations[k]), before, t.userData);
          } else {
            assert UserDataOf(k.user) == if k.user in oldUserData then oldUserData[k.user] else NoUserData;
          }
        }
      }
    }
  }
}
