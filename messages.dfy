/** The chat turn: the guard on the paid session, the history and counter bookkeeping around
    the LLM call, and the clean-up of the LLM's answer before it is shown in Telegram. */
module Messages {
  import opened Models
  import opened Text
  import opened StateStore
  import opened Markdown
  import Catalog
  import Payments

  /** The number of HTML tag rewrites. */
  const RewriteCount := 21

  /** The HTML tags rewritten into MarkdownV2 markup or dropped, in the order applied. */
  function HtmlRewrite(i: nat): (rule: (string, string))
    requires i < RewriteCount
    ensures |rule.0| > 0 && rule.0[0] == '<'
  {
    match i
    case 0 => ("<b>", "*")
    case 1 => ("</b>", "*")
    case 2 => ("<strong>", "*")
    case 3 => ("</strong>", "*")
    case 4 => ("<i>", "_")
    case 5 => ("</i>", "_")
    case 6 => ("<em>", "_")
    case 7 => ("</em>", "_")
    case 8 => ("<br>", "\n")
    case 9 => ("<br/>", "\n")
    case 10 => ("<br />", "\n")
    case 11 => ("<p>", "\n")
    case 12 => ("</p>", "\n")
    case 13 => ("<u>", "")
    case 14 => ("</u>", "")
    case 15 => ("<s>", "")
    case 16 => ("</s>", "")
    case 17 => ("<code>", "`")
    case 18 => ("</code>", "`")
    case 19 => ("<pre>", "```\n")
    case 20 => ("</pre>", "\n```")
  }

  /** Reply texts longer than this many UTF-8 bytes are cut. */
  const MaxReplyBytes := 3800

  /** Appended to a reply that was cut. */
  const TruncationNotice := "\n\n\\[Сообщение было сокращено\\]"

  /** Three line breaks in a row: more blank lines than a reply may show. */
  const BlankRun := "\n\n\n"

  /** The text after the rewrites from the `i`-th on have been applied, in order. */
  function ApplyRewrites(s: string, i: nat): string
    requires i <= RewriteCount
    decreases RewriteCount - i
  {
    if i == RewriteCount then s else ApplyRewrites(Replace(s, HtmlRewrite(i).0, HtmlRewrite(i).1), i + 1)
  }

  function RewriteHtml(s: string): string
  {
    ApplyRewrites(s, 0)
  }

  /** A pattern whose first character does not occur in `s` does not occur in `s`. */
  lemma {:induction false} FirstCharAbsent(s: string, p: string)
    requires |p| > 0 && p[0] !in s
    ensures !Contains(s, p)
  {
    if |s| > 0 {
      FirstCharAbsent(s[1..], p);
      if |p| <= |s| {
        assert s[..|p|][0] == s[0];
      }
    }
  }

  /** Text without any '<' is left as it is by the tag rewrites. */
  lemma {:induction false} RewritesWithoutTags(s: string, i: nat)
    requires i <= RewriteCount && '<' !in s
    ensures ApplyRewrites(s, i) == s
    decreases RewriteCount - i
  {
    if i < RewriteCount {
      FirstCharAbsent(s, HtmlRewrite(i).0);
      ReplaceAbsent(s, HtmlRewrite(i).0, HtmlRewrite(i).1);
      RewritesWithoutTags(s, i + 1);
    }
  }

  /** The number of bytes of a character in UTF-8. */
  function Utf8Width(c: char): nat
  {
    if c as int < 0x80 then 1 else if c as int < 0x800 then 2 else if c as int < 0x10000 then 3 else 4
  }

  /** `String::len`: the length in UTF-8 bytes, never less than the number of characters. */
  function Utf8Len(s: string): (n: nat)
    ensures n >= |s|
  {
    if |s| == 0 then 0 else Utf8Width(s[0]) + Utf8Len(s[1..])
  }

  /** The byte length of a text whose characters all take `w` bytes. */
  lemma {:induction false} Utf8LenUniform(s: string, w: nat)
    requires forall i :: 0 <= i < |s| ==> Utf8Width(s[i]) == w
    ensures Utf8Len(s) == w * |s|
  {
    if |s| > 0 {
      Utf8LenUniform(s[1..], w);
    }
  }

  /** `chars().take(n)`: the first `n` characters, or all of them if there are fewer. */
  function Take(s: string, n: nat): (r: string)
    ensures |r| <= n && StartsWith(s, r)
    ensures |s| <= n ==> r == s
    ensures |s| > n ==> |r| == n
  {
    if |s| <= n then s else s[..n]
  }

  /** The loop that replaces each run of three line breaks by two until none is left. */
  function CollapseBlankLines(s: string): (r: string)
    ensures !Contains(r, BlankRun)
    ensures |r| <= |s|
    decreases |s|
  {
    if Contains(s, BlankRun) then
      ReplaceShrinks(s, BlankRun, "\n\n");
      CollapseBlankLines(Replace(s, BlankRun, "\n\n"))
    else s
  }

  /** Cuts a reply longer than the byte limit to its first characters and marks it. */
  function Truncate(s: string): string
  {
    if Utf8Len(s) > MaxReplyBytes then Take(s, MaxReplyBytes) + TruncationNotice else s
  }

  /** `clean_telegram_markdown`: tag rewrites, escaping, blank-line collapse, truncation. */
  function Clean(text: string): string
  {
    Truncate(CollapseBlankLines(Escape(RewriteHtml(text))))
  }

  method CleanTelegramMarkdown(text: string) returns (result: string)
    ensures result == Clean(text)
  {
    var cleaned := RewriteHtml(text);
    result := EscapeMarkdownV2(cleaned);
    while Contains(result, BlankRun)
      invariant CollapseBlankLines(result) == CollapseBlankLines(Escape(cleaned))
      decreases |result|
    {
      ReplaceShrinks(result, BlankRun, "\n\n");
      result := Replace(result, BlankRun, "\n\n");
    }
    if Utf8Len(result) > MaxReplyBytes {
      result := Take(result, MaxReplyBytes) + TruncationNotice;
    }
  }

  /** The cleaned reply: before the cut it holds no run of three line breaks; an uncut reply
      is that text; a cut one keeps exactly its first min(length, 3800) characters and ends
      with the notice, so a reply is never longer than 3800 characters plus the notice. */
  lemma {:induction false} CleanProperties(text: string)
    ensures var c := CollapseBlankLines(Escape(RewriteHtml(text)));
            !Contains(c, BlankRun) &&
            (Utf8Len(c) <= MaxReplyBytes ==> Clean(text) == c && !Contains(Clean(text), BlankRun)) &&
            (Utf8Len(c) > MaxReplyBytes ==>
               Clean(text) == c[..(if |c| <= MaxReplyBytes then |c| else MaxReplyBytes)] + TruncationNotice)
    ensures |Clean(text)| <= MaxReplyBytes + |TruncationNotice|
  {
    var c := CollapseBlankLines(Escape(RewriteHtml(text)));
    if Utf8Len(c) > MaxReplyBytes {
      var k := if |c| <= MaxReplyBytes then |c| else MaxReplyBytes;
      assert Take(c, MaxReplyBytes) == c[..k];
    }
  }

  /** The limit is checked in bytes but the cut counts characters: a reply of between 1901
      and 3800 two-byte characters is over the limit, loses nothing to the cut, and still
      gets the notice. */
  lemma {:induction false} NoticeWithoutCut(s: string)
    requires forall i :: 0 <= i < |s| ==> !IsSpecial(s[i]) && s[i] != '<' && s[i] != '\n' && 0x80 <= s[i] as int < 0x800
    requires MaxReplyBytes / 2 < |s| <= MaxReplyBytes
    ensures Clean(s) == s + TruncationNotice
  {
    RewritesWithoutTags(s, 0);
    EscapePlainText(s);
    FirstCharAbsent(s, BlankRun);
    Utf8LenUniform(s, 2);
  }

  /** 1901 copies of the letter 'я' (3802 bytes) come back whole, with the notice. */
  lemma NoticeWithoutCutExample()
    ensures var s := seq(1901, _ => 'я');
            Clean(s) == s + TruncationNotice
  {
    NoticeWithoutCut(seq(1901, _ => 'я'));
  }

  /** A text with no two line breaks side by side has no run of three. */
  lemma {:induction false} NoDoubleBreak(s: string)
    requires forall i :: 0 <= i < |s| - 1 ==> !(s[i] == '\n' && s[i + 1] == '\n')
    ensures !Contains(s, BlankRun)
  {
    if |s| > 0 {
      NoDoubleBreak(s[1..]);
      if |s| >= 3 {
        assert s[..3][0] == s[0] && s[..3][1] == s[1];
      }
    }
  }

  /** The notice starts with two line breaks, so a cut that ends on a line break puts three
      in a row back into the reply. */
  lemma {:induction false} CutRestoresBlankRun(s: string)
    requires forall i :: 0 <= i < |s| ==> !IsSpecial(s[i]) && s[i] != '<' && s[i] as int < 0x80
    requires forall i :: 0 <= i < |s| - 1 ==> !(s[i] == '\n' && s[i + 1] == '\n')
    requires |s| > MaxReplyBytes && s[MaxReplyBytes - 1] == '\n'
    ensures Contains(Clean(s), BlankRun)
  {
    RewritesWithoutTags(s, 0);
    EscapePlainText(s);
    NoDoubleBreak(s);
    Utf8LenUniform(s, 1);
    var r := Clean(s);
    assert r == s[..MaxReplyBytes] + TruncationNotice;
    assert r[MaxReplyBytes - 1] == '\n' && r[MaxReplyBytes] == '\n' && r[MaxReplyBytes + 1] == '\n';
    assert r[MaxReplyBytes - 1..MaxReplyBytes + 2] == BlankRun;
    ContainsAt(r, BlankRun, MaxReplyBytes - 1);
  }

  /** 3801 letters with a single line break at position 3800 (counting from 1). */
  lemma CutRestoresBlankRunExample()
    ensures Contains(Clean(seq(3801, i => if i == 3799 then '\n' else 'a')), BlankRun)
  {
    CutRestoresBlankRun(seq(3801, i => if i == 3799 then '\n' else 'a'));
  }

  /** The labels of the main menu keyboard, which the handler answers without a chat turn. */
  const MenuLabels: set<string> := {
    "\U{1F465} Выбрать консультанта", "\U{1F4B0} Мои сессии",
    "\U{2139}\U{FE0F} Список консультантов", "\U{2139}\U{FE0F} О боте"}

  /** Formatting instructions appended to the persona's prompt on the first turn. */
  const FormattingNote := "\n\n- Используй *жирный текст* для выделения важных моментов (одну звездочку вместо двух)\n- Используй _курсив_ для акцентов\n- Используй эмодзи для выразительности\n- Если нужно показать код, используй обратные кавычки: `код`\n- Для списков используй маркеры • или цифры\n- Используй MarkdownV2 для форматирования текста\nТвои будут отображаться в Telegram, поэтому форматируй их соответствующим образом"

  /** The system message's text: the persona's prompt followed by the formatting note. */
  function SystemPrompt(prompt: string): string
  {
    prompt + FormattingNote
  }

  /** The answer of the LLM: a transport error, or a completion whose content may be absent. */
  datatype LlmReply = LlmError | Reply(content: Option<string>)

  datatype TurnOutcome = NoText | Ignored | NeedSession | NoSession | LlmFailed | Saved(result: Outcome)

  /** Which of the handler's store operations fail. */
  datatype TurnFaults = TurnFaults(firstReadFails: bool, secondReadFails: bool, saveFails: bool)

  /** Number of assistant messages in a history. */
  function AssistantReplies(h: seq<ChatMessage>): nat
  {
    if |h| == 0 then 0 else AssistantReplies(h[..|h| - 1]) + (if h[|h| - 1].role == "assistant" then 1 else 0)
  }

  /** What every stored session keeps: the counter counts the assistant messages, and a
      non-empty history opens with the system message. */
  predicate SessionInvariant(s: UserSession)
  {
    s.messagesExchanged == AssistantReplies(s.history) && (|s.history| > 0 ==> s.history[0].role == "system")
  }

  /** The session after one turn: the system message first if the history was empty, then
      the user's text, then, if the LLM answered, the cleaned answer, one more exchanged
      message, and deactivation once the paid window has ended. */
  function TurnSession(sess: UserSession, systemText: string, text: string, answer: Option<string>, later: Timestamp): UserSession
  {
    var opening := if |sess.history| == 0 then [ChatMessage("system", Some(systemText))] else [];
    var asked := sess.(history := sess.history + opening + [ChatMessage("user", Some(text))]);
    match answer
    case None => asked
    case Some(a) =>
      var answered := asked.(history := asked.history + [ChatMessage("assistant", Some(Clean(a)))],
                             messagesExchanged := asked.messagesExchanged + 1);
      if later > answered.paidUntil then answered.(isActive := false) else answered
  }

  /** The shape of one turn. The history grows by the optional system message, the user's
      message and, with an answer, exactly one assistant message; the counter grows by one
      iff there was an answer; the session is deactivated iff there was an answer and the
      paid window has ended; no other field changes. */
  lemma {:induction false} TurnShape(sess: UserSession, systemText: string, text: string, answer: Option<string>, later: Timestamp)
    ensures var s := TurnSession(sess, systemText, text, answer, later);
            var opening := if |sess.history| == 0 then [ChatMessage("system", Some(systemText))] else [];
            var asked := sess.history + opening + [ChatMessage("user", Some(text))];
            (answer.None? ==> s.history == asked && s.messagesExchanged == sess.messagesExchanged &&
                              s.isActive == sess.isActive) &&
            (answer.Some? ==> s.history == asked + [ChatMessage("assistant", Some(Clean(answer.value)))] &&
                              s.messagesExchanged == sess.messagesExchanged + 1 &&
                              (s.isActive <==> sess.isActive && later <= sess.paidUntil)) &&
            s.(history := sess.history, messagesExchanged := sess.messagesExchanged, isActive := sess.isActive) == sess
  {
  }

  lemma {:induction false} AssistantRepliesAppend(h: seq<ChatMessage>, m: ChatMessage)
    ensures AssistantReplies(h + [m]) == AssistantReplies(h) + (if m.role == "assistant" then 1 else 0)
  {
    assert (h + [m])[..|h + [m]| - 1] == h;
  }

  /** A turn keeps the session invariant. */
  lemma {:induction false} TurnPreservesInvariant(sess: UserSession, systemText: string, text: string, answer: Option<string>, later: Timestamp)
    requires SessionInvariant(sess)
    ensures SessionInvariant(TurnSession(sess, systemText, text, answer, later))
  {
    var opening := if |sess.history| == 0 then [ChatMessage("system", Some(systemText))] else [];
    var user := ChatMessage("user", Some(text));
    var asked := sess.history + opening + [user];
    if |sess.history| == 0 {
      assert AssistantReplies(opening) == 0 by {
        AssistantRepliesAppend([], ChatMessage("system", Some(systemText)));
        assert [] + [ChatMessage("system", Some(systemText))] == opening;
      }
      assert sess.history + opening == opening;
    } else {
      assert sess.history + opening == sess.history;
    }
    AssistantRepliesAppend(sess.history + opening, user);
    if answer.Some? {
      AssistantRepliesAppend(asked, ChatMessage("assistant", Some(Clean(answer.value))));
    }
  }

  /** A freshly paid session satisfies the invariant. */
  lemma NewSessionInvariant(chatId: ChatId, b: Booking, now: Timestamp)
    ensures SessionInvariant(Payments.NewSession(chatId, b, now))
  {
  }

  predicate Handled(t: string)
  {
    StartsWith(t, "/") || t in MenuLabels
  }

  /** The built-in persona the handler falls back on when it has no other. */
  const DefaultAssistant := Catalog.Assistant("Анна", "Ты помощник.", "GigaChat-2-Max", "Интерактивный помощник",
                                              "Общение и поддержка", "Здравствуйте!", 0.1)

  /** The persona a turn speaks as. The user's model is looked up in the static catalog, and a
      found entry takes the stored price (`storedPrice`, None when the price lookup fails).
      Only when the catalog has no such model does the turn fall back on `personas`, the
      persona listing the handler fetched (the bot's is `Catalog.GetAllAssistants()`): its
      first entry, else the built-in default. */
  function TurnAssistant(personas: seq<Catalog.Assistant>, model: string, storedPrice: Option<real>): (a: Catalog.Assistant)
    ensures Catalog.FindByModel(model).Some? ==>
              var found := Catalog.FindByModel(model).value;
              a.model == model && a.prompt == found.prompt &&
              a.pricePerMinute == storedPrice.GetOr(found.pricePerMinute) &&
              a.(pricePerMinute := found.pricePerMinute) == found
    ensures Catalog.FindByModel(model).None? ==> a == (if |personas| > 0 then personas[0] else DefaultAssistant)
  {
    Catalog.FindByModelWithPrice(model, storedPrice).GetOr(if |personas| > 0 then personas[0] else DefaultAssistant)
  }

  /** With the bot's catalog, the persona is the one `find_by_model_with_price` finds, falling
      back to the first catalog entry, and its prompt is the one the model name resolves to. */
  lemma BotTurnAssistant(model: string, storedPrice: Option<real>)
    ensures TurnAssistant(Catalog.GetAllAssistants(), model, storedPrice) ==
              Catalog.FindByModelWithPrice(model, storedPrice).GetOr(Catalog.GetAllAssistants()[0])
    ensures TurnAssistant(Catalog.GetAllAssistants(), model, storedPrice).prompt == Catalog.ResolveAssistant(model).prompt
  {
  }

  /** `message_handler` as a function of the store and the inputs. `now` is the time of the
      first read and the guard, `reread` the time of the second read (after the typing
      indicator has been sent), `later` the time after the LLM has answered. */
  function MessageSpec(sz: Sizer, st: Store, personas: seq<Catalog.Assistant>, chatId: ChatId, text: Option<string>, now: Timestamp,
                       reread: Timestamp, later: Timestamp, storedPrice: Option<real>, reply: LlmReply, f: TurnFaults): (TurnOutcome, Store)
  {
    if text.None? then (NoText, st)
    else if Handled(text.value) then (Ignored, st)
    else
      var (u, st1) := GetSpec(st, chatId, now, f.firstReadFails);
      var assistant := TurnAssistant(personas, u.currentModel, storedPrice);
      if !CanChat(u, now) then (NeedSession, st1)
      else
        ChatTurnSpec(sz, st1, chatId, text.value, reread, later, SystemPrompt(assistant.prompt), reply, f)
  }

  /** The turn past the guard: the second read at `reread`, the LLM's answer, and the save of
      the advanced session at `later`. */
  function ChatTurnSpec(sz: Sizer, st: Store, chatId: ChatId, t: string, reread: Timestamp, later: Timestamp,
                        systemText: string, reply: LlmReply, f: TurnFaults): (TurnOutcome, Store)
  {
    var (u, st1) := GetSpec(st, chatId, reread, f.secondReadFails);
    if u.currentSession.None? then (NoSession, st1)
    else if reply.LlmError? then (LlmFailed, st1)
    else
      var sess := TurnSession(u.currentSession.value, systemText, t, reply.content, later);
      var (r, st2) := SaveSpec(sz, st1, chatId, u.(currentSession := Some(sess)), later, f.saveFails);
      (Saved(r), st2)
  }

  /** A turn that saves had a session from its second read and an answer, and writes the
      state `u` that read returned back with only its session advanced by one turn. */
  lemma ChatTurnWritesBack(sz: Sizer, st: Store, chatId: ChatId, t: string, reread: Timestamp, later: Timestamp,
                           systemText: string, reply: LlmReply, f: TurnFaults, u: UserState)
    requires GetSpec(st, chatId, reread, f.secondReadFails).0 == u
    requires ChatTurnSpec(sz, st, chatId, t, reread, later, systemText, reply, f).0 == Saved(Pass)
    ensures u.currentSession.Some? && reply.Reply?
    ensures ChatTurnSpec(sz, st, chatId, t, reread, later, systemText, reply, f).1.rows ==
              st.rows[chatId := EncodeRow(u.(currentSession := Some(TurnSession(u.currentSession.value, systemText, t, reply.content, later))))]
  {
    GetOnlyCaches(st, chatId, reread, f.secondReadFails);
  }

  /** No text, a command, or a menu label: nothing changes. */
  lemma HandledTextChangesNothing(sz: Sizer, st: Store, personas: seq<Catalog.Assistant>, chatId: ChatId, text: Option<string>, now: Timestamp,
                                  reread: Timestamp, later: Timestamp, storedPrice: Option<real>, reply: LlmReply, f: TurnFaults)
    requires text.None? || StartsWith(text.value, "/") || text.value in MenuLabels
    ensures MessageSpec(sz, st, personas, chatId, text, now, reread, later, storedPrice, reply, f).1 == st
    ensures MessageSpec(sz, st, personas, chatId, text, now, reread, later, storedPrice, reply, f).0 in {NoText, Ignored}
  {
  }

  /** Without a chat-ready session the turn stops at the guard: only the cache may have been
      refreshed by the read, the stored rows, and so the history, are untouched. */
  lemma {:induction false} GuardStopsTurn(sz: Sizer, st: Store, personas: seq<Catalog.Assistant>, chatId: ChatId, t: string, now: Timestamp,
                                          reread: Timestamp, later: Timestamp, storedPrice: Option<real>, reply: LlmReply, f: TurnFaults)
    requires !Handled(t) && !CanChat(GetSpec(st, chatId, now, f.firstReadFails).0, now)
    ensures MessageSpec(sz, st, personas, chatId, Some(t), now, reread, later, storedPrice, reply, f) ==
              (NeedSession, GetSpec(st, chatId, now, f.firstReadFails).1)
    ensures MessageSpec(sz, st, personas, chatId, Some(t), now, reread, later, storedPrice, reply, f).1.rows == st.rows
  {
    GetOnlyCaches(st, chatId, now, f.firstReadFails);
  }

  /** A first read that lets the user chat leaves this chat's cache entry holding the state it
      returned. */
  lemma {:induction false} GuardPassedCaches(st: Store, chatId: ChatId, now: Timestamp, fails: bool)
    requires CanChat(GetSpec(st, chatId, now, fails).0, now)
    ensures var (u, st1) := GetSpec(st, chatId, now, fails);
            chatId in st1.cache && st1.cache[chatId].state == u
  {
    DefaultCannotChat(now);
  }

  /** Past the guard, while the entry the first read left in the cache is still fresh at the
      second read, that read returns the state of the first, so the turn finds its session;
      an LLM error then ends the turn before anything is written. */
  lemma {:induction false} TurnReadsStable(sz: Sizer, st: Store, personas: seq<Catalog.Assistant>, chatId: ChatId, t: string, now: Timestamp,
                                           reread: Timestamp, later: Timestamp, storedPrice: Option<real>, reply: LlmReply, f: TurnFaults)
    requires !Handled(t) && CanChat(GetSpec(st, chatId, now, f.firstReadFails).0, now)
    requires var st1 := GetSpec(st, chatId, now, f.firstReadFails).1;
             chatId in st1.cache && IsFresh(st1.cache[chatId].stamp, reread)
    ensures var (u, st1) := GetSpec(st, chatId, now, f.firstReadFails);
            GetSpec(st1, chatId, reread, f.secondReadFails) == (u, st1)
    ensures MessageSpec(sz, st, personas, chatId, Some(t), now, reread, later, storedPrice, reply, f).0 != NoSession
    ensures reply.LlmError? ==> MessageSpec(sz, st, personas, chatId, Some(t), now, reread, later, storedPrice, reply, f).1.rows == st.rows
  {
    GuardPassedCaches(st, chatId, now, f.firstReadFails);
    GetOnlyCaches(st, chatId, now, f.firstReadFails);
  }

  /** Past the guard, when the cache entry ages out between the two reads and the reload
      fails, the second read falls back to the default state: the turn ends with "session
      not found" and writes no row, though the user had a chat-ready session. */
  lemma {:induction false} SessionLostBetweenReads(sz: Sizer, st: Store, personas: seq<Catalog.Assistant>, chatId: ChatId, t: string,
                                                   now: Timestamp, reread: Timestamp, later: Timestamp, storedPrice: Option<real>,
                                                   reply: LlmReply, f: TurnFaults)
    requires !Handled(t) && CanChat(GetSpec(st, chatId, now, f.firstReadFails).0, now)
    requires var st1 := GetSpec(st, chatId, now, f.firstReadFails).1;
             chatId in st1.cache && !IsFresh(st1.cache[chatId].stamp, reread)
    requires f.secondReadFails
    ensures MessageSpec(sz, st, personas, chatId, Some(t), now, reread, later, storedPrice, reply, f) ==
              (NoSession, GetSpec(st, chatId, now, f.firstReadFails).1)
    ensures MessageSpec(sz, st, personas, chatId, Some(t), now, reread, later, storedPrice, reply, f).1.rows == st.rows
  {
    var st1 := GetSpec(st, chatId, now, f.firstReadFails).1;
    GetFailsOpen(st1, chatId, reread);
    DefaultCannotChat(reread);
    GetOnlyCaches(st, chatId, now, f.firstReadFails);
  }

  /** A turn that reaches the save passed the guard on its first read and had an answer; it
      writes back the state of its second read with only the session advanced by one turn
      (speaking as the persona chosen from the first read), and keeps the session invariant. */
  lemma {:induction false} TurnWritesBack(sz: Sizer, st: Store, personas: seq<Catalog.Assistant>, chatId: ChatId, t: string, now: Timestamp,
                                          reread: Timestamp, later: Timestamp, storedPrice: Option<real>, reply: LlmReply, f: TurnFaults)
    requires MessageSpec(sz, st, personas, chatId, Some(t), now, reread, later, storedPrice, reply, f).0 == Saved(Pass)
    ensures var (u, st1) := GetSpec(st, chatId, now, f.firstReadFails);
            var u2 := GetSpec(st1, chatId, reread, f.secondReadFails).0;
            var prompt := SystemPrompt(TurnAssistant(personas, u.currentModel, storedPrice).prompt);
            CanChat(u, now) && reply.Reply? && u2.currentSession.Some? &&
            var u' := u2.(currentSession := Some(TurnSession(u2.currentSession.value, prompt, t, reply.content, later)));
            MessageSpec(sz, st, personas, chatId, Some(t), now, reread, later, storedPrice, reply, f).1.rows == st.rows[chatId := EncodeRow(u')] &&
            (SessionInvariant(u2.currentSession.value) ==> SessionInvariant(u'.currentSession.value))
  {
    var (u, st1) := GetSpec(st, chatId, now, f.firstReadFails);
    var u2 := GetSpec(st1, chatId, reread, f.secondReadFails).0;
    var prompt := SystemPrompt(TurnAssistant(personas, u.currentModel, storedPrice).prompt);
    assert CanChat(u, now);
    GetOnlyCaches(st, chatId, now, f.firstReadFails);
    ChatTurnWritesBack(sz, st1, chatId, t, reread, later, prompt, reply, f, u2);
    if SessionInvariant(u2.currentSession.value) {
      TurnPreservesInvariant(u2.currentSession.value, prompt, t, reply.content, later);
    }
  }

  /** The in-place updates of one turn on the session: the pushes onto the history, the
      counter increment and the deactivation. */
  method TakeTurn(sess: UserSession, systemText: string, text: string, answer: Option<string>, later: Timestamp)
    returns (session: UserSession)
    ensures session == TurnSession(sess, systemText, text, answer, later)
  {
    session := sess;
    if |session.history| == 0 {
      session := session.(history := session.history + [ChatMessage("system", Some(systemText))]);
    }
    session := session.(history := session.history + [ChatMessage("user", Some(text))]);
    if answer.Some? {
      var cleaned := CleanTelegramMarkdown(answer.value);
      session := session.(history := session.history + [ChatMessage("assistant", Some(cleaned))]);
      session := session.(messagesExchanged := session.messagesExchanged + 1);
      if later > session.paidUntil {
        session := session.(isActive := false);
      }
    }
  }

  method HandleMessage(bs: BotState, personas: seq<Catalog.Assistant>, chatId: ChatId, text: Option<string>, now: Timestamp,
                       reread: Timestamp, later: Timestamp, storedPrice: Option<real>, reply: LlmReply, f: TurnFaults)
    returns (o: TurnOutcome)
    modifies bs
    ensures (o, bs.View()) == MessageSpec(bs.sizer, old(bs.View()), personas, chatId, text, now, reread, later, storedPrice, reply, f)
  {
    if text.None? {
      return NoText;
    }
    var t := text.value;
    if StartsWith(t, "/") || t in MenuLabels {
      return Ignored;
    }
    var userState := bs.GetUserState(chatId, now, f.firstReadFails);
    var assistant := TurnAssistant(personas, userState.currentModel, storedPrice);
    var canChat := userState.currentSession.Some? && userState.currentSession.value.isActive &&
                   now < userState.currentSession.value.paidUntil;
    if !canChat {
      return NeedSession;
    }
    userState := bs.GetUserState(chatId, reread, f.secondReadFails);
    if userState.currentSession.None? {
      return NoSession;
    }
    if reply.LlmError? {
      return LlmFailed;
    }
    var session := TakeTurn(userState.currentSession.value, SystemPrompt(assistant.prompt), t, reply.content, later);
    userState := userState.(currentSession := Some(session));
    var r := bs.SaveUserState(chatId, userState, later, f.saveFails);
    o := Saved(r);
  }
}
