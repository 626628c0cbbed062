/** ui/views/chat.py: the chat view's rules. The time window a question
    refers to, the history sent with it, the source footer of an answer,
    and the session state the view keeps (messages, conversation id, the
    baby the chat belongs to) with the saves it triggers.

    The chat endpoint's answer and the conversation endpoints' answers are
    parameters of the methods that use them; the calls the view makes to
    save conversations are recorded in order. */
module Chat {
  import opened Wrappers
  import opened Text
  import opened Clock
  import opened Sorting

  // ---------------------------------------------------------------------------
  // _parse_time_window
  // ---------------------------------------------------------------------------

  const TodayWords: seq<string> := ["today", "aujourd'hui", "ce jour", "journée"]
  const YesterdayWords: seq<string> := ["yesterday", "hier"]
  const ThreeDayWords: seq<string> := ["3 day", "3 jour", "trois jour", "three day"]
  const WeekWords: seq<string> := ["week", "semaine", "7 day", "7 jour"]
  const MonthWords: seq<string> := ["month", "mois", "30 day", "30 jour"]

  /** any(w in t for w in words). */
  predicate Mentions(t: string, words: seq<string>)
  {
    exists k :: 0 <= k < |words| && Contains(t, words[k])
  }

  /** Which branch of the parser a question takes. */
  datatype Intent = Today | Yesterday | ThreeDays | Week | Month | NoKeyword

  /** The text the keywords are looked for in. */
  function Normalized(text: string): string
  {
    Lower(Strip(text))
  }

  /** The first keyword group, in the fixed priority order, that the
      normalized text mentions. */
  function IntentOf(text: string): (i: Intent)
    ensures var t := Normalized(text);
      && (i == Today <==> Mentions(t, TodayWords))
      && (i == Yesterday <==> !Mentions(t, TodayWords) && Mentions(t, YesterdayWords))
      && (i == ThreeDays <==> !Mentions(t, TodayWords) && !Mentions(t, YesterdayWords) && Mentions(t, ThreeDayWords))
      && (i == Week <==> !Mentions(t, TodayWords) && !Mentions(t, YesterdayWords) && !Mentions(t, ThreeDayWords)
                         && Mentions(t, WeekWords))
      && (i == Month <==> !Mentions(t, TodayWords) && !Mentions(t, YesterdayWords) && !Mentions(t, ThreeDayWords)
                          && !Mentions(t, WeekWords) && Mentions(t, MonthWords))
  {
    var t := Normalized(text);
    if Mentions(t, TodayWords) then Today
    else if Mentions(t, YesterdayWords) then Yesterday
    else if Mentions(t, ThreeDayWords) then ThreeDays
    else if Mentions(t, WeekWords) then Week
    else if Mentions(t, MonthWords) then Month
    else NoKeyword
  }

  /** The (start, end) of a branch, given the current time. */
  function WindowOf(intent: Intent, now: Timestamp): (Timestamp, Timestamp)
  {
    match intent
    case Today => (Midnight(now), now)
    case Yesterday => (Midnight(now) - SecondsPerDay, Midnight(now))
    case ThreeDays => (now - 3 * SecondsPerDay, now)
    case Week => (now - 7 * SecondsPerDay, now)
    case Month => (now - 30 * SecondsPerDay, now)
    case NoKeyword => (now - 7 * SecondsPerDay, now)
  }

  /** _parse_time_window, with the current time as a parameter. */
  function ParseTimeWindow(text: string, now: Timestamp): (w: (Timestamp, Timestamp))
    ensures w.0 <= w.1 <= now
  {
    WindowOf(IntentOf(text), now)
  }

  /** What each branch covers: today so far, the whole of yesterday, or the
      last 3, 7 or 30 days up to now; a question without a keyword covers
      the last 7 days. */
  lemma TimeWindowMeaning(text: string, now: Timestamp)
    ensures var (start, end) := ParseTimeWindow(text, now);
      match IntentOf(text)
      case Today => DayOf(start) == DayOf(now) && start == StartOfDay(DayOf(now)) && end == now
      case Yesterday => DayOf(start) == DayOf(now) - 1 && end - start == SecondsPerDay && DayOf(end) == DayOf(now)
                        && start == StartOfDay(DayOf(now) - 1)
      case ThreeDays => end == now && end - start == 3 * SecondsPerDay
      case Week => end == now && end - start == 7 * SecondsPerDay
      case Month => end == now && end - start == 30 * SecondsPerDay
      case NoKeyword => (start, end) == WindowOf(Week, now)
  {
  }

  /** Keywords are matched whatever their case. */
  lemma TimeWindowIgnoresCase(text: string, now: Timestamp)
    ensures ParseTimeWindow(Lower(text), now) == ParseTimeWindow(text, now)
  {
    StripLower(text);
    LowerIdempotent(Strip(text));
    assert Normalized(Lower(text)) == Normalized(text);
  }

  // ---------------------------------------------------------------------------
  // Messages, history and footer
  // ---------------------------------------------------------------------------

  datatype Message = Message(role: string, content: string)

  predicate IsDialogue(m: Message)
  {
    m.role == "user" || m.role == "assistant"
  }

  /** history_for_api: every message but the last, the user and assistant
      ones only, in order. */
  function HistoryForApi(messages: seq<Message>): seq<Message>
  {
    if |messages| == 0 then [] else Filter(messages[..|messages| - 1], IsDialogue)
  }

  /** Each turn's history is the previous one extended by the previous
      message, when that message is a user or assistant one. */
  lemma HistoryGrowsByOne(messages: seq<Message>, previous: Message, current: Message)
    ensures HistoryForApi(messages + [previous, current])
         == HistoryForApi(messages + [previous]) + (if IsDialogue(previous) then [previous] else [])
  {
    var a := messages + [previous, current];
    var b := messages + [previous];
    assert a[..|a| - 1] == messages + [previous];
    assert b[..|b| - 1] == messages;
    FilterAppend(messages, [previous], IsDialogue);
    assert [previous][1..] == [];
  }

  /** The history never contains the question being asked, nor a message of
      another role. */
  lemma HistoryExcludesCurrent(messages: seq<Message>, current: Message)
    ensures HistoryForApi(messages + [current]) == Filter(messages, IsDialogue)
    ensures forall k :: 0 <= k < |HistoryForApi(messages + [current])| ==> IsDialogue(HistoryForApi(messages + [current])[k])
  {
    assert (messages + [current])[..|messages|] == messages;
  }

  /** The footer that precedes the source list. */
  const FooterPrefix: string := "\n\n---\n_📚 Sources: "

  /** The footer appended to an answer: nothing without sources, otherwise
      the distinct source names, sorted, joined by ", ". */
  function SourceFooter(sources: seq<string>): string
  {
    if |sources| == 0 then "" else FooterPrefix + Join(SortedDistinct(sources), ", ") + "_"
  }

  /** The footer is there exactly when there are sources, and then names
      every source, each once, in sorted order. */
  lemma SourceFooterMeaning(sources: seq<string>)
    ensures SourceFooter(sources) == "" <==> |sources| == 0
    ensures |sources| > 0 ==> StartsWith(SourceFooter(sources), FooterPrefix)
    ensures |sources| > 0 ==> InOrder(SourceFooter(sources), SortedDistinct(sources))
    ensures StrictlySorted(SortedDistinct(sources)) && Elems(SortedDistinct(sources)) == Elems(sources)
  {
    if |sources| > 0 {
      var names := SortedDistinct(sources);
      var joined := Join(names, ", ");
      JoinInOrder(names, ", ");
      InOrderPrepend(FooterPrefix, joined, names);
      InOrderAppend(FooterPrefix + joined, "_", names);
      assert SourceFooter(sources) == FooterPrefix + joined + "_";
      assert SourceFooter(sources)[..|FooterPrefix|] == FooterPrefix;
    }
  }

  /** Every source name is found in the footer. */
  lemma SourceFooterNamesEverySource(sources: seq<string>, k: nat)
    requires k < |sources|
    ensures Contains(SourceFooter(sources), sources[k])
  {
    var names := SortedDistinct(sources);
    assert sources[k] in Elems(sources);
    assert sources[k] in Elems(names);
    var j :| 0 <= j < |names| && names[j] == sources[k];
    SourceFooterMeaning(sources);
    InOrderOccurs(SourceFooter(sources), names, j);
    ContainsIff(SourceFooter(sources), sources[k]);
  }

  /** What the chat endpoint answered: the analysis and the names of its
      sources. */
  datatype ChatReply = ChatReply(analysis: string, sources: seq<string>)

  /** The request the view sends: the baby, the question, the window and
      the history. */
  datatype ChatRequest = ChatRequest(babyId: int, question: string, start: Timestamp, end: Timestamp, history: seq<Message>)

  const ErrorPrefix: string := "Désolé, une erreur est survenue : "

  /** The assistant message appended for an answer or for the exception's
      text. */
  function AssistantText(reply: Result<ChatReply, string>): string
  {
    match reply
    case Ok(r) => r.analysis + SourceFooter(r.sources)
    case Err(e) => ErrorPrefix + e
  }

  // ---------------------------------------------------------------------------
  // _auto_save
  // ---------------------------------------------------------------------------

  const DefaultTitle: string := "Nouvelle conversation"

  /** next((m["content"] for m in messages if m["role"] == "user"), default). */
  function FirstUserContent(messages: seq<Message>): (c: string)
    ensures (forall k :: 0 <= k < |messages| ==> messages[k].role != "user") ==> c == DefaultTitle
  {
    if |messages| == 0 then DefaultTitle
    else if messages[0].role == "user" then messages[0].content
    else FirstUserContent(messages[1..])
  }

  /** The conversation title: the first user message cut to 60 characters. */
  function Title(messages: seq<Message>): (t: string)
    ensures |t| <= 60
  {
    Take(FirstUserContent(messages), 60)
  }

  /** The title comes from the earliest user message. */
  lemma {:induction false} TitleIsFirstUserMessage(messages: seq<Message>, k: nat)
    requires k < |messages| && messages[k].role == "user"
    requires forall j :: 0 <= j < k ==> messages[j].role != "user"
    ensures Title(messages) == Take(messages[k].content, 60)
  {
    if k > 0 {
      TitleIsFirstUserMessage(messages[1..], k - 1);
    }
  }

  /** A save the view asks for: an update of an existing conversation or
      the creation of a new one. */
  datatype SaveCall =
    | Update(convId: int, title: string, messages: seq<Message>)
    | Create(babyId: int, title: string, messages: seq<Message>)

  /** Python's truthiness of the conversation id: None and 0 are false. */
  predicate HasConversation(convId: Option<int>)
  {
    convId.Some? && convId.value != 0
  }

  /** The save _auto_save asks for, if any. */
  function SaveFor(babyId: int, convId: Option<int>, messages: seq<Message>): (calls: seq<SaveCall>)
    ensures |messages| == 0 <==> calls == []
    ensures |calls| <= 1
    ensures |calls| == 1 ==> calls[0].title == Title(messages) && calls[0].messages == messages
    ensures |calls| == 1 ==> (calls[0].Update? <==> HasConversation(convId))
  {
    if |messages| == 0 then []
    else if HasConversation(convId) then [Update(convId.value, Title(messages), messages)]
    else [Create(babyId, Title(messages), messages)]
  }

  /** The conversation id after _auto_save: the created conversation's id
      when one was created (and the call succeeded), otherwise unchanged. */
  function ConvIdAfterSave(convId: Option<int>, messages: seq<Message>, created: Option<int>): Option<int>
  {
    if |messages| > 0 && !HasConversation(convId) && created.Some? then created else convId
  }

  /** A conversation found by a save keeps being updated, never re-created. */
  lemma SavedConversationIsUpdated(babyId: int, convId: Option<int>, messages: seq<Message>, created: Option<int>,
                                   later: seq<Message>)
    requires |messages| > 0 && |later| > 0
    requires created.Some? ==> created.value != 0
    requires HasConversation(convId) || created.Some?
    ensures SaveFor(babyId, ConvIdAfterSave(convId, messages, created), later)[0].Update?
  {
  }

  // ---------------------------------------------------------------------------
  // The session state
  // ---------------------------------------------------------------------------

  /** A conversation as the conversation endpoint returns it; its
      "messages" key may be absent. */
  datatype StoredConversation = StoredConversation(id: int, messages: Option<seq<Message>>)

  class ChatSession {
    /** st.session_state.chat_messages */
    var messages: seq<Message>
    /** st.session_state.chat_conv_id */
    var convId: Option<int>
    /** st.session_state._chat_baby_id, absent at first */
    var chatBabyId: Option<int>
    /** The conversation saves asked for so far. */
    var saves: seq<SaveCall>

    constructor ()
      ensures messages == [] && convId == None && chatBabyId == None && saves == []
    {
      messages := [];
      convId := None;
      chatBabyId := None;
      saves := [];
    }

    /** Opening the chat for a baby: a different baby than last time starts
        an empty chat with no conversation. */
    method SelectBaby(babyId: int)
      modifies this`messages, this`convId, this`chatBabyId
      ensures chatBabyId == Some(babyId)
      ensures old(chatBabyId) != Some(babyId) ==> messages == [] && convId == None
      ensures old(chatBabyId) == Some(babyId) ==> messages == old(messages) && convId == old(convId)
    {
      if chatBabyId != Some(babyId) {
        messages := [];
        convId := None;
        chatBabyId := Some(babyId);
      }
    }

    /** A question typed in or a suggestion clicked: a user message. An
        empty input is ignored. */
    method Ask(question: string)
      modifies this`messages
      ensures messages == old(messages) + (if |question| > 0 then [Message("user", question)] else [])
    {
      if |question| > 0 {
        messages := messages + [Message("user", question)];
      }
    }

    /** _auto_save, given what the creation call returns (None when it
        raised). A failed update changes nothing. */
    method AutoSave(babyId: int, created: Option<int>)
      modifies this`convId, this`saves
      ensures saves == old(saves) + SaveFor(babyId, old(convId), messages)
      ensures convId == ConvIdAfterSave(old(convId), messages, created)
    {
      if |messages| == 0 {
        return;
      }
      var title := Title(messages);
      if HasConversation(convId) {
        saves := saves + [Update(convId.value, title, messages)];
      } else {
        saves := saves + [Create(babyId, title, messages)];
        if created.Some? {
          convId := created;
        }
      }
    }

    /** _save_current_if_needed: the same as AutoSave, which already does
        nothing for an empty chat. */
    method SaveCurrentIfNeeded(babyId: int, created: Option<int>)
      modifies this`convId, this`saves
      ensures saves == old(saves) + SaveFor(babyId, old(convId), messages)
      ensures convId == ConvIdAfterSave(old(convId), messages, created)
    {
      if |messages| > 0 {
        AutoSave(babyId, created);
      }
    }

    /** _generate_response: the request sent for the last (user) message,
        the assistant message appended for the endpoint's reply or error,
        then the automatic save. */
    method GenerateResponse(babyId: int, now: Timestamp, reply: Result<ChatReply, string>, created: Option<int>)
      returns (request: ChatRequest)
      requires |messages| > 0
      modifies this`messages, this`convId, this`saves
      ensures var question := old(messages)[|old(messages)| - 1].content;
        var (start, end) := ParseTimeWindow(question, now);
        request == ChatRequest(babyId, question, start, end, HistoryForApi(old(messages)))
      ensures messages == old(messages) + [Message("assistant", AssistantText(reply))]
      ensures saves == old(saves) + SaveFor(babyId, old(convId), messages)
      ensures convId == ConvIdAfterSave(old(convId), messages, created)
    {
      var question := messages[|messages| - 1].content;
      var window := ParseTimeWindow(question, now);
      var history := HistoryForApi(messages);
      request := ChatRequest(babyId, question, window.0, window.1, history);
      messages := messages + [Message("assistant", AssistantText(reply))];
      AutoSave(babyId, created);
    }

    /** _load_conversation, given what the endpoint returned (None when it
        raised). */
    method LoadConversation(loaded: Option<StoredConversation>)
      modifies this`messages, this`convId
      ensures loaded.None? ==> messages == [] && convId == None
      ensures loaded.Some? ==> convId == Some(loaded.value.id)
      ensures loaded.Some? ==> messages == (if loaded.value.messages.Some? then loaded.value.messages.value else [])
    {
      match loaded
      case None =>
        messages := [];
        convId := None;
      case Some(conv) =>
        messages := if conv.messages.Some? then conv.messages.value else [];
        convId := Some(conv.id);
    }

    /** Picking a past conversation in the list: when it is not the one
        open, the open one is saved first, then the picked one is loaded. */
    method OpenConversation(babyId: int, targetId: int, created: Option<int>, loaded: Option<StoredConversation>)
      modifies this`messages, this`convId, this`saves
      ensures old(convId) == Some(targetId) ==> messages == old(messages) && convId == old(convId) && saves == old(saves)
      ensures old(convId) != Some(targetId) ==> saves == old(saves) + SaveFor(babyId, old(convId), old(messages))
      ensures old(convId) != Some(targetId) && loaded.Some? ==> convId == Some(loaded.value.id)
      ensures old(convId) != Some(targetId) && loaded.Some? ==>
        messages == (if loaded.value.messages.Some? then loaded.value.messages.value else [])
      ensures old(convId) != Some(targetId) && loaded.None? ==> messages == [] && convId == None
    {
      if convId != Some(targetId) {
        SaveCurrentIfNeeded(babyId, created);
        LoadConversation(loaded);
      }
    }
  }
}
