/** The non-drawing logic of the home screens: chat threads with their tagged helper messages,
    the context and carry-over texts built from them, nutrient totals, and the checks the meal
    dialogs run before saving. Message and conversation ids arrive as parameters. */
module MealScreens {
  import opened Wrappers
  import opened Text
  import opened Decimal
  import opened Meals
  import Chat = OpenAiChatAssistant
  import ViewModel
  import opened Sequences

  // ---------------------------------------------------------------------------------------------
  // Texts

  /** The start of the context message up to the profile summary: the heading and the coach
      guideline as `trimIndent` leaves it, then the profile heading. */
  const CoachBlock := "Coach-Richtlinie:\nDu bist ein empathischer Ernährungscoach. Antworte auf Deutsch, liefere klare\nund hilfreiche Antworten und gehe – wo passend – auf konkrete Mahlzeiten ein.\nNenne Makronährstoffe immer für die gesamte Mahlzeit und gib deine beste\nEinschätzung, selbst wenn Unsicherheiten bestehen.\n\nProfil-Überblick:\n"
  const HistoryHeading := "\n\nBisheriger Chat-Verlauf:\n"
  const NoHistory := "Bisher gibt es noch keinen Gesprächsverlauf."
  const IntroPrefix := "Hier ist eine aktuelle Zusammenfassung deiner Daten:\n\n"
  const SummaryHeading := "Ich habe die wichtigsten Punkte aus früheren Chats übernommen:"
  const LoadingText := "Ich denke kurz nach …"
  const ErrorPrefix := "Leider gab es ein Problem beim Abrufen der Antwort.\n"
  const DefaultReason := "Bitte versuche es später erneut."
  /** How many earlier messages a new conversation carries over. */
  const SummaryLimit: nat := 8

  // ---------------------------------------------------------------------------------------------
  // Messages

  datatype ChatSender = User | Assistant

  /** The helper messages a thread carries besides the turns of the dialogue. */
  datatype ChatContextType = Intro | History | CarryOver | Loading | Error

  /** A chat bubble; `contextType == None` marks a turn of the dialogue itself. */
  datatype ChatMessage = ChatMessage(
    id: string,
    sender: ChatSender,
    content: string,
    contextType: Option<ChatContextType>)

  predicate IsPlain(m: ChatMessage) {
    m.contextType.None?
  }

  /** `filter { it.contextType == null }`. */
  function Plain(ms: seq<ChatMessage>): (r: seq<ChatMessage>)
    ensures |r| <= |ms|
  {
    if ms == [] then []
    else Plain(ms[..|ms| - 1]) + (if IsPlain(ms[|ms| - 1]) then [ms[|ms| - 1]] else [])
  }

  lemma PlainSnoc(a: seq<ChatMessage>, m: ChatMessage)
    ensures Plain(a + [m]) == Plain(a) + (if IsPlain(m) then [m] else [])
  {
    assert (a + [m])[..|a|] == a;
  }

  /** `removeAll { it.contextType == tag }`. */
  function WithoutTag(ms: seq<ChatMessage>, tag: ChatContextType): (r: seq<ChatMessage>)
    ensures |r| <= |ms|
  {
    if ms == [] then []
    else
      WithoutTag(ms[..|ms| - 1], tag)
        + (if ms[|ms| - 1].contextType != Some(tag) then [ms[|ms| - 1]] else [])
  }

  lemma WithoutTagSnoc(a: seq<ChatMessage>, m: ChatMessage, tag: ChatContextType)
    ensures WithoutTag(a + [m], tag) == WithoutTag(a, tag) + (if m.contextType != Some(tag) then [m] else [])
  {
    assert (a + [m])[..|a|] == a;
  }

  /** Removal only drops messages: everything left was there before. */
  lemma {:induction false} WithoutTagFrom(ms: seq<ChatMessage>, tag: ChatContextType)
    ensures forall m :: m in WithoutTag(ms, tag) ==> m in ms && m.contextType != Some(tag)
  {
    if ms != [] {
      WithoutTagFrom(ms[..|ms| - 1], tag);
      assert ms == ms[..|ms| - 1] + [ms[|ms| - 1]];
    }
  }

  /** How many messages carry `tag`. */
  function CountTagged(ms: seq<ChatMessage>, tag: ChatContextType): nat {
    if ms == [] then 0
    else CountTagged(ms[..|ms| - 1], tag) + (if ms[|ms| - 1].contextType == Some(tag) then 1 else 0)
  }

  lemma CountTaggedSnoc(a: seq<ChatMessage>, m: ChatMessage, tag: ChatContextType)
    ensures CountTagged(a + [m], tag) == CountTagged(a, tag) + (if m.contextType == Some(tag) then 1 else 0)
  {
    assert (a + [m])[..|a|] == a;
  }

  /** Removing a tag leaves none of it behind. */
  lemma {:induction false} NoneLeftAfterRemoval(ms: seq<ChatMessage>, tag: ChatContextType)
    ensures CountTagged(WithoutTag(ms, tag), tag) == 0
  {
    if ms != [] {
      var front := ms[..|ms| - 1];
      var last := ms[|ms| - 1];
      NoneLeftAfterRemoval(front, tag);
      if last.contextType != Some(tag) {
        CountTaggedSnoc(WithoutTag(front, tag), last, tag);
      } else {
        assert WithoutTag(ms, tag) == WithoutTag(front, tag);
      }
    }
  }

  /** Removing a tag keeps every message of the dialogue, in order. */
  lemma {:induction false} RemovalKeepsPlain(ms: seq<ChatMessage>, tag: ChatContextType)
    ensures Plain(WithoutTag(ms, tag)) == Plain(ms)
  {
    if ms != [] {
      var front := ms[..|ms| - 1];
      var last := ms[|ms| - 1];
      RemovalKeepsPlain(front, tag);
      if last.contextType != Some(tag) {
        PlainSnoc(WithoutTag(front, tag), last);
      } else {
        assert WithoutTag(ms, tag) == WithoutTag(front, tag);
        assert Plain(ms) == Plain(front);
      }
    }
  }

  /** The content of the first message tagged `tag` (`firstOrNull { … }?.content`). */
  function FirstTaggedContent(ms: seq<ChatMessage>, tag: ChatContextType): (r: Option<string>)
    ensures r.None? <==> forall i :: 0 <= i < |ms| ==> ms[i].contextType != Some(tag)
    ensures r.Some? ==>
      exists k :: 0 <= k < |ms| && ms[k].contextType == Some(tag) && r.value == ms[k].content &&
        (forall j :: 0 <= j < k ==> ms[j].contextType != Some(tag))
  {
    if ms == [] then None
    else
      var front := FirstTaggedContent(ms[..|ms| - 1], tag);
      assert forall i :: 0 <= i < |ms| - 1 ==> ms[..|ms| - 1][i] == ms[i];
      if front.Some? then front
      else if ms[|ms| - 1].contextType == Some(tag) then
        assert forall j :: 0 <= j < |ms| - 1 ==> ms[j].contextType != Some(tag);
        Some(ms[|ms| - 1].content)
      else None
  }

  lemma FirstTaggedSnoc(a: seq<ChatMessage>, m: ChatMessage, tag: ChatContextType)
    ensures FirstTaggedContent(a + [m], tag) ==
      if FirstTaggedContent(a, tag).Some? then FirstTaggedContent(a, tag)
      else if m.contextType == Some(tag) then Some(m.content)
      else None
  {
    assert (a + [m])[..|a|] == a;
  }

  /** Removing one tag does not change which message of another tag comes first. */
  lemma {:induction false} FirstTaggedAfterRemoval(ms: seq<ChatMessage>, removed: ChatContextType,
                                                   tag: ChatContextType)
    requires removed != tag
    ensures FirstTaggedContent(WithoutTag(ms, removed), tag) == FirstTaggedContent(ms, tag)
  {
    if ms != [] {
      var front := ms[..|ms| - 1];
      var last := ms[|ms| - 1];
      var kept := WithoutTag(front, removed);
      FirstTaggedAfterRemoval(front, removed, tag);
      if last.contextType != Some(removed) {
        assert WithoutTag(ms, removed) == kept + [last];
        FirstTaggedSnoc(kept, last, tag);
      } else {
        assert WithoutTag(ms, removed) == kept;
      }
    }
  }

  /** The first position holding a message with this id (`indexOfFirst { it.id == id }`). */
  function IndexOfId(ms: seq<ChatMessage>, id: string): (r: Option<nat>)
    ensures r.Some? ==> r.value < |ms| && ms[r.value].id == id
    ensures r.Some? ==> forall j :: 0 <= j < r.value ==> ms[j].id != id
    ensures r.None? <==> forall j :: 0 <= j < |ms| ==> ms[j].id != id
  {
    FirstWhere(ms, (m: ChatMessage) => m.id == id)
  }

  // ---------------------------------------------------------------------------------------------
  // Texts derived from messages

  function Speaker(sender: ChatSender): string {
    if sender == User then "Du" else "Begleiter"
  }

  /** `toHistoryEntry`: the sender becomes the role and the content is trimmed. */
  function ToHistoryEntry(m: ChatMessage): (e: Chat.ChatHistoryEntry)
    ensures e.content == Trim(m.content)
    ensures e.role == Chat.User <==> m.sender == User
  {
    match m.sender
    case User => Chat.ChatHistoryEntry(Chat.User, Trim(m.content))
    case Assistant => Chat.ChatHistoryEntry(Chat.Assistant, Trim(m.content))
  }

  function HistoryEntries(ms: seq<ChatMessage>): (r: seq<Chat.ChatHistoryEntry>)
    ensures |r| == |ms| && forall i :: 0 <= i < |ms| ==> r[i] == ToHistoryEntry(ms[i])
  {
    if ms == [] then [] else HistoryEntries(ms[..|ms| - 1]) + [ToHistoryEntry(ms[|ms| - 1])]
  }

  /** One turn as the context message lists it. */
  function TranscriptLine(m: ChatMessage): string {
    Speaker(m.sender) + ": " + m.content
  }

  function TranscriptLines(ms: seq<ChatMessage>): (r: seq<string>)
    ensures |r| == |ms| && forall i :: 0 <= i < |ms| ==> r[i] == TranscriptLine(ms[i])
  {
    if ms == [] then [] else TranscriptLines(ms[..|ms| - 1]) + [TranscriptLine(ms[|ms| - 1])]
  }

  /** The context built around a given opening block: that block, the profile and the
      transcript of the dialogue, or a notice when it is blank; trailing whitespace trimmed. */
  function ContextFor(guideline: string, profileSummary: string, messages: seq<ChatMessage>): string {
    var history := Join(TranscriptLines(Plain(messages)), "\n\n");
    var section := if IsBlank(history) then NoHistory else history;
    TrimEnd(guideline + profileSummary + HistoryHeading + section)
  }

  /** `buildConversationContext`: the context opened by the coach guideline. */
  function ConversationContext(profileSummary: string, messages: seq<ChatMessage>): string {
    ContextFor(CoachBlock, profileSummary, messages)
  }

  /** Without any turn, the context ends in the no-history notice. */
  lemma ContextWithoutDialogue(profileSummary: string, messages: seq<ChatMessage>)
    requires Plain(messages) == []
    ensures ConversationContext(profileSummary, messages)
      == CoachBlock + profileSummary + HistoryHeading + NoHistory
  {
    var s := CoachBlock + profileSummary + HistoryHeading + NoHistory;
    assert s[|s| - 1] == '.';
    TrimEndOfBlankSuffix(s, []);
    assert s + [] == s;
  }

  /** With a non-blank transcript, the context is the heading followed by the transcript,
      whose own trailing whitespace alone is trimmed. */
  lemma ContextWithDialogue(profileSummary: string, messages: seq<ChatMessage>)
    requires !IsBlank(Join(TranscriptLines(Plain(messages)), "\n\n"))
    ensures ConversationContext(profileSummary, messages)
      == CoachBlock + profileSummary + HistoryHeading + TrimEnd(Join(TranscriptLines(Plain(messages)), "\n\n"))
  {
    TrimEndNonBlankSuffix(CoachBlock + profileSummary + HistoryHeading,
                          Join(TranscriptLines(Plain(messages)), "\n\n"));
  }

  /** Whatever precedes the history heading survives the final `trimEnd`. */
  lemma HeadSurvivesTrim(head: string, section: string)
    ensures StartsWith(TrimEnd(head + HistoryHeading + section), head)
  {
    var p := head + "\n\nB";
    var rest := HistoryHeading[3..] + section;
    assert head + HistoryHeading + section == p + rest;
    assert p[|p| - 1] == 'B';
    assert !IsWhitespace('B');
    TrimEndKeepsPrefix(p, rest);
    assert p[..|head|] == head;
  }

  /** The context always opens with the coach guideline and the profile. */
  lemma ContextOpensWithGuideline(profileSummary: string, messages: seq<ChatMessage>)
    ensures StartsWith(ConversationContext(profileSummary, messages), CoachBlock + profileSummary)
  {
    var history := Join(TranscriptLines(Plain(messages)), "\n\n");
    var section := if IsBlank(history) then NoHistory else history;
    HeadSurvivesTrim(CoachBlock + profileSummary, section);
  }

  /** One carried-over message. */
  function Bullet(m: ChatMessage): string {
    "• " + Speaker(m.sender) + ": " + m.content
  }

  function Bullets(ms: seq<ChatMessage>): (r: seq<string>)
    ensures |r| == |ms| && forall i :: 0 <= i < |ms| ==> r[i] == Bullet(ms[i])
  {
    if ms == [] then [] else Bullets(ms[..|ms| - 1]) + [Bullet(ms[|ms| - 1])]
  }

  /** `flatMap` over the conversations' message lists, in list order. */
  function Flatten(lists: seq<seq<ChatMessage>>): seq<ChatMessage> {
    if lists == [] then [] else Flatten(lists[..|lists| - 1]) + lists[|lists| - 1]
  }

  /** `takeLast(n)`. */
  function TakeLast(ms: seq<ChatMessage>, n: nat): (r: seq<ChatMessage>)
    ensures |r| == if |ms| < n then |ms| else n
    ensures r == ms[|ms| - |r|..]
  {
    if |ms| <= n then ms else ms[|ms| - n..]
  }

  /** The dialogue turns a new conversation carries over: the last eight across all threads. */
  function CarriedMessages(lists: seq<seq<ChatMessage>>): seq<ChatMessage> {
    TakeLast(Plain(Flatten(lists)), SummaryLimit)
  }

  /** `buildPreviousConversationSummary`: a heading and one bullet per carried message, or
      nothing when no thread has a turn of dialogue. */
  function PreviousConversationSummary(lists: seq<seq<ChatMessage>>): Option<string> {
    var previous := CarriedMessages(lists);
    if previous == [] then None
    else Some(TrimEnd(SummaryHeading + "\n" + Join(Bullets(previous), "\n")))
  }

  /** There is a summary exactly when some thread holds a turn of dialogue, and it opens with
      the heading. */
  lemma SummaryMeaning(lists: seq<seq<ChatMessage>>)
    ensures PreviousConversationSummary(lists).None? <==> Plain(Flatten(lists)) == []
    ensures PreviousConversationSummary(lists).Some? ==>
      StartsWith(PreviousConversationSummary(lists).value, SummaryHeading)
  {
    var previous := CarriedMessages(lists);
    if previous != [] {
      assert SummaryHeading + "\n" + Join(Bullets(previous), "\n")
        == SummaryHeading + ("\n" + Join(Bullets(previous), "\n"));
      TrimEndKeepsPrefix(SummaryHeading, "\n" + Join(Bullets(previous), "\n"));
    }
  }

  // ---------------------------------------------------------------------------------------------
  // Conversation steps on message lists

  /** The opening messages of a new thread: the profile intro, then the carry-over when there
      is one. */
  function InitialMessages(profileSummary: string, summary: Option<string>, introId: string,
                           carryOverId: string): (r: seq<ChatMessage>)
    ensures |r| == if summary.Some? then 2 else 1
    ensures r[0] == ChatMessage(introId, Assistant, IntroPrefix + profileSummary, Some(Intro))
    ensures summary.Some? ==> r[1] == ChatMessage(carryOverId, Assistant, summary.value, Some(CarryOver))
  {
    [ChatMessage(introId, Assistant, IntroPrefix + profileSummary, Some(Intro))]
      + (if summary.Some? then [ChatMessage(carryOverId, Assistant, summary.value, Some(CarryOver))] else [])
  }

  /** A new thread carries over exactly the summary it was given, and has no turn yet. */
  lemma InitialCarryOver(profileSummary: string, summary: Option<string>, introId: string,
                         carryOverId: string)
    ensures FirstTaggedContent(InitialMessages(profileSummary, summary, introId, carryOverId), CarryOver) == summary
    ensures Plain(InitialMessages(profileSummary, summary, introId, carryOverId)) == []
  {
    var intro := ChatMessage(introId, Assistant, IntroPrefix + profileSummary, Some(Intro));
    PlainSnoc([], intro);
    FirstTaggedSnoc([], intro, CarryOver);
    assert [] + [intro] == [intro];
    if summary.Some? {
      var carry := ChatMessage(carryOverId, Assistant, summary.value, Some(CarryOver));
      assert InitialMessages(profileSummary, summary, introId, carryOverId) == [intro] + [carry];
      PlainSnoc([intro], carry);
      FirstTaggedSnoc([intro], carry, CarryOver);
    } else {
      assert InitialMessages(profileSummary, summary, introId, carryOverId) == [intro];
    }
  }

  /** The user's turn as `sendChatMessage` appends it. */
  function UserTurn(userId: string, trimmed: string): ChatMessage {
    ChatMessage(userId, User, trimmed, None)
  }

  /** The messages of a thread once its old scaffolds are gone and the user's turn is added. */
  function KeptAfterSend(ms: seq<ChatMessage>, trimmed: string, userId: string): seq<ChatMessage> {
    WithoutTag(ms + [UserTurn(userId, trimmed)], History)
  }

  /** The kept messages are the earlier non-scaffold messages followed by the new turn, and
      their dialogue is the earlier dialogue plus that turn. */
  lemma KeptLayout(ms: seq<ChatMessage>, trimmed: string, userId: string)
    ensures KeptAfterSend(ms, trimmed, userId) == WithoutTag(ms, History) + [UserTurn(userId, trimmed)]
    ensures Plain(KeptAfterSend(ms, trimmed, userId)) == Plain(ms) + [UserTurn(userId, trimmed)]
  {
    var u := UserTurn(userId, trimmed);
    WithoutTagSnoc(ms, u, History);
    PlainSnoc(WithoutTag(ms, History), u);
    RemovalKeepsPlain(ms, History);
  }

  /** The messages after a send, before the reply: the user's turn is appended, every earlier
      history scaffold removed, and a fresh scaffold holding `context` and the loading
      placeholder appended. */
  function AfterSend(ms: seq<ChatMessage>, context: string, trimmed: string,
                     userId: string, historyId: string, loadingId: string): seq<ChatMessage>
  {
    var kept := KeptAfterSend(ms, trimmed, userId);
    kept + [ChatMessage(historyId, Assistant, context, Some(History))]
      + [ChatMessage(loadingId, Assistant, LoadingText, Some(Loading))]
  }

  /** The shape of a thread after a send: the earlier messages without scaffolds, in order,
      then the user's turn, the history scaffold and the placeholder. */
  lemma SendLayout(ms: seq<ChatMessage>, context: string, trimmed: string,
                   userId: string, historyId: string, loadingId: string)
    ensures var r := AfterSend(ms, context, trimmed, userId, historyId, loadingId);
      |r| >= 3
      && r[..|r| - 2] == WithoutTag(ms, History) + [UserTurn(userId, trimmed)]
      && r[|r| - 2] == ChatMessage(historyId, Assistant, context, Some(History))
      && r[|r| - 1] == ChatMessage(loadingId, Assistant, LoadingText, Some(Loading))
  {
    KeptLayout(ms, trimmed, userId);
    var r := AfterSend(ms, context, trimmed, userId, historyId, loadingId);
    assert r[..|r| - 2] == KeptAfterSend(ms, trimmed, userId);
  }

  /** There is exactly one history scaffold after every send, however many sends came
      before. */
  lemma SendLeavesOneScaffold(ms: seq<ChatMessage>, context: string, trimmed: string,
                              userId: string, historyId: string, loadingId: string)
    ensures CountTagged(AfterSend(ms, context, trimmed, userId, historyId, loadingId), History) == 1
  {
    var kept := KeptAfterSend(ms, trimmed, userId);
    var scaffold := ChatMessage(historyId, Assistant, context, Some(History));
    var loading := ChatMessage(loadingId, Assistant, LoadingText, Some(Loading));
    NoneLeftAfterRemoval(ms + [UserTurn(userId, trimmed)], History);
    CountTaggedSnoc(kept, scaffold, History);
    CountTaggedSnoc(kept + [scaffold], loading, History);
  }

  /** The dialogue after a send is the dialogue before it plus the user's turn: no helper
      message becomes a turn and no turn is lost. */
  lemma SendAppendsTurn(ms: seq<ChatMessage>, context: string, trimmed: string,
                        userId: string, historyId: string, loadingId: string)
    ensures Plain(AfterSend(ms, context, trimmed, userId, historyId, loadingId))
      == Plain(ms) + [UserTurn(userId, trimmed)]
  {
    var kept := KeptAfterSend(ms, trimmed, userId);
    var scaffold := ChatMessage(historyId, Assistant, context, Some(History));
    var loading := ChatMessage(loadingId, Assistant, LoadingText, Some(Loading));
    KeptLayout(ms, trimmed, userId);
    PlainSnoc(kept, scaffold);
    PlainSnoc(kept + [scaffold], loading);
  }

  /** A send keeps the thread's carry-over. */
  lemma SendKeepsCarryOver(ms: seq<ChatMessage>, context: string, trimmed: string,
                           userId: string, historyId: string, loadingId: string)
    ensures FirstTaggedContent(AfterSend(ms, context, trimmed, userId, historyId, loadingId), CarryOver)
      == FirstTaggedContent(ms, CarryOver)
  {
    var u := UserTurn(userId, trimmed);
    var kept := KeptAfterSend(ms, trimmed, userId);
    var scaffold := ChatMessage(historyId, Assistant, context, Some(History));
    var loading := ChatMessage(loadingId, Assistant, LoadingText, Some(Loading));
    FirstTaggedAfterRemoval(ms + [u], History, CarryOver);
    FirstTaggedSnoc(ms, u, CarryOver);
    FirstTaggedSnoc(kept, scaffold, CarryOver);
    FirstTaggedSnoc(kept + [scaffold], loading, CarryOver);
  }

  /** What the coroutine puts in place of the placeholder: the trimmed reply, or an
      error bubble with the failure's message or a default when that is missing or blank. */
  function Replacement(loadingId: string, reply: Result<string, Option<string>>): (m: ChatMessage)
    ensures m.id == loadingId && m.sender == Assistant
    ensures reply.Ok? ==> m.contextType == None && m.content == Trim(reply.value)
    ensures reply.Err? ==> m.contextType == Some(Error)
    ensures reply.Err? && reply.error.Some? && !IsBlank(reply.error.value) ==>
      m.content == ErrorPrefix + reply.error.value
    ensures reply.Err? && (reply.error.None? || IsBlank(reply.error.value)) ==>
      m.content == ErrorPrefix + DefaultReason
  {
    match reply
    case Ok(text) => ChatMessage(loadingId, Assistant, Trim(text), None)
    case Err(message) =>
      var reason := if message.Some? && !IsBlank(message.value) then message.value else DefaultReason;
      ChatMessage(loadingId, Assistant, ErrorPrefix + reason, Some(Error))
  }

  /** The placeholder is replaced where it stands; when it has gone, the reply is appended. */
  function Resolved(ms: seq<ChatMessage>, replacement: ChatMessage): (r: seq<ChatMessage>)
    ensures IndexOfId(ms, replacement.id).Some? ==>
      |r| == |ms| && r[IndexOfId(ms, replacement.id).value] == replacement
      && forall j :: 0 <= j < |ms| && j != IndexOfId(ms, replacement.id).value ==> r[j] == ms[j]
    ensures IndexOfId(ms, replacement.id).None? ==> r == ms + [replacement]
  {
    match IndexOfId(ms, replacement.id)
    case Some(k) => ms[k := replacement]
    case None => ms + [replacement]
  }

  /** Right after a send whose placeholder id is new to the thread, the placeholder is the
      only message with that id. */
  lemma PlaceholderIsLast(ms: seq<ChatMessage>, context: string, trimmed: string,
                          userId: string, historyId: string, loadingId: string)
    requires forall i :: 0 <= i < |ms| ==> ms[i].id != loadingId
    requires userId != loadingId && historyId != loadingId
    ensures var sent := AfterSend(ms, context, trimmed, userId, historyId, loadingId);
      IndexOfId(sent, loadingId) == Some(|sent| - 1)
  {
    var sent := AfterSend(ms, context, trimmed, userId, historyId, loadingId);
    SendLayout(ms, context, trimmed, userId, historyId, loadingId);
    WithoutTagFrom(ms, History);
    var kept := WithoutTag(ms, History);
    var front := sent[..|sent| - 1];
    forall j | 0 <= j < |front| ensures front[j].id != loadingId {
      if j < |kept| {
        assert front[j] == kept[j];
        assert kept[j] in kept;
      }
    }
    assert sent == front + [sent[|sent| - 1]];
    IndexOfIdAppend(front, sent[|sent| - 1]);
  }

  /** A message appended after messages with other ids is found at the end. */
  lemma IndexOfIdAppend(ms: seq<ChatMessage>, m: ChatMessage)
    requires forall j :: 0 <= j < |ms| ==> ms[j].id != m.id
    ensures IndexOfId(ms + [m], m.id) == Some(|ms|)
  {
    assert (ms + [m])[|ms|].id == m.id;
  }

  /** So the reply, whatever it is, takes the placeholder's place at the end. */
  lemma ReplyReplacesPlaceholder(ms: seq<ChatMessage>, context: string, trimmed: string,
                                 userId: string, historyId: string, loadingId: string,
                                 replacement: ChatMessage)
    requires forall i :: 0 <= i < |ms| ==> ms[i].id != loadingId
    requires userId != loadingId && historyId != loadingId && replacement.id == loadingId
    ensures var sent := AfterSend(ms, context, trimmed, userId, historyId, loadingId);
      Resolved(sent, replacement) == sent[..|sent| - 1] + [replacement]
  {
    var sent := AfterSend(ms, context, trimmed, userId, historyId, loadingId);
    PlaceholderIsLast(ms, context, trimmed, userId, historyId, loadingId);
    assert sent[|sent| - 1 := replacement] == sent[..|sent| - 1] + [replacement];
  }

  /** What `sendChatMessage` hands to the assistant. */
  datatype ReplyRequest = ReplyRequest(
    history: seq<Chat.ChatHistoryEntry>,
    carryOverSummary: Option<string>,
    loadingId: string)

  /** The history sent along is exactly the thread's turns, the new one last, each trimmed and
      with its sender as role. */
  lemma SentHistoryIsTheDialogue(ms: seq<ChatMessage>, trimmed: string, userId: string)
    ensures var h := HistoryEntries(Plain(KeptAfterSend(ms, trimmed, userId)));
      |h| == |Plain(ms)| + 1
      && (forall i :: 0 <= i < |Plain(ms)| ==> h[i] == ToHistoryEntry(Plain(ms)[i]))
      && h[|h| - 1] == Chat.ChatHistoryEntry(Chat.User, Trim(trimmed))
  {
    KeptLayout(ms, trimmed, userId);
  }

  /** A thread's messages after `sendChatMessage` has added the turn `trimmed`, with the
      context rebuilt from `guideline`, the profile and the new dialogue. */
  function SentMessages(ms: seq<ChatMessage>, guideline: string, profileSummary: string,
                        trimmed: string, userId: string, historyId: string, loadingId: string)
    : seq<ChatMessage>
  {
    AfterSend(ms, ContextFor(guideline, profileSummary, Plain(ms) + [UserTurn(userId, trimmed)]),
              trimmed, userId, historyId, loadingId)
  }

  /** The request `sendChatMessage` makes from a thread's messages once the placeholder is in
      place: the dialogue as history, and the thread's carry-over. */
  function RequestFor(ms: seq<ChatMessage>, loadingId: string): ReplyRequest {
    ReplyRequest(HistoryEntries(Plain(ms)), FirstTaggedContent(ms, CarryOver), loadingId)
  }

  /** So the request carries the earlier dialogue plus the new turn, and the carry-over the
      thread had before the send. */
  lemma SentRequestCarriesDialogue(ms: seq<ChatMessage>, guideline: string, profileSummary: string,
                                   trimmed: string, userId: string, historyId: string, loadingId: string)
    ensures RequestFor(SentMessages(ms, guideline, profileSummary, trimmed, userId, historyId, loadingId), loadingId)
      == ReplyRequest(HistoryEntries(Plain(ms) + [UserTurn(userId, trimmed)]),
                      FirstTaggedContent(ms, CarryOver), loadingId)
  {
    var context := ContextFor(guideline, profileSummary, Plain(ms) + [UserTurn(userId, trimmed)]);
    SendAppendsTurn(ms, context, trimmed, userId, historyId, loadingId);
    SendKeepsCarryOver(ms, context, trimmed, userId, historyId, loadingId);
  }

  // ---------------------------------------------------------------------------------------------
  // Threads

  /** One chat thread; its message list is edited in place. */
  class ChatConversation {
    const id: string
    const title: string
    var messages: seq<ChatMessage>

    constructor (id: string, title: string, messages: seq<ChatMessage>)
      ensures this.id == id && this.title == title && this.messages == messages
    {
      this.id := id;
      this.title := title;
      this.messages := messages;
    }

    /** The part of `sendChatMessage` that edits this thread: the user's turn is added, the
        old context scaffold dropped, a fresh one and the placeholder appended, and the reply
        request assembled from the new dialogue and the carried-over summary. */
    method SendTurn(guideline: string, profileSummary: string, trimmed: string, userId: string,
                    historyId: string, loadingId: string)
      returns (request: ReplyRequest)
      modifies this
      ensures messages == SentMessages(old(messages), guideline, profileSummary, trimmed, userId,
                                       historyId, loadingId)
      ensures request == RequestFor(messages, loadingId)
    {
      var updated := messages + [UserTurn(userId, trimmed)];
      updated := WithoutTag(updated, History);
      KeptLayout(messages, trimmed, userId);
      var plainMessages := Plain(updated);
      var contextPayload := ContextFor(guideline, profileSummary, plainMessages);
      updated := updated + [ChatMessage(historyId, Assistant, contextPayload, Some(History))];
      updated := updated + [ChatMessage(loadingId, Assistant, LoadingText, Some(Loading))];
      SendAppendsTurn(old(messages), contextPayload, trimmed, userId, historyId, loadingId);
      var historyEntries := HistoryEntries(plainMessages);
      var carryOverSummary := FirstTaggedContent(updated, CarryOver);
      messages := updated;
      request := ReplyRequest(historyEntries, carryOverSummary, loadingId);
    }

    /** The reply coroutine's last step. */
    method ResolveReply(loadingId: string, reply: Result<string, Option<string>>)
      modifies this
      ensures messages == Resolved(old(messages), Replacement(loadingId, reply))
    {
      var replacement := Replacement(loadingId, reply);
      var index := IndexOfId(messages, loadingId);
      if index.Some? {
        messages := messages[index.value := replacement];
      } else {
        messages := messages + [replacement];
      }
    }
  }

  /** The message lists of the threads, in list order. */
  function MessageLists(cs: seq<ChatConversation>): (r: seq<seq<ChatMessage>>)
    reads cs
    ensures |r| == |cs| && forall i :: 0 <= i < |cs| ==> r[i] == cs[i].messages
  {
    if cs == [] then [] else MessageLists(cs[..|cs| - 1]) + [cs[|cs| - 1].messages]
  }

  /** The first thread with this id (`firstOrNull { it.id == id }`). */
  function FindConversation(cs: seq<ChatConversation>, id: string): (r: Option<nat>)
    ensures r.Some? ==> r.value < |cs| && cs[r.value].id == id
    ensures r.Some? ==> forall j :: 0 <= j < r.value ==> cs[j].id != id
    ensures r.None? <==> forall j :: 0 <= j < |cs| ==> cs[j].id != id
  {
    FirstWhere(cs, (c: ChatConversation) => c.id == id)
  }

  /** The thread `sendChatMessage` edits: the first one with this id, if any. */
  function Addressed(cs: seq<ChatConversation>, id: string): set<ChatConversation> {
    match FindConversation(cs, id)
    case None => {}
    case Some(k) => {cs[k]}
  }

  /** The chat center's remembered state: the threads, newest first, the counter behind
      their titles, the active thread and whether the center is open. `guideline` is the
      coach block every context opens with, fixed when the center is made. */
  class ChatCenter {
    const guideline: string
    var conversations: seq<ChatConversation>
    var conversationCounter: nat
    var activeConversationId: Option<string>
    var isChatCenterOpen: bool

    constructor ()
      ensures conversations == [] && conversationCounter == 0
      ensures activeConversationId == None && !isChatCenterOpen
      ensures guideline == CoachBlock
    {
      guideline := CoachBlock;
      conversations := [];
      conversationCounter := 0;
      activeConversationId := None;
      isChatCenterOpen := false;
    }

    /** `createConversation`: a new thread seeded with the carry-over of the existing ones, put
        first in the list and made active. */
    method CreateConversation(profileSummary: string, introId: string, carryOverId: string,
                              conversationId: string)
      returns (conversation: ChatConversation)
      modifies this
      ensures fresh(conversation)
      ensures conversations == [conversation] + old(conversations)
      ensures conversation.id == conversationId
      ensures conversation.title == "Chat " + NatToString(old(conversationCounter) + 1)
      ensures conversation.messages == InitialMessages(profileSummary,
        PreviousConversationSummary(old(MessageLists(conversations))), introId, carryOverId)
      ensures conversationCounter == old(conversationCounter) + 1
      ensures activeConversationId == Some(conversationId)
      ensures isChatCenterOpen == old(isChatCenterOpen)
    {
      var lists := MessageLists(conversations);
      var carryOverSummary := PreviousConversationSummary(lists);
      var initialMessages := InitialMessages(profileSummary, carryOverSummary, introId, carryOverId);
      conversation := new ChatConversation(conversationId, "Chat " + NatToString(conversationCounter + 1),
                                           initialMessages);
      conversationCounter := conversationCounter + 1;
      conversations := [conversation] + conversations;
      activeConversationId := Some(conversationId);
      assert lists == old(MessageLists(conversations));
      assert conversation.messages == initialMessages;
    }

    /** `openChatCenter`: opens the center, first creating a thread when there is none. */
    method OpenChatCenter(profileSummary: string, introId: string, carryOverId: string,
                          conversationId: string)
      modifies this
      ensures isChatCenterOpen
      ensures old(conversations) != [] ==>
        conversations == old(conversations) && conversationCounter == old(conversationCounter)
        && activeConversationId == old(activeConversationId)
      ensures old(conversations) == [] ==>
        |conversations| == 1 && fresh(conversations[0]) && conversations[0].id == conversationId
        && conversations[0].messages == InitialMessages(profileSummary, None, introId, carryOverId)
        && conversationCounter == old(conversationCounter) + 1
        && activeConversationId == Some(conversationId)
    {
      if conversations == [] {
        var _ := CreateConversation(profileSummary, introId, carryOverId, conversationId);
      }
      isChatCenterOpen := true;
    }

    /** `sendChatMessage` up to the point where the reply is requested. Returns the request,
        or nothing when the message is blank or the thread is unknown. */
    method SendChatMessage(conversationId: string, message: string, profileSummary: string,
                           userId: string, historyId: string, loadingId: string)
      returns (request: Option<ReplyRequest>)
      modifies Addressed(conversations, conversationId)
      ensures request.Some? <==> !IsBlank(message) && FindConversation(conversations, conversationId).Some?
      ensures request.Some? ==>
        var k := FindConversation(conversations, conversationId).value;
        conversations[k].messages
          == SentMessages(old(MessageLists(conversations))[k], guideline, profileSummary, Trim(message),
                          userId, historyId, loadingId)
        && request.value == RequestFor(conversations[k].messages, loadingId)
      ensures request.None? ==> MessageLists(conversations) == old(MessageLists(conversations))
    {
      var trimmed := Trim(message);
      BlankTrimsToEmpty(message);
      if trimmed == [] {
        return None;
      }
      var found := FindConversation(conversations, conversationId);
      if found.None? {
        return None;
      }
      var conversation := conversations[found.value];
      var sent := conversation.SendTurn(guideline, profileSummary, trimmed, userId, historyId, loadingId);
      request := Some(sent);
    }
  }

  // ---------------------------------------------------------------------------------------------
  // Nutrient totals

  /** Summed grams, in hundredths of a gram. */
  datatype NutrientTotals = NutrientTotals(fatGrams: int, carbGrams: int, proteinGrams: int) {
    /** Energy in hundredths of a kilocalorie: 9 per gram of fat, 4 per gram of the others. */
    function Calories(): int {
      fatGrams * 9 + carbGrams * 4 + proteinGrams * 4
    }

    function Plus(meal: MealEntry): NutrientTotals {
      NutrientTotals(fatGrams + meal.fatGrams, carbGrams + meal.carbGrams, proteinGrams + meal.proteinGrams)
    }
  }

  const Zero := NutrientTotals(0, 0, 0)

  function MealCalories(meal: MealEntry): int {
    meal.fatGrams * 9 + meal.carbGrams * 4 + meal.proteinGrams * 4
  }

  /** Adding a meal adds its calories. */
  lemma PlusAddsCalories(t: NutrientTotals, meal: MealEntry)
    ensures t.Plus(meal).Calories() == t.Calories() + MealCalories(meal)
  {
  }

  /** `fold(NutrientTotals()) { acc, meal -> acc + meal }`. */
  function Totals(meals: seq<MealEntry>): NutrientTotals {
    if meals == [] then Zero else Totals(meals[..|meals| - 1]).Plus(meals[|meals| - 1])
  }

  function SumFat(meals: seq<MealEntry>): int {
    if meals == [] then 0 else meals[0].fatGrams + SumFat(meals[1..])
  }

  function SumCarb(meals: seq<MealEntry>): int {
    if meals == [] then 0 else meals[0].carbGrams + SumCarb(meals[1..])
  }

  function SumProtein(meals: seq<MealEntry>): int {
    if meals == [] then 0 else meals[0].proteinGrams + SumProtein(meals[1..])
  }

  function SumCalories(meals: seq<MealEntry>): int {
    if meals == [] then 0 else MealCalories(meals[0]) + SumCalories(meals[1..])
  }

  lemma {:induction false} SumsOfAppend(meals: seq<MealEntry>, meal: MealEntry)
    ensures SumFat(meals + [meal]) == SumFat(meals) + meal.fatGrams
    ensures SumCarb(meals + [meal]) == SumCarb(meals) + meal.carbGrams
    ensures SumProtein(meals + [meal]) == SumProtein(meals) + meal.proteinGrams
    ensures SumCalories(meals + [meal]) == SumCalories(meals) + MealCalories(meal)
  {
    if meals != [] {
      assert (meals + [meal])[1..] == meals[1..] + [meal];
      SumsOfAppend(meals[1..], meal);
    } else {
      assert ([] + [meal])[1..] == [];
    }
  }

  /** The fold from zero is the componentwise sum. */
  lemma {:induction false} TotalsAreSums(meals: seq<MealEntry>)
    ensures Totals(meals) == NutrientTotals(SumFat(meals), SumCarb(meals), SumProtein(meals))
  {
    if meals != [] {
      var front := meals[..|meals| - 1];
      TotalsAreSums(front);
      SumsOfAppend(front, meals[|meals| - 1]);
      assert front + [meals[|meals| - 1]] == meals;
    }
  }

  /** The calories of the totals are the sum of the meals' calories. */
  lemma {:induction false} TotalCaloriesAreSummed(meals: seq<MealEntry>)
    ensures Totals(meals).Calories() == SumCalories(meals)
  {
    if meals != [] {
      var front := meals[..|meals| - 1];
      TotalCaloriesAreSummed(front);
      PlusAddsCalories(Totals(front), meals[|meals| - 1]);
      SumsOfAppend(front, meals[|meals| - 1]);
      assert front + [meals[|meals| - 1]] == meals;
    }
  }

  /** Totals of two lists add up. */
  lemma {:induction false} TotalsOfConcat(a: seq<MealEntry>, b: seq<MealEntry>)
    ensures var ta := Totals(a); var tb := Totals(b);
      Totals(a + b) == NutrientTotals(ta.fatGrams + tb.fatGrams, ta.carbGrams + tb.carbGrams,
                                      ta.proteinGrams + tb.proteinGrams)
  {
    if b == [] {
      assert a + b == a;
    } else {
      assert (a + b)[..|a + b| - 1] == a + b[..|b| - 1];
      TotalsOfConcat(a, b[..|b| - 1]);
    }
  }

  // ---------------------------------------------------------------------------------------------
  // Dialog input

  /** `parseNumber`: blank is zero; otherwise a decimal comma is accepted as a point. */
  function ParseNumber(value: string): (r: Option<int>)
    ensures IsBlank(value) ==> r == Some(0)
    ensures !IsBlank(value) ==> r == ParseDecimal(ReplaceChar(Trim(value), ',', '.'))
  {
    BlankTrimsToEmpty(value);
    var sanitized := Trim(value);
    if sanitized == [] then Some(0) else ParseDecimal(ReplaceChar(sanitized, ',', '.'))
  }

  /** Whitespace around a number's text is ignored. */
  lemma ParseNumberPadded(pre: string, t: string, post: string)
    requires IsBlank(pre) && IsBlank(post)
    requires t != [] && !IsWhitespace(t[0]) && !IsWhitespace(t[|t| - 1])
    ensures ParseNumber(pre + t + post) == ParseDecimal(ReplaceChar(t, ',', '.'))
  {
    TrimAround(pre, t, post);
    BlankTrimsToEmpty(pre + t + post);
  }

  /** Turning points into commas and back restores a text without commas. */
  lemma CommaSwapBack(f: string)
    requires ',' !in f
    ensures ReplaceChar(f, ',', '.') == f
    ensures ReplaceChar(ReplaceChar(f, '.', ','), ',', '.') == f
  {
  }

  /** A number text with a point, and no space at its ends, reads the same with its point
      written as a comma and with whitespace around it. */
  lemma ParseNumberReadsText(f: string, v: int, pre: string, post: string)
    requires IsBlank(pre) && IsBlank(post) && ',' !in f
    requires f != [] && !IsWhitespace(f[0]) && !IsWhitespace(f[|f| - 1])
    requires ParseDecimal(f) == Some(v)
    ensures ParseNumber(pre + f + post) == Some(v)
    ensures ParseNumber(pre + ReplaceChar(f, '.', ',') + post) == Some(v)
  {
    CommaSwapBack(f);
    ParseNumberPadded(pre, f, post);
    var g := ReplaceChar(f, '.', ',');
    assert !IsWhitespace(',');
    assert !IsWhitespace(g[0]) by {
      assert g[0] == if f[0] == '.' then ',' else f[0];
    }
    assert !IsWhitespace(g[|g| - 1]) by {
      assert g[|g| - 1] == if f[|f| - 1] == '.' then ',' else f[|f| - 1];
    }
    ParseNumberPadded(pre, g, post);
  }

  /** A number written with two decimals reads back, with a point or a comma, and with
      whitespace around it. */
  lemma ParseNumberReadsFixed(n: int, pre: string, post: string)
    requires IsBlank(pre) && IsBlank(post)
    ensures ParseNumber(pre + Fixed2(n) + post) == Some(n)
    ensures ParseNumber(pre + ReplaceChar(Fixed2(n), '.', ',') + post) == Some(n)
  {
    Fixed2Shape(n);
    Fixed2RoundTrip(n);
    ParseNumberReadsText(Fixed2(n), n, pre, post);
  }

  /** The outcome of a dialog's save button: the error flags it shows, or the checked values. */
  datatype Validation =
    | Invalid(descriptionError: bool, numberError: bool)
    | Valid(description: string, fatGrams: int, carbGrams: int, proteinGrams: int)

  /** The shared `attemptSave` check of both meal dialogs. */
  function Validate(description: string, fatInput: string, carbInput: string, proteinInput: string)
    : (v: Validation)
    ensures v.Valid? <==> (!IsBlank(description) && ParseNumber(fatInput).Some?
                           && ParseNumber(carbInput).Some? && ParseNumber(proteinInput).Some?)
    ensures v.Invalid? ==> v.descriptionError == IsBlank(description)
    ensures v.Invalid? ==> v.numberError == (ParseNumber(fatInput).None?
                                            || ParseNumber(carbInput).None? || ParseNumber(proteinInput).None?)
    ensures v.Valid? ==> v.description == Trim(description) && !IsBlank(v.description)
    ensures v.Valid? ==> (Some(v.fatGrams) == ParseNumber(fatInput) && Some(v.carbGrams) == ParseNumber(carbInput)
                          && Some(v.proteinGrams) == ParseNumber(proteinInput))
  {
    BlankTrimsToEmpty(description);
    BlankTrimsToEmpty(Trim(description));
    TrimIdempotent(description);
    var trimmed := Trim(description);
    var fat := ParseNumber(fatInput);
    var carb := ParseNumber(carbInput);
    var protein := ParseNumber(proteinInput);
    var descriptionInvalid := trimmed == [];
    var numbersInvalid := fat.None? || carb.None? || protein.None?;
    if descriptionInvalid || numbersInvalid then Invalid(descriptionInvalid, numbersInvalid)
    else Valid(trimmed, fat.value, carb.value, protein.value)
  }

  /** What the manual dialog passes on is stored as it was checked: the view model's own trim
      finds nothing more to cut. */
  lemma ManualSaveStoresChecked(description: string, fatInput: string, carbInput: string,
                                proteinInput: string, id: string, recordedAt: int)
    requires Validate(description, fatInput, carbInput, proteinInput).Valid?
    ensures var v := Validate(description, fatInput, carbInput, proteinInput);
      ViewModel.ManualEntry(v.description, v.fatGrams, v.carbGrams, v.proteinGrams, id, recordedAt)
        == Some(NewMeal(id, recordedAt, Trim(description), v.fatGrams, v.carbGrams, v.proteinGrams))
  {
    TrimIdempotent(description);
  }

  /** The edit dialog's save: the meal copied with the checked description and grams. */
  function EditedMeal(meal: MealEntry, description: string, fatInput: string, carbInput: string,
                      proteinInput: string): (r: Option<MealEntry>)
    ensures r.Some? <==> Validate(description, fatInput, carbInput, proteinInput).Valid?
    ensures r.Some? ==> (r.value.id == meal.id && r.value.recordedAt == meal.recordedAt
                         && r.value.imageBase64 == meal.imageBase64)
    ensures r.Some? ==> r.value.description == Trim(description)
    ensures r.Some? ==> (Some(r.value.fatGrams) == ParseNumber(fatInput)
                         && Some(r.value.carbGrams) == ParseNumber(carbInput)
                         && Some(r.value.proteinGrams) == ParseNumber(proteinInput))
  {
    match Validate(description, fatInput, carbInput, proteinInput)
    case Invalid(_, _) => None
    case Valid(d, fat, carb, protein) =>
      Some(meal.(description := d, fatGrams := fat, carbGrams := carb, proteinGrams := protein))
  }

  /** Saving an edit replaces the meal in place: the list keeps its length and only entries
      with that id change. */
  lemma EditReplacesInPlace(meals: seq<MealEntry>, k: nat, description: string, fatInput: string,
                            carbInput: string, proteinInput: string)
    requires k < |meals|
    requires EditedMeal(meals[k], description, fatInput, carbInput, proteinInput).Some?
    ensures var e := EditedMeal(meals[k], description, fatInput, carbInput, proteinInput).value;
      var r := ViewModel.ReplaceById(meals, e);
      |r| == |meals| && r[k] == e
      && forall i :: 0 <= i < |meals| && meals[i].id != meals[k].id ==> r[i] == meals[i]
  {
  }
}
