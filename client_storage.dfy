/** The session store over the browser's `localStorage`
    (app/lib/client-storage.ts; src/lib/utils.ts repeats the same five
    functions line for line). The storage area is a map from keys to stored
    texts. The session list is stored as the JSON text of its records, in which
    every `Date` has become its ISO-8601 text; the characters of JSON and ISO
    texts are not modelled, only which value a text stands for. */
module ClientStorage {
  import opened Wrappers
  import opened ChatTypes

  const SessionsKey := "chatSessions"
  const CurrentSessionKey := "currentSessionId"
  const NewSessionTitle := "Nueva conversación"

  /** The ISO-8601 text `JSON.stringify` writes for a `Date`. */
  datatype DateText = IsoText(epochMs: int)

  /** A message as it appears in the parsed JSON: its timestamp is text. */
  datatype MessageRecord = MessageRecord(
    id: string,
    content: string,
    isUser: bool,
    isLoading: Option<bool>,
    timestamp: DateText,
    kind: Option<MessageKind>,
    audioBase64: Option<string>,
    transcription: Option<string>,
    isAudioTranscription: Option<bool>)

  /** A session as it appears in the parsed JSON: its dates are text. */
  datatype SessionRecord = SessionRecord(
    id: string,
    title: string,
    createdAt: DateText,
    updatedAt: DateText,
    messages: seq<MessageRecord>)

  /** What one key of the storage area holds. `SessionsJson` is the text
      `JSON.stringify` produced for a session list; `Text` is any other text,
      such as a current-session id, and does not parse as a session list. */
  datatype StoredText = Text(s: string) | SessionsJson(records: seq<SessionRecord>)

  // ---------------------------------------------------------------------------
  // JSON.stringify of the session list (what saveChatSessions writes)

  function DateToJson(t: Timestamp): DateText { IsoText(t) }

  function MessageToJson(m: ChatMessage): MessageRecord
  {
    MessageRecord(m.id, m.content, m.isUser, m.isLoading, DateToJson(m.timestamp),
                  m.kind, m.audioBase64, m.transcription, m.isAudioTranscription)
  }

  function SessionToJson(s: ChatSession): SessionRecord
  {
    SessionRecord(s.id, s.title, DateToJson(s.createdAt), DateToJson(s.updatedAt),
                  seq(|s.messages|, i requires 0 <= i < |s.messages| => MessageToJson(s.messages[i])))
  }

  function SessionsToJson(sessions: seq<ChatSession>): seq<SessionRecord>
  {
    seq(|sessions|, i requires 0 <= i < |sessions| => SessionToJson(sessions[i]))
  }

  // ---------------------------------------------------------------------------
  // The date-rebuilding map of getChatSessions

  /** `new Date(text)` for the text of a date. */
  function DateFromJson(d: DateText): Timestamp { d.epochMs }

  /** `{ ...message, timestamp: new Date(message.timestamp) }` */
  function RestoreMessage(r: MessageRecord): (m: ChatMessage)
    ensures m.timestamp == DateFromJson(r.timestamp)
    ensures MessageToJson(m) == r
  {
    ChatMessage(r.id, r.content, r.isUser, r.isLoading, DateFromJson(r.timestamp),
                r.kind, r.audioBase64, r.transcription, r.isAudioTranscription)
  }

  /** `{ ...session, createdAt: new Date(..), updatedAt: new Date(..), messages: session.messages.map(..) }` */
  function RestoreSession(r: SessionRecord): (s: ChatSession)
    ensures s.createdAt == DateFromJson(r.createdAt) && s.updatedAt == DateFromJson(r.updatedAt)
    ensures |s.messages| == |r.messages|
    ensures forall i :: 0 <= i < |r.messages| ==> s.messages[i].timestamp == DateFromJson(r.messages[i].timestamp)
    ensures SessionToJson(s) == r
  {
    var s := ChatSession(r.id, r.title, DateFromJson(r.createdAt), DateFromJson(r.updatedAt),
                         seq(|r.messages|, i requires 0 <= i < |r.messages| => RestoreMessage(r.messages[i])));
    assert SessionToJson(s).messages == r.messages;
    s
  }

  function RestoreSessions(records: seq<SessionRecord>): (sessions: seq<ChatSession>)
    ensures |sessions| == |records|
    ensures forall i :: 0 <= i < |records| ==> SessionToJson(sessions[i]) == records[i]
  {
    seq(|records|, i requires 0 <= i < |records| => RestoreSession(records[i]))
  }

  /** What getChatSessions makes of the stored text under the sessions key,
      when the storage area can be read: an absent or empty text, a text that
      does not parse, or a parsed value that is not a session list (the `map`
      calls throw) all give the empty list. */
  function LoadSessions(stored: Option<StoredText>): seq<ChatSession>
  {
    match stored
    case None => []
    case Some(Text(s)) => []
    case Some(SessionsJson(records)) => RestoreSessions(records)
  }

  /** Every text but a serialised session list loads as the empty list. */
  lemma LoadFailsSoft(stored: Option<StoredText>)
    requires !(stored.Some? && stored.value.SessionsJson?)
    ensures LoadSessions(stored) == []
  {
  }

  /** Loading what save wrote gives back the same sessions, in the same order,
      with the same messages and the same dates. */
  lemma {:induction false} LoadSaved(sessions: seq<ChatSession>)
    ensures LoadSessions(Some(SessionsJson(SessionsToJson(sessions)))) == sessions
  {
    var back := RestoreSessions(SessionsToJson(sessions));
    forall i | 0 <= i < |sessions| ensures back[i] == sessions[i] {
      SessionToJsonInjective(back[i], sessions[i]);
    }
  }

  lemma SessionToJsonInjective(a: ChatSession, b: ChatSession)
    requires SessionToJson(a) == SessionToJson(b)
    ensures a == b
  {
    assert |a.messages| == |SessionToJson(a).messages|;
    forall i | 0 <= i < |a.messages| ensures a.messages[i] == b.messages[i] {
      assert MessageToJson(a.messages[i]) == SessionToJson(a).messages[i];
    }
  }

  /** createNewSession with its random id and `new Date()` passed in. */
  function CreateNewSession(id: string, now: Timestamp): (s: ChatSession)
    ensures s.id == id && s.title == NewSessionTitle
    ensures s.createdAt == s.updatedAt == now
    ensures s.messages == []
  {
    ChatSession(id, NewSessionTitle, now, now, [])
  }

  /** The browser's storage area, seen through the five store functions.
      `hasWindow` is false when the code runs without a browser. Failures of
      `localStorage` itself (access denied, quota exceeded) are inputs of each
      call: `readFails`, `writeFails`. */
  class BrowserStorage {
    const hasWindow: bool
    var items: map<string, StoredText>

    /** Only saveChatSessions writes a serialised session list, and only under
        its own key. */
    ghost predicate Valid()
      reads this
    {
      forall k :: k in items && items[k].SessionsJson? ==> k == SessionsKey
    }

    /** The storage area as the page finds it, possibly holding the list a
        previous visit saved. */
    constructor (hasWindow: bool, items: map<string, StoredText>)
      requires forall k :: k in items && items[k].SessionsJson? ==> k == SessionsKey
      ensures this.hasWindow == hasWindow && this.items == items
      ensures Valid()
    {
      this.hasWindow := hasWindow;
      this.items := items;
    }

    /** getChatSessions: never throws; returns the empty list without a
        window, when reading fails, or when nothing usable is stored. */
    function GetChatSessions(readFails: bool): (r: seq<ChatSession>)
      reads this
      ensures !hasWindow || readFails || SessionsKey !in items ==> r == []
      ensures hasWindow && !readFails && SessionsKey in items && items[SessionsKey].SessionsJson? ==>
                SessionsToJson(r) == items[SessionsKey].records
      ensures hasWindow && !readFails && SessionsKey in items && items[SessionsKey].Text? ==> r == []
    {
      if !hasWindow || readFails then []
      else
        var r := LoadSessions(if SessionsKey in items then Some(items[SessionsKey]) else None);
        if SessionsKey in items && items[SessionsKey].SessionsJson? then
          assert SessionsToJson(r) == items[SessionsKey].records;
          r
        else r
    }

    /** saveChatSessions: writes the whole list under its key; a failed write
        is swallowed and leaves the storage area as it was. */
    method SaveChatSessions(sessions: seq<ChatSession>, writeFails: bool)
      requires Valid()
      modifies this
      ensures Valid()
      ensures items == if !hasWindow || writeFails then old(items)
                       else old(items)[SessionsKey := SessionsJson(SessionsToJson(sessions))]
      ensures hasWindow && !writeFails ==> GetChatSessions(false) == sessions
    {
      if hasWindow && !writeFails {
        items := items[SessionsKey := SessionsJson(SessionsToJson(sessions))];
        LoadSaved(sessions);
      }
    }

    /** getCurrentSessionId: the stored id, or `null` without a window, when
        reading fails, or when none is stored. */
    function GetCurrentSessionId(readFails: bool): (r: Option<string>)
      reads this
      ensures Valid() ==> (r.Some? <==> hasWindow && !readFails && CurrentSessionKey in items)
      ensures r.Some? ==> CurrentSessionKey in items && items[CurrentSessionKey] == Text(r.value)
    {
      if !hasWindow || readFails || CurrentSessionKey !in items || !items[CurrentSessionKey].Text? then None
      else Some(items[CurrentSessionKey].s)
    }

    /** setCurrentSessionId: writes the id under its own key, so the stored
        sessions are untouched; a failed write is swallowed. */
    method SetCurrentSessionId(id: string, writeFails: bool)
      requires Valid()
      modifies this
      ensures Valid()
      ensures items == if !hasWindow || writeFails then old(items)
                       else old(items)[CurrentSessionKey := Text(id)]
      ensures hasWindow && !writeFails ==> GetCurrentSessionId(false) == Some(id)
      ensures forall rf :: GetChatSessions(rf) == old(GetChatSessions(rf))
    {
      if hasWindow && !writeFails {
        items := items[CurrentSessionKey := Text(id)];
      }
    }
  }
}
