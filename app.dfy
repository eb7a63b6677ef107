/**
 * App.js: the chat session. It keeps the transcript and the "assistant is
 * typing" flag, puts in user, directive and reply entries, and builds the
 * completion request; beside it sit the token budget of each response
 * length and the "Show Saved Messages" load step.
 */
module ChatApp {

  import opened Options
  import opened Transcript
  import opened CustomMessage

  const MODEL_NAME := "gpt-4o"
  /** `user._id` of entries typed by the user and of directive entries. */
  const USER_ID := 2
  /** `user._id` of entries that hold a completion reply. */
  const ASSISTANT_ID := 1

  /**
   * `getMaxTokens`: `short` is 500, `long` is 3000, and `medium`, any other
   * label and a null value are 1500.
   */
  function GetMaxTokens(length: Option<string>): (r: nat)
    ensures r == 500 || r == 1500 || r == 3000
    ensures r == 500 <==> length == Some("short")
    ensures r == 3000 <==> length == Some("long")
  {
    if length == Some("short") then 500
    else if length == Some("medium") then 1500
    else if length == Some("long") then 3000
    else 1500
  }

  /** `${mode}` in the directive's template literal: a null picker value prints as `null`. */
  function ModeText(mode: Option<string>): (r: string)
    ensures mode.Some? ==> r == mode.value
    ensures mode.None? ==> r == "null"
  {
    if mode.Some? then mode.value else "null"
  }

  /** The entry `onSend` builds from the first outgoing message's text. */
  function UserEntry(text: string, sentAt: int): (e: Entry)
    ensures e.id == sentAt && e.user == USER_ID
    ensures Strip(e) == Message("user", text)
    ensures RenderMessage(Some(e)) == Some(Row(UserSide, text))
  {
    Entry(sentAt, USER_ID, "user", text)
  }

  /** The entry `setContext` builds: `"Act as " + mode`. */
  function DirectiveEntry(mode: Option<string>, sentAt: int): (e: Entry)
    ensures e.id == sentAt && e.user == USER_ID && e.role == "system"
    ensures mode.Some? ==> e.content == "Act as " + mode.value
    ensures mode.None? ==> e.content == "Act as null"
    ensures RenderMessage(Some(e)).None?
  {
    Entry(sentAt, USER_ID, "system", "Act as " + ModeText(mode))
  }

  /** The entry built from `choices[0].message`. */
  function ReplyEntry(m: Message, repliedAt: int): (e: Entry)
    ensures e.id == repliedAt && e.user == ASSISTANT_ID
    ensures Strip(e) == m
  {
    Entry(repliedAt, ASSISTANT_ID, m.role, m.content)
  }

  /** The body handed to `sendMessage`: model, transcript, token budget. */
  datatype Request = Request(model: string, messages: seq<Entry>, maxTokens: nat)

  /**
   * What the awaited `sendMessage` produces: the response's `choices`, or a
   * rejection (transport error, non-success status).
   */
  datatype Reply = Received(choices: seq<Message>) | Failed

  /** `response.choices[0].message`; with no choice the read throws and is caught. */
  function FirstChoice(reply: Reply): (r: Option<Message>)
    ensures r.Some? <==> reply.Received? && |reply.choices| > 0
    ensures r.Some? ==> r.value == reply.choices[0]
  {
    if reply.Received? && |reply.choices| > 0 then Some(reply.choices[0]) else None
  }

  /** The transcript once the reply has been handled. */
  function AfterReply(s: seq<Entry>, reply: Reply, repliedAt: int): (r: seq<Entry>)
    ensures FirstChoice(reply).None? ==> r == s
    ensures FirstChoice(reply).Some? ==>
              |r| == |s| + 1 && r[1..] == s && Strip(r[0]) == FirstChoice(reply).value && r[0].id == repliedAt
  {
    match FirstChoice(reply)
    case Some(m) => GiftedAppend(s, ReplyEntry(m, repliedAt))
    case None => s
  }

  /**
   * A reply adds one entry carrying `choices[0].message`'s role and content,
   * newest first, in front of an unchanged transcript; a failure adds nothing.
   */
  lemma ReplyOutcome(s: seq<Entry>, reply: Reply, repliedAt: int)
    ensures reply.Received? && |reply.choices| > 0 ==>
              |AfterReply(s, reply, repliedAt)| == |s| + 1 &&
              AfterReply(s, reply, repliedAt)[1..] == s &&
              RemoveKeys(AfterReply(s, reply, repliedAt)) == [reply.choices[0]] + RemoveKeys(s)
    ensures !(reply.Received? && |reply.choices| > 0) ==> AfterReply(s, reply, repliedAt) == s
  {
    if reply.Received? && |reply.choices| > 0 {
      var after := AfterReply(s, reply, repliedAt);
      assert after[1..] == s;
      assert RemoveKeys(after)[0] == reply.choices[0];
    }
  }

  /**
   * One user send, replied to or not: read oldest first, the transcript is
   * the old one, then the user entry, then the reply entry when there is one.
   */
  lemma {:induction false} SendThenReply(s: seq<Entry>, text: string, sentAt: int, reply: Reply, repliedAt: int)
    ensures var after := AfterReply(GiftedAppend(s, UserEntry(text, sentAt)), reply, repliedAt);
            Chronological(after) ==
              Chronological(s) + [UserEntry(text, sentAt)] +
              (if FirstChoice(reply).Some? then [ReplyEntry(FirstChoice(reply).value, repliedAt)] else [])
  {
    var user := UserEntry(text, sentAt);
    AppendAllChronological(s, [user]);
    assert AppendAll(s, [user]) == GiftedAppend(s, user);
    if FirstChoice(reply).Some? {
      var entry := ReplyEntry(FirstChoice(reply).value, repliedAt);
      AppendAllChronological(s, [user, entry]);
      assert [user, entry][1..] == [entry];
      assert AppendAll(s, [user, entry]) == AppendAll(GiftedAppend(s, user), [entry]);
      assert AppendAll(GiftedAppend(s, user), [entry]) == GiftedAppend(GiftedAppend(s, user), entry);
    }
  }

  /**
   * A directive and then a user entry: read oldest first, the transcript ends
   * with the directive and then the user entry; the request, newest first,
   * starts with the user entry's and then the directive's role and content.
   */
  lemma DirectiveThenSend(s: seq<Entry>, directive: Entry, user: Entry)
    ensures var t := GiftedAppend(GiftedAppend(s, directive), user);
            |Chronological(t)| >= 2 && Chronological(t)[|t| - 2..] == [directive, user] &&
            RemoveKeys(t)[..2] == [Strip(user), Strip(directive)]
  {
    var t := GiftedAppend(GiftedAppend(s, directive), user);
    ChronologicalAppend(s, directive);
    ChronologicalAppend(GiftedAppend(s, directive), user);
    assert Chronological(t) == Chronological(s) + [directive] + [user];
  }

  /** The state `App` holds with `useState`. */
  class Session {

    var messages: seq<Entry>
    var isTyping: bool
    var selectedMode: Option<string>
    var selectedLength: Option<string>
    var modalVisible: bool
    var savedMessages: seq<Note>

    /** The initial state; the effect's first run is a `SetContext(selectedMode, …)` call. */
    constructor ()
      ensures messages == [] && !isTyping
      ensures selectedMode == Some("friend") && selectedLength == Some("medium")
      ensures !modalVisible && savedMessages == []
    {
      messages := [];
      isTyping := false;
      selectedMode := Some("friend");
      selectedLength := Some("medium");
      modalVisible := false;
      savedMessages := [];
    }

    /** `sendMessageAPI` up to its `await`: raise the flag and build the request body. */
    method StartRequest(current: seq<Entry>, length: Option<string>) returns (req: Request)
      modifies this`isTyping
      ensures isTyping
      ensures req.model == MODEL_NAME && req.messages == current && req.maxTokens == GetMaxTokens(length)
    {
      isTyping := true;
      req := Request(MODEL_NAME, current, GetMaxTokens(length));
    }

    /**
     * `sendMessageAPI` after its `await`: put in the reply entry when there
     * is a first choice, and lower the flag in every outcome (`finally`).
     */
    method FinishRequest(reply: Reply, repliedAt: int)
      modifies this`messages, this`isTyping
      ensures !isTyping
      ensures messages == AfterReply(old(messages), reply, repliedAt)
    {
      var choice := FirstChoice(reply);
      if choice.Some? {
        var replyFromAI := ReplyEntry(choice.value, repliedAt);
        messages := GiftedAppend(messages, replyFromAI);
      }
      isTyping := false;
    }

    /**
     * `sendMessageAPI(current)`: the request carries `current` itself, ids
     * and `user` fields included, and the budget of `length`.
     */
    method SendMessageAPI(current: seq<Entry>, length: Option<string>, reply: Reply, repliedAt: int)
      returns (req: Request)
      modifies this`messages, this`isTyping
      ensures req == Request(MODEL_NAME, current, GetMaxTokens(length))
      ensures !isTyping
      ensures messages == AfterReply(old(messages), reply, repliedAt)
    {
      req := StartRequest(current, length);
      FinishRequest(reply, repliedAt);
    }

    /**
     * `onSend(newMessages)`: put in one `user` entry with the first message's
     * text and send the updated transcript. With no message the read of
     * `newMessages[0].text` throws and nothing happens.
     */
    method OnSend(newMessages: seq<string>, sentAt: int, length: Option<string>, reply: Reply, repliedAt: int)
      returns (req: Option<Request>)
      modifies this`messages, this`isTyping
      ensures newMessages == [] ==> req.None? && messages == old(messages) && isTyping == old(isTyping)
      ensures newMessages != [] ==>
                var updated := GiftedAppend(old(messages), UserEntry(newMessages[0], sentAt));
                req == Some(Request(MODEL_NAME, updated, GetMaxTokens(length))) &&
                messages == AfterReply(updated, reply, repliedAt) && !isTyping
    {
      if newMessages == [] {
        return None;
      }
      var messageByUser := UserEntry(newMessages[0], sentAt);
      messages := GiftedAppend(messages, messageByUser);
      var sent := SendMessageAPI(messages, length, reply, repliedAt);
      req := Some(sent);
    }

    /**
     * `setContext({mode})`: put in one `system` entry `"Act as " + mode` and
     * send the updated transcript with the current length's budget.
     */
    method SetContext(mode: Option<string>, sentAt: int, reply: Reply, repliedAt: int) returns (req: Request)
      modifies this`messages, this`isTyping
      ensures var updated := GiftedAppend(old(messages), DirectiveEntry(mode, sentAt));
              req == Request(MODEL_NAME, updated, GetMaxTokens(selectedLength)) &&
              messages == AfterReply(updated, reply, repliedAt) && !isTyping
    {
      var messageBySystem := DirectiveEntry(mode, sentAt);
      messages := GiftedAppend(messages, messageBySystem);
      req := SendMessageAPI(messages, selectedLength, reply, repliedAt);
    }

    /**
     * The mode picker's `onValueChange`, then the effect on
     * `[selectedMode, selectedLength]`: it runs only when the value changed,
     * and then directs the assistant with the new mode.
     */
    method SelectMode(value: Option<string>, sentAt: int, reply: Reply, repliedAt: int) returns (req: Option<Request>)
      modifies this`selectedMode, this`messages, this`isTyping
      ensures selectedMode == value
      ensures value == old(selectedMode) ==> req.None? && messages == old(messages) && isTyping == old(isTyping)
      ensures value != old(selectedMode) ==>
                var updated := GiftedAppend(old(messages), DirectiveEntry(value, sentAt));
                req == Some(Request(MODEL_NAME, updated, GetMaxTokens(selectedLength))) &&
                messages == AfterReply(updated, reply, repliedAt) && !isTyping
    {
      var changed := value != selectedMode;
      selectedMode := value;
      if changed {
        var sent := SetContext(selectedMode, sentAt, reply, repliedAt);
        req := Some(sent);
      } else {
        req := None;
      }
    }

    /**
     * The length picker's `onValueChange`, then the same effect: when the
     * value changed, a directive with the unchanged current mode is sent
     * with the new length's budget.
     */
    method SelectLength(value: Option<string>, sentAt: int, reply: Reply, repliedAt: int) returns (req: Option<Request>)
      modifies this`selectedLength, this`messages, this`isTyping
      ensures selectedLength == value
      ensures value == old(selectedLength) ==> req.None? && messages == old(messages) && isTyping == old(isTyping)
      ensures value != old(selectedLength) ==>
                var updated := GiftedAppend(old(messages), DirectiveEntry(selectedMode, sentAt));
                req == Some(Request(MODEL_NAME, updated, GetMaxTokens(value))) &&
                messages == AfterReply(updated, reply, repliedAt) && !isTyping
    {
      var changed := value != selectedLength;
      selectedLength := value;
      if changed {
        var sent := SetContext(selectedMode, sentAt, reply, repliedAt);
        req := Some(sent);
      } else {
        req := None;
      }
    }

    /**
     * `logSavedMessages`: load the stored list (empty when nothing is
     * stored) and open the modal; a failed read or parse changes nothing.
     */
    method LogSavedMessages(store: NoteStorage, readFails: bool) returns (ok: bool)
      modifies this`savedMessages, this`modalVisible
      ensures ok <==> !readFails && ReadList(store.slot).Some?
      ensures ok ==> savedMessages == ReadList(store.slot).value && modalVisible
      ensures !ok ==> savedMessages == old(savedMessages) && modalVisible == old(modalVisible)
    {
      if readFails {
        return false;
      }
      var loaded := ReadList(store.slot);
      if loaded.None? {
        return false;
      }
      savedMessages := loaded.value;
      modalVisible := true;
      ok := true;
    }

    /** The modal's backdrop press and its "Close" button. */
    method CloseModal()
      modifies this`modalVisible
      ensures !modalVisible
    {
      modalVisible := false;
    }
  }

  /**
   * A session that mounts, switches the mode to `guide`, switches the length
   * to `short`, and sends "Hello", with no reply arriving. Read oldest first,
   * the transcript ends with the directive "Act as guide" and then the user
   * entry "Hello", and the send carries both entries. The send is given the
   * current length here, so it asks for 500 tokens; in the app the memoised
   * `onSend` keeps the first render's `medium` and asks for 1500.
   */
  method GuideScenario() returns (req: Option<Request>, shown: seq<Entry>)
    ensures req.Some? && req.value.maxTokens == 500 && |req.value.messages| >= 2
    ensures RemoveKeys(req.value.messages)[..2] == [Message("user", "Hello"), Message("system", "Act as " + "guide")]
    ensures |shown| >= 2 && shown[|shown| - 2..] == [DirectiveEntry(Some("guide"), 2), UserEntry("Hello", 4)]
  {
    var session := new Session();
    var _ := session.SetContext(session.selectedMode, 0, Failed, 1);
    var _ := session.SelectMode(Some("guide"), 2, Failed, 3);
    var before := session.messages;
    var guide := DirectiveEntry(Some("guide"), 2);
    var _ := session.SelectLength(Some("short"), 2, Failed, 3);
    assert session.messages == GiftedAppend(before, guide);
    var user := UserEntry("Hello", 4);
    req := session.OnSend(["Hello"], 4, session.selectedLength, Failed, 5);
    assert req.value.messages == session.messages == GiftedAppend(GiftedAppend(before, guide), user);
    DirectiveThenSend(before, guide, user);
    shown := Chronological(session.messages);
  }
}
