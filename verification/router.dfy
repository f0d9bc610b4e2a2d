/** The bot's router (bot/router.py): the access middleware that admits or
    refuses each message and callback, the owner gate on the repository and
    agent commands in group chats, and the test whether a group message
    mentions the bot. */
module Router {
  import opened Schemas
  import opened Text

  datatype ChatType = Private | Group | Supergroup | Channel

  predicate IsGroup(t: ChatType) {
    t == Group || t == Supergroup
  }

  /** What reaches the middleware: a message, with the sender and its chat's
      type, or a callback query, with the sender and the type of the chat of
      the message it is attached to, if any. */
  datatype Event =
    | MessageEvent(userId: int, chat: ChatType)
    | CallbackEvent(userId: int, attachedTo: Option<ChatType>)

  /** The event comes from a group or supergroup chat. A callback without a
      message does not. */
  predicate InGroup(e: Event) {
    match e
    case MessageEvent(_, chat) => IsGroup(chat)
    case CallbackEvent(_, attachedTo) => attachedTo.Some? && IsGroup(attachedTo.value)
  }

  /** The middleware's decision: call the handler with `is_group_chat`, or
      refuse with the owner-only notice, as a reply to a message or as an alert
      answering a callback. */
  datatype Decision = Admit(isGroupChat: bool) | Refuse(asAlert: bool)

  /** `UserAccessMiddleware.__call__` as a decision on the event and the owner's
      user id. */
  function Admission(e: Event, ownerId: int): (r: Decision)
    ensures r.Admit? <==> InGroup(e) || e.userId == ownerId
    ensures r.Admit? ==> r.isGroupChat == InGroup(e)
    ensures r.Refuse? ==> r.asAlert == e.CallbackEvent?
  {
    match e
    case MessageEvent(userId, chat) =>
      if IsGroup(chat) then Admit(true)
      else if userId != ownerId then Refuse(false)
      else Admit(false)
    case CallbackEvent(userId, attachedTo) =>
      if attachedTo.Some? && IsGroup(attachedTo.value) then Admit(true)
      else if userId != ownerId then Refuse(true)
      else Admit(false)
  }

  /** The handler data the middleware writes into; only its `is_group_chat`
      entry is modelled, None while absent. */
  class HandlerData {
    var isGroupChat: Option<bool>

    constructor ()
      ensures isGroupChat == None
    {
      isGroupChat := None;
    }
  }

  /** The middleware itself: an admitted event has `is_group_chat` written into
      the handler data before the handler runs; a refused one leaves the data
      alone and the handler is not called. */
  method AccessMiddleware(e: Event, ownerId: int, data: HandlerData) returns (a: Decision)
    modifies data
    ensures a == Admission(e, ownerId)
    ensures a.Admit? ==> data.isGroupChat == Some(a.isGroupChat)
    ensures a.Refuse? ==> data.isGroupChat == old(data.isGroupChat)
  {
    match e {
      case MessageEvent(userId, chat) =>
        if IsGroup(chat) {
          data.isGroupChat := Some(true);
          return Admit(true);
        }
        if userId != ownerId {
          return Refuse(false);
        }
        data.isGroupChat := Some(false);
        return Admit(false);
      case CallbackEvent(userId, attachedTo) =>
        if attachedTo.Some? {
          if IsGroup(attachedTo.value) {
            data.isGroupChat := Some(true);
            return Admit(true);
          }
          if userId != ownerId {
            return Refuse(true);
          }
          data.isGroupChat := Some(false);
          return Admit(false);
        }
        if userId != ownerId {
          return Refuse(true);
        }
        data.isGroupChat := Some(false);
        return Admit(false);
    }
  }

  /** Outside group chats only the owner gets through; in a group chat everyone
      does. */
  lemma OnlyOwnerOutsideGroups(e: Event, ownerId: int)
    ensures !InGroup(e) ==> (Admission(e, ownerId).Admit? <==> e.userId == ownerId)
    ensures InGroup(e) ==> Admission(e, ownerId) == Admit(true)
  {
  }

  // ---------------------------------------------------------------- commands

  datatype Command = Start | Help | PlanCmd | AskCmd | SolveCmd | Repos | FavRepos | SetRepo | Agents

  /** The commands a non-owner may not use in a group chat. */
  predicate OwnerOnlyInGroups(c: Command) {
    c == Repos || c == FavRepos || c == SetRepo || c == Agents
  }

  /** `data.get('is_group_chat', False)`. */
  function GroupFlag(isGroupChat: Option<bool>): (r: bool)
    ensures r <==> isGroupChat == Some(true)
  {
    if isGroupChat.Some? then isGroupChat.value else false
  }

  /** Whether the command's handler runs once the command handler is reached:
      the four repository and agent commands are refused to a non-owner in a
      group chat, every other command always runs. */
  function CommandRuns(c: Command, isGroupChat: Option<bool>, userId: int, ownerId: int): (r: bool)
    ensures !r <==> OwnerOnlyInGroups(c) && isGroupChat == Some(true) && userId != ownerId
  {
    !(OwnerOnlyInGroups(c) && GroupFlag(isGroupChat) && userId != ownerId)
  }

  /** Together the middleware and the command gate let the repository and agent
      commands run for the owner only, whatever the chat, while every other
      command runs for whoever the middleware admits. */
  lemma {:induction false} OwnerOnlyCommands(userId: int, chat: ChatType, ownerId: int, c: Command)
    requires Admission(MessageEvent(userId, chat), ownerId).Admit?
    ensures var flag := Some(Admission(MessageEvent(userId, chat), ownerId).isGroupChat);
      OwnerOnlyInGroups(c) ==> (CommandRuns(c, flag, userId, ownerId) <==> userId == ownerId)
    ensures var flag := Some(Admission(MessageEvent(userId, chat), ownerId).isGroupChat);
      !OwnerOnlyInGroups(c) ==> CommandRuns(c, flag, userId, ownerId)
  {
    var a := Admission(MessageEvent(userId, chat), ownerId);
    if !IsGroup(chat) {
      assert a.isGroupChat == false && userId == ownerId;
    } else {
      assert a.isGroupChat == true;
    }
  }

  // ---------------------------------------------------------------- mentions

  /** A message entity: its `type` and the position of the text it covers. */
  datatype Entity = Entity(kind: string, offset: nat, length: nat)

  /** Python's `s[i:j]` for non-negative bounds: clamped to the string, so it
      is empty when the start lies at or past the end or the end does not lie
      after the start, and otherwise the text from `i` up to `j` or to the end
      of the string, whichever comes first. */
  function Slice(s: string, i: nat, j: nat): (r: string)
    ensures |r| <= |s|
    ensures |r| == if i >= |s| || j <= i then 0 else (if j <= |s| then j else |s|) - i
    ensures r != "" ==> OccursAt(s, r, i)
  {
    if i >= |s| || j <= i then "" else if j <= |s| then s[i..j] else s[i..]
  }

  /** The text an entity-based mention must equal: "@" followed by the bot's
      username, where a missing username is formatted as "None". */
  function MentionToken(username: Option<string>): (r: string)
    ensures |r| > 0 && r[0] == '@'
    ensures username.Some? ==> r[1..] == username.value
    ensures username.None? ==> r == "@None"
  {
    "@" + (if username.Some? then username.value else "None")
  }

  /** The entity is a "mention" entity covering exactly `token`. */
  predicate MentionsBy(text: string, e: Entity, token: string) {
    e.kind == "mention" && Slice(text, e.offset, e.offset + e.length) == token
  }

  /** The bot counts as mentioned iff some mention entity covers exactly its
      token, or the bot has a non-empty username and the lower-cased text
      contains "@" and the lower-cased username. */
  predicate Mentioned(text: string, entities: seq<Entity>, username: Option<string>) {
    (exists i :: 0 <= i < |entities| && MentionsBy(text, entities[i], MentionToken(username)))
    || (Truthy(username) && Contains(Lower(text), "@" + Lower(username.value)))
  }

  /** The mention test of `handle_group_mention_message`: a scan of the
      entities that stops at the first match, then the case-insensitive
      substring test. A message without entities has an empty list here. */
  method IsBotMentioned(text: string, entities: seq<Entity>, username: Option<string>) returns (mentioned: bool)
    ensures mentioned <==> Mentioned(text, entities, username)
  {
    mentioned := false;
    var token := MentionToken(username);
    for i := 0 to |entities|
      invariant !mentioned
      invariant forall j :: 0 <= j < i ==> !MentionsBy(text, entities[j], token)
    {
      if entities[i].kind == "mention" {
        var mentionText := Slice(text, entities[i].offset, entities[i].offset + entities[i].length);
        if mentionText == token {
          mentioned := true;
          break;
        }
      }
    }
    if !mentioned && username.Some? && username.value != "" {
      var textLower := Lower(text);
      if Contains(textLower, "@" + Lower(username.value)) {
        mentioned := true;
      }
    }
  }

  /** `handle_group_mention_message`: a text starting with "/" is left alone;
      any other text is answered exactly when it mentions the bot. */
  method HandleGroupText(text: string, entities: seq<Entity>, username: Option<string>) returns (answered: bool)
    ensures answered <==> !StartsWith(text, "/") && Mentioned(text, entities, username)
  {
    if text != "" && StartsWith(text, "/") {
      return false;
    }
    answered := IsBotMentioned(text, entities, username);
  }

  /** Lower-casing keeps the "@" in front. */
  lemma LowerToken(u: string)
    ensures Lower("@" + u) == "@" + Lower(u)
  {
    assert forall i :: 0 <= i < |u| ==> ("@" + u)[i + 1] == u[i];
  }

  /** Writing "@username" anywhere in the text, in any ASCII case, mentions a
      bot that has a username. */
  lemma {:induction false} WrittenMentionCounts(text: string, entities: seq<Entity>, u: string)
    requires u != ""
    requires Contains(text, "@" + u)
    ensures Mentioned(text, entities, Some(u))
  {
    ContainsLower(text, "@" + u);
    LowerToken(u);
  }

  /** A mention entity covering a non-empty token puts the token in the text. */
  lemma EntityTokenInText(text: string, e: Entity, token: string)
    requires token != "" && MentionsBy(text, e, token)
    ensures Contains(text, token)
  {
    assert OccursAt(text, token, e.offset);
  }

  /** For a bot with a username, the entity scan adds nothing: a mention entity
      that covers "@username" already puts it in the text, so the bot is
      mentioned iff the lower-cased text contains the lower-cased token. */
  lemma {:induction false} EntityScanSubsumed(text: string, entities: seq<Entity>, u: string)
    requires u != ""
    ensures Mentioned(text, entities, Some(u)) <==> Contains(Lower(text), "@" + Lower(u))
  {
    var token := MentionToken(Some(u));
    assert token == "@" + u;
    if i :| 0 <= i < |entities| && MentionsBy(text, entities[i], token) {
      EntityTokenInText(text, entities[i], token);
      ContainsLower(text, token);
      LowerToken(u);
    }
  }
}
