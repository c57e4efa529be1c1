/** real-whatsapp-server.js: the tools `list_groups`, `read_group_messages` and
    `send_group_message` over a live WhatsApp session. A module-level readiness
    flag, written by the client's `ready` and `disconnected` events, gates every
    tool; a group is resolved by case-insensitive containment of the query in the
    group's name; fetched messages are reversed and normalised. */
module RealWhatsAppServer {
  import opened Wrappers
  import opened Text
  import opened Channel

  /** `limit = 20` in the handler's parameter list. */
  const DefaultLimit: int := 20
  /** `Math.min(limit, 50)`. */
  const MaxLimit: int := 50
  /** The body shown for a message without text. */
  const MediaPlaceholder: string := "[Media/Attachment]"

  /** A normalised message; `kind` is the record's `type`. */
  datatype Message = Message(timestamp: int, sender: string, body: string, kind: string)

  /** One line of the group listing: its 1-based number, the name and the member count. */
  datatype Entry = Entry(number: nat, name: string, members: nat)

  /** What a tool reports, without its text formatting. */
  datatype Reply =
    | NotConnected
    | Failed(reason: string)
    | NoGroups
    | GroupList(entries: seq<Entry>, count: nat)
    | GroupNotFound(query: string, available: seq<string>)
    | SendTargetNotFound(query: string)
    | NoRecentMessages(group: string)
    | Messages(group: string, messages: seq<Message>)
    | Sent(group: string, text: string)

  /** A tool's reply together with the calls it made on the client, in order. */
  datatype Response = Response(reply: Reply, calls: seq<ClientCall>)

  /** The tools of this server. */
  datatype Tool = Read | Send | List

  /** The name a tool is registered under. */
  function ToolName(t: Tool): string {
    match t
    case Read => "read_group_messages"
    case Send => "send_group_message"
    case List => "list_groups"
  }

  /** The `switch` on the requested tool name. */
  function Route(name: string): (r: Result<Tool, string>)
    ensures r.Success? ==> ToolName(r.value) == name
    ensures r.Failure? ==> r.error == "Unknown tool: " + name
    ensures r.Failure? <==> forall t: Tool :: ToolName(t) != name
  {
    if name == "read_group_messages" then Success(Read)
    else if name == "send_group_message" then Success(Send)
    else if name == "list_groups" then Success(List)
    else Failure("Unknown tool: " + name)
  }

  /** The find predicate: a group chat whose lower-cased name contains the lower-cased query. */
  predicate Matches(query: string, c: Chat) {
    c.isGroup && Contains(Lower(c.name), Lower(query))
  }

  /** The group a query resolves to: the first matching chat in list order. */
  function Resolve(chats: seq<Chat>, query: string): (r: Option<nat>)
    ensures r.Some? ==> r.value < |chats| && chats[r.value].isGroup && Matches(query, chats[r.value])
    ensures r.Some? ==> forall j :: 0 <= j < r.value ==> !Matches(query, chats[j])
    ensures r.None? <==> forall j :: 0 <= j < |chats| ==> !Matches(query, chats[j])
  {
    FindFirst(chats, c => Matches(query, c))
  }

  /** The number of messages asked of the client: the limit, defaulting to 20, at most 50. */
  function RequestedLimit(limit: Option<int>): (n: int)
    ensures n <= MaxLimit
    ensures limit.None? ==> n == DefaultLimit
    ensures limit.Some? && limit.value <= MaxLimit ==> n == limit.value
    ensures limit.Some? && limit.value > MaxLimit ==> n == MaxLimit
  {
    var l := limit.GetOr(DefaultLimit);
    if l < MaxLimit then l else MaxLimit
  }

  /** The sender of a record: "System" without an author; otherwise the contact's
      name, else its push name, else the author with its first "@c.us" removed. */
  function Sender(m: RawMessage): (r: string)
    ensures !Truthy(m.author) ==> r == "System"
    ensures Truthy(m.author) && m.contact.Some? && Truthy(m.contact.value.name) ==>
              r == m.contact.value.name.value
    ensures Truthy(m.author) && m.contact.Some? && !Truthy(m.contact.value.name) && Truthy(m.contact.value.pushname) ==>
              r == m.contact.value.pushname.value
    ensures Truthy(m.author) && (m.contact.None? || (!Truthy(m.contact.value.name) && !Truthy(m.contact.value.pushname))) ==>
              r == ReplaceFirst(m.author.value, UserSuffix, "")
  {
    if !Truthy(m.author) then "System"
    else
      var contact := m.contact.GetOr(Contact(None, None));
      OrElse(contact.name, OrElse(contact.pushname, ReplaceFirst(m.author.value, UserSuffix, "")))
  }

  /** The body of a record: never empty, its own text when it has one. */
  function Body(m: RawMessage): (r: string)
    ensures r != ""
    ensures Truthy(m.body) ==> r == m.body.value
    ensures !Truthy(m.body) ==> r == MediaPlaceholder
  {
    OrElse(m.body, MediaPlaceholder)
  }

  /** The normalised form of one record: the timestamp and type it had, the
      sender and body rules above. */
  function Normalize(m: RawMessage): (r: Message)
    ensures r.timestamp == m.timestamp && r.kind == m.kind
    ensures r.sender == Sender(m) && r.body == Body(m)
    ensures r.body != ""
  {
    Message(m.timestamp, Sender(m), Body(m), m.kind)
  }

  /** The messages a read shows for a fetched batch: in reverse order, normalised. */
  function Display(batch: seq<RawMessage>): seq<Message> {
    ReverseMap(batch, Normalize)
  }

  /** The flag after one event: `ready` sets it, `disconnected` clears it, and
      `qr`, `authenticated` and `auth_failure` leave it alone. */
  function NextReady(ready: bool, e: Event): (r: bool)
    ensures e.Ready? ==> r
    ensures e.Disconnected? ==> !r
    ensures !e.Ready? && !e.Disconnected? ==> r == ready
  {
    match e
    case Ready => true
    case Disconnected(_) => false
    case _ => ready
  }

  /** Event `i` is a `ready` that no later `disconnected` undid. */
  predicate ReadySince(events: seq<Event>, i: int) {
    0 <= i < |events| && events[i].Ready?
    && forall j :: i < j < |events| ==> !events[j].Disconnected?
  }

  /** From process start (flag false), the flag is set exactly when some `ready`
      event has not been followed by a `disconnected` one. */
  lemma {:induction false} ReplayFromStart(events: seq<Event>)
    ensures Replay(NextReady, false, events) <==> exists i :: ReadySince(events, i)
    decreases |events|
  {
    if events != [] {
      var n := |events| - 1;
      var init := events[..n];
      ReplayFromStart(init);
      match events[n]
      case Ready =>
        assert ReadySince(events, n);
      case Disconnected(_) =>
        forall i | 0 <= i < |events|
          ensures !ReadySince(events, i)
        {
          if i < n {
            assert events[n].Disconnected?;
          }
        }
      case _ =>
        if exists i :: ReadySince(init, i) {
          var i :| ReadySince(init, i);
          assert ReadySince(events, i);
        }
        if exists i :: ReadySince(events, i) {
          var i :| ReadySince(events, i);
          assert i < n;
          assert ReadySince(init, i);
        }
    }
  }

  /** Queries that lower-case to the same string resolve to the same group. */
  lemma ResolveIgnoresQueryCase(chats: seq<Chat>, query: string)
    ensures Resolve(chats, Lower(query)) == Resolve(chats, query)
  {
    LowerIdempotent(query);
    FindFirstAgree(chats, c => Matches(Lower(query), c), c => Matches(query, c));
  }

  /** Containment is checked one way only: a query longer than a group's name
      never selects it, even when the name occurs inside the query. */
  lemma QueryLongerThanNameNeverMatches(query: string, c: Chat)
    requires |query| > |c.name|
    ensures !Matches(query, c)
  {
    if Matches(query, c) {
      ContainsLength(Lower(c.name), Lower(query));
    }
  }

  /** A phone-number author with no contact information is shown as the bare number. */
  lemma SenderFromPhoneNumber(m: RawMessage, phone: string)
    requires m.author == Some(phone + UserSuffix)
    requires '@' !in phone
    requires m.contact.None?
    ensures Sender(m) == phone
  {
    assert Truthy(m.author) by {
      assert |phone + UserSuffix| > 0;
    }
    StripUserSuffix(phone);
  }

  /** A batch that arrives newest first is displayed oldest first. */
  lemma DisplayChronological(batch: seq<RawMessage>)
    requires forall i, j :: 0 <= i < j < |batch| ==> batch[i].timestamp >= batch[j].timestamp
    ensures forall i, j :: 0 <= i < j < |Display(batch)| ==>
              Display(batch)[i].timestamp <= Display(batch)[j].timestamp
  {
    var r := Display(batch);
    forall i, j | 0 <= i < j < |r|
      ensures r[i].timestamp <= r[j].timestamp
    {
      assert r[i] == Normalize(batch[|batch| - 1 - i]);
      assert r[j] == Normalize(batch[|batch| - 1 - j]);
    }
  }

  /** The process-wide session: only the readiness flag is state. */
  class Session {
    var ready: bool

    /** The flag starts false when the process starts. */
    constructor()
      ensures !ready
    {
      ready := false;
    }

    /** The client's event callbacks. */
    method Handle(e: Event)
      modifies this
      ensures ready == NextReady(old(ready), e)
      ensures e.Ready? ==> ready
      ensures e.Disconnected? ==> !ready
      ensures !e.Ready? && !e.Disconnected? ==> ready == old(ready)
    {
      match e
      case Ready =>
        ready := true;
      case Disconnected(_) =>
        ready := false;
      case _ =>
    }

    /** `listGroups`: the group chats, numbered from 1, with their count. */
    function ListGroups(client: Client): (r: Response)
      reads this
      ensures !ready ==> r == Response(NotConnected, [])
      ensures ready ==> r.calls == [GetChats]
      ensures ready && client.chats.Threw? ==> r.reply == Failed(client.chats.reason)
      ensures ready && client.chats.Returned? && Groups(client.chats.value) == [] ==> r.reply == NoGroups
      ensures ready && client.chats.Returned? && Groups(client.chats.value) != [] ==>
                var groups := Groups(client.chats.value);
                && r.reply.GroupList?
                && r.reply.count == |groups|
                && |r.reply.entries| == |groups|
                && forall k :: 0 <= k < |groups| ==>
                     r.reply.entries[k] == Entry(k + 1, groups[k].name, groups[k].members)
    {
      if !ready then Response(NotConnected, [])
      else match client.chats
        case Threw(reason) => Response(Failed(reason), [GetChats])
        case Returned(chats) =>
          var groups := Groups(chats);
          if |groups| == 0 then Response(NoGroups, [GetChats])
          else
            var entries := seq(|groups|, k requires 0 <= k < |groups| =>
                                 Entry(k + 1, groups[k].name, groups[k].members));
            Response(GroupList(entries, |groups|), [GetChats])
    }

    /** `readGroupMessages`: resolve the group, fetch at most 50 messages, and
        show them reversed and normalised. */
    function ReadGroupMessages(client: Client, groupName: string, limit: Option<int>): (r: Response)
      reads this
      ensures !ready ==> r == Response(NotConnected, [])
      ensures ready && client.chats.Threw? ==> r == Response(Failed(client.chats.reason), [GetChats])
      ensures ready && client.chats.Returned? && Resolve(client.chats.value, groupName).None? ==>
                r == Response(GroupNotFound(groupName, GroupNames(client.chats.value)), [GetChats])
      ensures ready && client.chats.Returned? && Resolve(client.chats.value, groupName).Some? ==>
                var chats := client.chats.value;
                var i := Resolve(chats, groupName).value;
                && r.calls == [GetChats, FetchMessages(i, RequestedLimit(limit))]
                && (client.fetched.Threw? ==> r.reply == Failed(client.fetched.reason))
                && (client.fetched == Returned([]) ==> r.reply == NoRecentMessages(chats[i].name))
                && (client.fetched.Returned? && client.fetched.value != [] ==>
                      r.reply == Messages(chats[i].name, Display(client.fetched.value)))
    {
      if !ready then Response(NotConnected, [])
      else match client.chats
        case Threw(reason) => Response(Failed(reason), [GetChats])
        case Returned(chats) =>
          match Resolve(chats, groupName)
          case None => Response(GroupNotFound(groupName, GroupNames(chats)), [GetChats])
          case Some(i) =>
            var calls := [GetChats, FetchMessages(i, RequestedLimit(limit))];
            match client.fetched
            case Threw(reason) => Response(Failed(reason), calls)
            case Returned(batch) =>
              if |batch| == 0 then Response(NoRecentMessages(chats[i].name), calls)
              else Response(Messages(chats[i].name, Display(batch)), calls)
    }

    /** `sendGroupMessage`: resolve the group and send the text to it. */
    function SendGroupMessage(client: Client, groupName: string, message: string): (r: Response)
      reads this
      ensures !ready ==> r == Response(NotConnected, [])
      ensures ready && client.chats.Threw? ==> r == Response(Failed(client.chats.reason), [GetChats])
      ensures ready && client.chats.Returned? && Resolve(client.chats.value, groupName).None? ==>
                r == Response(SendTargetNotFound(groupName), [GetChats])
      ensures ready && client.chats.Returned? && Resolve(client.chats.value, groupName).Some? ==>
                var chats := client.chats.value;
                var i := Resolve(chats, groupName).value;
                && r.calls == [GetChats, SendMessage(i, message)]
                && (client.sent.Threw? ==> r.reply == Failed(client.sent.reason))
                && (client.sent.Returned? ==> r.reply == Sent(chats[i].name, message))
    {
      if !ready then Response(NotConnected, [])
      else match client.chats
        case Threw(reason) => Response(Failed(reason), [GetChats])
        case Returned(chats) =>
          match Resolve(chats, groupName)
          case None => Response(SendTargetNotFound(groupName), [GetChats])
          case Some(i) =>
            var calls := [GetChats, SendMessage(i, message)];
            match client.sent
            case Threw(reason) => Response(Failed(reason), calls)
            case Returned(_) => Response(Sent(chats[i].name, message), calls)
    }

    /** The `CallToolRequestSchema` handler: route by name, or throw "Unknown tool". */
    function Call(name: string, args: Args, client: Client): (r: Result<Response, string>)
      reads this
      ensures Route(name).Failure? ==> r == Failure("Unknown tool: " + name)
      ensures Route(name) == Success(Read) ==> r == Success(ReadGroupMessages(client, args.groupName, args.limit))
      ensures Route(name) == Success(Send) ==> r == Success(SendGroupMessage(client, args.groupName, args.message))
      ensures Route(name) == Success(List) ==> r == Success(ListGroups(client))
    {
      match Route(name)
      case Failure(e) => Failure(e)
      case Success(Read) => Success(ReadGroupMessages(client, args.groupName, args.limit))
      case Success(Send) => Success(SendGroupMessage(client, args.groupName, args.message))
      case Success(List) => Success(ListGroups(client))
    }
  }

  /** No tool touches the client while the session is not ready. */
  lemma NotReadyMakesNoCall(s: Session, name: string, args: Args, client: Client)
    requires !s.ready
    ensures s.Call(name, args, client).Success? ==>
              s.Call(name, args, client).value == Response(NotConnected, [])
  {
  }

  /** When the client returns no more messages than were asked for, at most 50 are shown. */
  lemma ReadShowsAtMostFifty(s: Session, client: Client, groupName: string, limit: Option<int>)
    requires client.fetched.Returned? ==> |client.fetched.value| <= RequestedLimit(limit)
    ensures s.ReadGroupMessages(client, groupName, limit).reply.Messages? ==>
              |s.ReadGroupMessages(client, groupName, limit).reply.messages| <= MaxLimit
  {
  }
}
