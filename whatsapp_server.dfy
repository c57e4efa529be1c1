/** whatsapp-server.js: the earlier WhatsApp variant of the construction server.
    The same readiness gate, but only the `ready` event writes the flag; a group
    is resolved by exact name; the limit is passed to the client unclamped; the
    sender is only the stripped author id and the body passes through unchanged. */
module WhatsAppServer {
  import opened Wrappers
  import opened Text
  import opened Channel

  /** `limit = 10` in the handler's parameter list. */
  const DefaultLimit: int := 10

  /** A message as one output line shows it. */
  datatype Message = Message(timestamp: int, sender: string, body: string)

  /** One line of the group listing: the name and the member count. */
  datatype Entry = Entry(name: string, members: nat)

  /** What a tool reports, without its text formatting. */
  datatype Reply =
    | NotConnected
    | Failed(reason: string)
    | GroupList(entries: seq<Entry>, count: nat)
    | GroupNotFound(query: string)
    | Messages(group: string, messages: seq<Message>, count: nat)
    | Sent(group: string, text: string)
    | NotModelled(tool: string)

  /** A tool's reply together with the calls it made on the client, in order. */
  datatype Response = Response(reply: Reply, calls: seq<ClientCall>)

  /** The tools of this server; the two calculators are not part of this model. */
  datatype Tool = CalculateMaterials | EstimateCost | Read | Send | List

  /** The name a tool is registered under. */
  function ToolName(t: Tool): string {
    match t
    case CalculateMaterials => "calculate_materials"
    case EstimateCost => "estimate_cost"
    case Read => "read_group_messages"
    case Send => "send_group_message"
    case List => "list_groups"
  }

  /** The `switch` on the requested tool name. */
  function Route(name: string): (r: Result<Tool, string>)
    ensures r.Success? ==> ToolName(r.value) == name
    ensures r.Failure? ==> r.error == "Unknown tool: " + name
    ensures r.Failure? <==> forall t: Tool :: ToolName(t) != name
  {
    if name == "calculate_materials" then Success(CalculateMaterials)
    else if name == "estimate_cost" then Success(EstimateCost)
    else if name == "read_group_messages" then Success(Read)
    else if name == "send_group_message" then Success(Send)
    else if name == "list_groups" then Success(List)
    else Failure("Unknown tool: " + name)
  }

  /** The find predicate: a group chat whose name is exactly the query. */
  predicate Matches(query: string, c: Chat) {
    c.isGroup && c.name == query
  }

  /** The group a query resolves to: the first group chat of that exact name. */
  function Resolve(chats: seq<Chat>, query: string): (r: Option<nat>)
    ensures r.Some? ==> r.value < |chats| && chats[r.value].isGroup && chats[r.value].name == query
    ensures r.Some? ==> forall j :: 0 <= j < r.value ==> !Matches(query, chats[j])
    ensures r.None? <==> forall j :: 0 <= j < |chats| ==> !(chats[j].isGroup && chats[j].name == query)
  {
    FindFirst(chats, c => Matches(query, c))
  }

  /** The number of messages asked of the client: the limit as given, defaulting to 10. */
  function RequestedLimit(limit: Option<int>): (n: int)
    ensures limit.None? ==> n == DefaultLimit
    ensures limit.Some? ==> n == limit.value
  {
    limit.GetOr(DefaultLimit)
  }

  /** The sender of a record: the author with its first "@c.us" removed, else "System". */
  function Sender(m: RawMessage): (r: string)
    ensures Truthy(m.author) ==> r == ReplaceFirst(m.author.value, UserSuffix, "")
    ensures !Truthy(m.author) ==> r == "System"
  {
    if Truthy(m.author) then ReplaceFirst(m.author.value, UserSuffix, "") else "System"
  }

  /** The body of a record as a template literal shows it: `undefined` when absent. */
  function Body(m: RawMessage): (r: string)
    ensures m.body.Some? ==> r == m.body.value
  {
    match m.body
    case Some(b) => b
    case None => "undefined"
  }

  /** The line data of one record: its timestamp, the sender rule and the body as shown. */
  function Normalize(m: RawMessage): (r: Message)
    ensures r.timestamp == m.timestamp
    ensures r.sender == Sender(m) && r.body == Body(m)
    ensures m.author.None? ==> r.sender == "System"
    ensures m.body.Some? ==> r.body == m.body.value
  {
    Message(m.timestamp, Sender(m), Body(m))
  }

  /** The lines a read shows for a fetched batch: in reverse order, one per record. */
  function Display(batch: seq<RawMessage>): seq<Message> {
    ReverseMap(batch, Normalize)
  }

  /** The flag after one event: only `ready` writes it. No `disconnected` handler
      is registered, so that event leaves the flag as it was. */
  function NextReady(ready: bool, e: Event): (r: bool)
    ensures r <==> ready || e.Ready?
  {
    if e.Ready? then true else ready
  }

  /** Once set, the flag stays set, whatever events follow. */
  lemma {:induction false} ReadyIsSticky(events: seq<Event>)
    ensures Replay(NextReady, true, events)
    decreases |events|
  {
    if events != [] {
      ReadyIsSticky(events[..|events| - 1]);
    }
  }

  /** From process start, the flag is set exactly when a `ready` event has occurred. */
  lemma {:induction false} ReplayFromStart(events: seq<Event>)
    ensures Replay(NextReady, false, events) <==> exists i :: 0 <= i < |events| && events[i].Ready?
    decreases |events|
  {
    if events != [] {
      var n := |events| - 1;
      var init := events[..n];
      ReplayFromStart(init);
      if exists i :: 0 <= i < |init| && init[i].Ready? {
        var i :| 0 <= i < |init| && init[i].Ready?;
        assert events[i].Ready?;
      }
      if exists i :: 0 <= i < |events| && events[i].Ready? {
        var i :| 0 <= i < |events| && events[i].Ready?;
        if i < n {
          assert init[i].Ready?;
        }
      }
    }
  }

  /** A phone-number author is shown as the bare number. */
  lemma SenderFromPhoneNumber(m: RawMessage, phone: string)
    requires m.author == Some(phone + UserSuffix)
    requires '@' !in phone
    ensures Sender(m) == phone
  {
    assert Truthy(m.author) by {
      assert |phone + UserSuffix| > 0;
    }
    StripUserSuffix(phone);
  }

  /** The process-wide session: only the readiness flag is state. */
  class Session {
    var ready: bool

    /** The flag starts false when the process starts. */
    constructor()
      ensures !ready
    {
      ready := false;
    }

    /** The client's event callbacks: only `ready` has one that writes the flag. */
    method Handle(e: Event)
      modifies this
      ensures ready == NextReady(old(ready), e)
      ensures old(ready) ==> ready
      ensures !e.Ready? ==> ready == old(ready)
    {
      if e.Ready? {
        ready := true;
      }
    }

    /** `listGroups`: every group chat, with the count. */
    function ListGroups(client: Client): (r: Response)
      reads this
      ensures !ready ==> r == Response(NotConnected, [])
      ensures ready ==> r.calls == [GetChats]
      ensures ready && client.chats.Threw? ==> r.reply == Failed(client.chats.reason)
      ensures ready && client.chats.Returned? ==>
                var groups := Groups(client.chats.value);
                && r.reply.GroupList?
                && r.reply.count == |groups|
                && |r.reply.entries| == |groups|
                && forall k :: 0 <= k < |groups| ==>
                     r.reply.entries[k] == Entry(groups[k].name, groups[k].members)
    {
      if !ready then Response(NotConnected, [])
      else match client.chats
        case Threw(reason) => Response(Failed(reason), [GetChats])
        case Returned(chats) =>
          var groups := Groups(chats);
          var entries := seq(|groups|, k requires 0 <= k < |groups| =>
                               Entry(groups[k].name, groups[k].members));
          Response(GroupList(entries, |groups|), [GetChats])
    }

    /** `readGroupMessages`: resolve the group by exact name, fetch `limit`
        messages and show them reversed. */
    function ReadGroupMessages(client: Client, groupName: string, limit: Option<int>): (r: Response)
      reads this
      ensures !ready ==> r == Response(NotConnected, [])
      ensures ready && client.chats.Threw? ==> r == Response(Failed(client.chats.reason), [GetChats])
      ensures ready && client.chats.Returned? && Resolve(client.chats.value, groupName).None? ==>
                r == Response(GroupNotFound(groupName), [GetChats])
      ensures ready && client.chats.Returned? && Resolve(client.chats.value, groupName).Some? ==>
                var i := Resolve(client.chats.value, groupName).value;
                && r.calls == [GetChats, FetchMessages(i, RequestedLimit(limit))]
                && (client.fetched.Threw? ==> r.reply == Failed(client.fetched.reason))
                && (client.fetched.Returned? ==>
                      var batch := client.fetched.value;
                      r.reply == Messages(groupName, Display(batch), |batch|))
    {
      if !ready then Response(NotConnected, [])
      else match client.chats
        case Threw(reason) => Response(Failed(reason), [GetChats])
        case Returned(chats) =>
          match Resolve(chats, groupName)
          case None => Response(GroupNotFound(groupName), [GetChats])
          case Some(i) =>
            var calls := [GetChats, FetchMessages(i, RequestedLimit(limit))];
            match client.fetched
            case Threw(reason) => Response(Failed(reason), calls)
            case Returned(batch) => Response(Messages(groupName, Display(batch), |batch|), calls)
    }

    /** `sendGroupMessage`: resolve the group by exact name and send the text to it. */
    function SendGroupMessage(client: Client, groupName: string, message: string): (r: Response)
      reads this
      ensures !ready ==> r == Response(NotConnected, [])
      ensures ready && client.chats.Threw? ==> r == Response(Failed(client.chats.reason), [GetChats])
      ensures ready && client.chats.Returned? && Resolve(client.chats.value, groupName).None? ==>
                r == Response(GroupNotFound(groupName), [GetChats])
      ensures ready && client.chats.Returned? && Resolve(client.chats.value, groupName).Some? ==>
                var i := Resolve(client.chats.value, groupName).value;
                && r.calls == [GetChats, SendMessage(i, message)]
                && (client.sent.Threw? ==> r.reply == Failed(client.sent.reason))
                && (client.sent.Returned? ==> r.reply == Sent(groupName, message))
    {
      if !ready then Response(NotConnected, [])
      else match client.chats
        case Threw(reason) => Response(Failed(reason), [GetChats])
        case Returned(chats) =>
          match Resolve(chats, groupName)
          case None => Response(GroupNotFound(groupName), [GetChats])
          case Some(i) =>
            var calls := [GetChats, SendMessage(i, message)];
            match client.sent
            case Threw(reason) => Response(Failed(reason), calls)
            case Returned(_) => Response(Sent(groupName, message), calls)
    }

    /** The `CallToolRequestSchema` handler: route by name, or throw "Unknown tool". */
    function Call(name: string, args: Args, client: Client): (r: Result<Response, string>)
      reads this
      ensures Route(name).Failure? ==> r == Failure("Unknown tool: " + name)
      ensures Route(name) == Success(Read) ==> r == Success(ReadGroupMessages(client, args.groupName, args.limit))
      ensures Route(name) == Success(Send) ==> r == Success(SendGroupMessage(client, args.groupName, args.message))
      ensures Route(name) == Success(List) ==> r == Success(ListGroups(client))
      ensures Route(name) == Success(CalculateMaterials) || Route(name) == Success(EstimateCost) ==>
                r == Success(Response(NotModelled(name), []))
    {
      match Route(name)
      case Failure(e) => Failure(e)
      case Success(Read) => Success(ReadGroupMessages(client, args.groupName, args.limit))
      case Success(Send) => Success(SendGroupMessage(client, args.groupName, args.message))
      case Success(List) => Success(ListGroups(client))
      case Success(_) => Success(Response(NotModelled(name), []))
    }
  }

  /** When no group has the exact name, nothing is fetched and nothing is sent. */
  lemma NotFoundMakesNoFurtherCall(s: Session, client: Client, groupName: string, limit: Option<int>, message: string)
    requires client.chats.Returned? && Resolve(client.chats.value, groupName).None?
    ensures s.ReadGroupMessages(client, groupName, limit).calls in {[], [GetChats]}
    ensures s.SendGroupMessage(client, groupName, message).calls in {[], [GetChats]}
  {
  }
}
