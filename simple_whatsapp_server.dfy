/** simple-whatsapp-server.js: a simulated WhatsApp server. A read returns a
    prefix of a fixed list of ten messages and appends it to the group's stored
    list; a send appends one message from "You". The per-group store is the only
    state, and reads never consult it. */
module SimpleWhatsAppServer {
  import opened Wrappers

  /** `limit = 10` in the read handler's parameter list. */
  const DefaultLimit: int := 10
  /** The sender of every sent message. */
  const SelfSender: string := "You"

  /** A stored message; only sent messages carry their group's name. */
  datatype StoredMessage = StoredMessage(sender: string, message: string, timestamp: string, groupName: Option<string>)

  /** A simulated message. */
  function Sim(sender: string, message: string, timestamp: string): StoredMessage {
    StoredMessage(sender, message, timestamp, None)
  }

  /** The fixed messages every read draws from, in array order (not timestamp order).
      Carol's message ends in the party-popper emoji U+1F389, whose UTF-8 bytes
      the source file holds mis-decoded as single-byte characters. */
  const Simulated: seq<StoredMessage> := [
    Sim("Alice", "Hey everyone! How is your day going?", "2025-07-20 14:30"),
    Sim("Bob", "Pretty good, just finished a big presentation", "2025-07-20 14:25"),
    Sim("Carol", "Congratulations Bob! \U{1F389}", "2025-07-20 14:26"),
    Sim("David", "Anyone free for lunch tomorrow?", "2025-07-20 13:45"),
    Sim("Eve", "I can join! What time?", "2025-07-20 13:50"),
    Sim("Frank", "Count me in too", "2025-07-20 13:52"),
    Sim("Grace", "How about 12:30 at the usual place?", "2025-07-20 13:55"),
    Sim("Henry", "Perfect! See you all there", "2025-07-20 14:00"),
    Sim("Ivy", "Just shared some photos from yesterday", "2025-07-20 14:10"),
    Sim("Jack", "Thanks for sharing! Great memories", "2025-07-20 14:15")
  ]

  /** The end index `Array.prototype.slice(0, end)` uses on a list of `len` items:
      a negative end counts from the back, and the result is clamped to the list. */
  function SliceEnd(len: nat, end: int): (r: nat)
    ensures r <= len
    ensures 0 <= end ==> r == if end < len then end else len
    ensures end < 0 ==> r == if len + end > 0 then len + end else 0
  {
    if end < 0 then (if len + end > 0 then len + end else 0)
    else if end < len then end else len
  }

  /** `simulatedMessages.slice(0, limit)`. */
  function Recent(limit: int): (r: seq<StoredMessage>)
    ensures r <= Simulated
    ensures 0 <= limit ==> |r| == if limit < |Simulated| then limit else |Simulated|
  {
    Simulated[..SliceEnd(|Simulated|, limit)]
  }

  /** A group's stored list, empty when the group has none yet. */
  function StoredFor(groups: map<string, seq<StoredMessage>>, g: string): seq<StoredMessage> {
    if g in groups then groups[g] else []
  }

  /** The store after appending `batch` to group `g` (creating its list if absent). */
  function Appended(groups: map<string, seq<StoredMessage>>, g: string, batch: seq<StoredMessage>)
    : (r: map<string, seq<StoredMessage>>)
    ensures r.Keys == groups.Keys + {g}
    ensures r[g] == StoredFor(groups, g) + batch
    ensures forall h :: h in groups && h != g ==> r[h] == groups[h]
  {
    groups[g := StoredFor(groups, g) + batch]
  }

  /** Appending twice is appending both batches, in order: reads never de-duplicate. */
  lemma AppendedTwice(groups: map<string, seq<StoredMessage>>, g: string, a: seq<StoredMessage>, b: seq<StoredMessage>)
    ensures Appended(Appended(groups, g, a), g, b) == Appended(groups, g, a + b)
  {
    assert StoredFor(Appended(groups, g, a), g) == StoredFor(groups, g) + a;
    assert StoredFor(groups, g) + a + b == StoredFor(groups, g) + (a + b);
  }

  /** A message sent to one group never shows up in any read: no simulated
      message comes from "You". */
  lemma SentNeverRead(limit: int)
    ensures forall m :: m in Recent(limit) ==> m.sender != SelfSender
  {
    forall m | m in Recent(limit)
      ensures m.sender != SelfSender
    {
      var i :| 0 <= i < |Recent(limit)| && Recent(limit)[i] == m;
      assert m == Simulated[i];
    }
  }

  /** What a tool reports, without its text formatting. */
  datatype Reply =
    | Read(group: string, messages: seq<StoredMessage>)
    | Sent(group: string, message: string, timestamp: string)

  /** The tools of this server. */
  datatype Tool = ReadTool | SendTool

  /** The (schema-validated) arguments of a tool call. */
  datatype Args = Args(groupName: string, limit: Option<int>, message: string)

  /** The name a tool is registered under. */
  function ToolName(t: Tool): string {
    match t
    case ReadTool => "read_group_messages"
    case SendTool => "send_group_message"
  }

  /** The `switch` on the requested tool name. */
  function Route(name: string): (r: Result<Tool, string>)
    ensures r.Success? ==> ToolName(r.value) == name
    ensures r.Failure? ==> r.error == "Unknown tool: " + name
    ensures r.Failure? <==> forall t: Tool :: ToolName(t) != name
  {
    if name == "read_group_messages" then Success(ReadTool)
    else if name == "send_group_message" then Success(SendTool)
    else Failure("Unknown tool: " + name)
  }

  /** The `GROUP_MESSAGES` map. */
  class GroupStore {
    var groups: map<string, seq<StoredMessage>>

    /** The store starts empty. */
    constructor()
      ensures groups == map[]
    {
      groups := map[];
    }

    /** `readGroupMessages`: the first `limit` simulated messages, appended to the group's list. */
    method ReadGroupMessages(groupName: string, limit: Option<int>) returns (recent: seq<StoredMessage>)
      modifies this
      ensures recent == Recent(limit.GetOr(DefaultLimit))
      ensures groups == Appended(old(groups), groupName, recent)
    {
      recent := Recent(limit.GetOr(DefaultLimit));
      if groupName !in groups {
        groups := groups[groupName := []];
      }
      groups := groups[groupName := groups[groupName] + recent];
    }

    /** `sendGroupMessage`: one message from "You", appended to the group's list. */
    method SendGroupMessage(groupName: string, message: string, timestamp: string) returns (sent: StoredMessage)
      modifies this
      ensures sent == StoredMessage(SelfSender, message, timestamp, Some(groupName))
      ensures groups == Appended(old(groups), groupName, [sent])
    {
      sent := StoredMessage(SelfSender, message, timestamp, Some(groupName));
      if groupName !in groups {
        groups := groups[groupName := []];
      }
      groups := groups[groupName := groups[groupName] + [sent]];
    }

    /** The `CallToolRequestSchema` handler; `timestamp` is the send time as shown. */
    method Call(name: string, args: Args, timestamp: string) returns (r: Result<Reply, string>)
      modifies this
      ensures Route(name).Failure? ==> r == Failure("Unknown tool: " + name) && groups == old(groups)
      ensures Route(name) == Success(ReadTool) ==>
                var recent := Recent(args.limit.GetOr(DefaultLimit));
                r == Success(Read(args.groupName, recent)) && groups == Appended(old(groups), args.groupName, recent)
      ensures Route(name) == Success(SendTool) ==>
                r == Success(Sent(args.groupName, args.message, timestamp))
                && groups == Appended(old(groups), args.groupName,
                                      [StoredMessage(SelfSender, args.message, timestamp, Some(args.groupName))])
    {
      match Route(name)
      case Failure(e) =>
        r := Failure(e);
      case Success(ReadTool) =>
        var recent := ReadGroupMessages(args.groupName, args.limit);
        r := Success(Read(args.groupName, recent));
      case Success(SendTool) =>
        var _ := SendGroupMessage(args.groupName, args.message, timestamp);
        r := Success(Sent(args.groupName, args.message, timestamp));
    }
  }

  /** Two reads of a group append the batch twice, and leave every other group alone. */
  method ReadTwice(store: GroupStore, g: string, limit: Option<int>)
    modifies store
    ensures StoredFor(store.groups, g)
              == StoredFor(old(store.groups), g) + Recent(limit.GetOr(DefaultLimit)) + Recent(limit.GetOr(DefaultLimit))
    ensures forall h :: h != g ==> StoredFor(store.groups, h) == StoredFor(old(store.groups), h)
  {
    var first := store.ReadGroupMessages(g, limit);
    var second := store.ReadGroupMessages(g, limit);
    AppendedTwice(old(store.groups), g, first, second);
  }

  /** A send followed by a read: the read returns only simulated messages, and the
      group's list ends with the sent message followed by the read batch. */
  method SendThenRead(store: GroupStore, g: string, message: string, timestamp: string, limit: Option<int>)
    returns (recent: seq<StoredMessage>)
    modifies store
    ensures forall m :: m in recent ==> m.sender != SelfSender
    ensures StoredFor(store.groups, g) == StoredFor(old(store.groups), g)
              + [StoredMessage(SelfSender, message, timestamp, Some(g))] + recent
  {
    var sent := store.SendGroupMessage(g, message, timestamp);
    recent := store.ReadGroupMessages(g, limit);
    SentNeverRead(limit.GetOr(DefaultLimit));
    AppendedTwice(old(store.groups), g, [sent], recent);
  }
}
