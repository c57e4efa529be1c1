/** What the two WhatsApp servers see of the whatsapp-web.js client: the chats it
    lists, the raw message records it fetches, the lifecycle events it emits, and
    a trace of the calls a handler makes on it. The client itself is not modelled:
    its answers are inputs to the handlers. */
module Channel {
  import opened Wrappers
  import opened Text

  /** The suffix of a user id that both sender rules strip. */
  const UserSuffix: string := "@c.us"

  /** A user id `<phone>@c.us` with no `@` in the phone part strips to the phone part. */
  lemma StripUserSuffix(phone: string)
    requires '@' !in phone
    ensures ReplaceFirst(phone + UserSuffix, UserSuffix, "") == phone
  {
    FirstCharAbsent(phone, UserSuffix, "");
    assert phone + UserSuffix + "" == phone + UserSuffix;
    ReplaceFirstSuffix(phone, UserSuffix);
  }

  /** A chat as `getChats()` lists it; `members` is `participants.length`. */
  datatype Chat = Chat(name: string, isGroup: bool, members: nat)

  /** What `getContact()` would give for a message's author. */
  datatype Contact = Contact(name: Option<string>, pushname: Option<string>)

  /** A message record as `fetchMessages` returns it; `timestamp` is in seconds. */
  datatype RawMessage = RawMessage(
    timestamp: int,
    author: Option<string>,
    body: Option<string>,
    kind: string,
    contact: Option<Contact>)

  /** The settled value of one awaited client call: a value, or the error it threw. */
  datatype Answer<+T> = Returned(value: T) | Threw(reason: string)

  /** The client's answers to the calls one handler may make: `getChats()`,
      `fetchMessages(...)` on the resolved group and `sendMessage(...)` on it. */
  datatype Client = Client(
    chats: Answer<seq<Chat>>,
    fetched: Answer<seq<RawMessage>>,
    sent: Answer<()>)

  /** A call made on the client; `chat` is the position of the resolved chat in the list. */
  datatype ClientCall =
    | GetChats
    | FetchMessages(chat: nat, limit: int)
    | SendMessage(chat: nat, text: string)

  /** The client's lifecycle events. */
  datatype Event =
    | Qr(code: string)
    | Ready
    | Authenticated
    | AuthFailure(message: string)
    | Disconnected(reason: string)

  /** The (schema-validated) arguments of a WhatsApp tool call. */
  datatype Args = Args(groupName: string, limit: Option<int>, message: string)

  /** `batch.reverse().map(f)`: the batch in reverse order, each record passed through `f`. */
  function ReverseMap<T, U>(batch: seq<T>, f: T -> U): (r: seq<U>)
    ensures |r| == |batch|
    ensures forall k :: 0 <= k < |r| ==> r[k] == f(batch[|batch| - 1 - k])
    decreases |batch|
  {
    if batch == [] then [] else ReverseMap(batch[1..], f) + [f(batch[0])]
  }

  /** The readiness flag after a sequence of events, starting from `ready`, where
      `step` is what the registered listeners do to the flag on one event. */
  function Replay(step: (bool, Event) -> bool, ready: bool, events: seq<Event>): bool
    decreases |events|
  {
    if events == [] then ready
    else step(Replay(step, ready, events[..|events| - 1]), events[|events| - 1])
  }

  /** `chats.filter(chat => chat.isGroup)`. */
  function Groups(chats: seq<Chat>): (r: seq<Chat>)
    ensures |r| <= |chats|
    ensures forall c :: c in r <==> c in chats && c.isGroup
    decreases |chats|
  {
    if chats == [] then []
    else (if chats[0].isGroup then [chats[0]] else []) + Groups(chats[1..])
  }

  /** Filtering distributes over concatenation, so list order is kept. */
  lemma {:induction false} GroupsAppend(a: seq<Chat>, b: seq<Chat>)
    ensures Groups(a + b) == Groups(a) + Groups(b)
    decreases |a|
  {
    if a == [] {
      assert a + b == b;
    } else {
      assert (a + b)[1..] == a[1..] + b;
      GroupsAppend(a[1..], b);
    }
  }

  /** `chats.filter(chat => chat.isGroup).map(g => g.name)`, in list order. */
  function GroupNames(chats: seq<Chat>): (r: seq<string>)
    ensures |r| == |Groups(chats)|
    ensures forall k :: 0 <= k < |r| ==> r[k] == Groups(chats)[k].name
    decreases |chats|
  {
    if chats == [] then []
    else if chats[0].isGroup then [chats[0].name] + GroupNames(chats[1..])
    else GroupNames(chats[1..])
  }

  /** `chats.find(p)`, as a position: the first chat satisfying `p`, if any. */
  function FindFirst(chats: seq<Chat>, p: Chat -> bool): (r: Option<nat>)
    ensures r.Some? ==> r.value < |chats| && p(chats[r.value])
    ensures r.Some? ==> forall j :: 0 <= j < r.value ==> !p(chats[j])
    ensures r.None? <==> forall j :: 0 <= j < |chats| ==> !p(chats[j])
    decreases |chats|
  {
    if chats == [] then None
    else if p(chats[0]) then Some(0)
    else match FindFirst(chats[1..], p)
      case None => None
      case Some(i) => Some(i + 1)
  }

  /** Two predicates that agree on every chat of the list find the same chat. */
  lemma {:induction false} FindFirstAgree(chats: seq<Chat>, p: Chat -> bool, q: Chat -> bool)
    requires forall j :: 0 <= j < |chats| ==> p(chats[j]) == q(chats[j])
    ensures FindFirst(chats, p) == FindFirst(chats, q)
    decreases |chats|
  {
    if chats != [] {
      FindFirstAgree(chats[1..], p, q);
    }
  }
}
