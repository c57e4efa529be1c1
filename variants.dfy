/** How the two WhatsApp variants (whatsapp-server.js and its successor
    real-whatsapp-server.js) relate: where they agree and where they part. */
module Variants {
  import opened Wrappers
  import opened Text
  import opened Channel
  import Real = RealWhatsAppServer
  import Early = WhatsAppServer

  /** Every exact match is also a containment match, so the later resolver finds
      a group whenever the earlier one does, at the same place or before it. */
  lemma ExactImpliesContains(chats: seq<Chat>, query: string)
    requires Early.Resolve(chats, query).Some?
    ensures Real.Resolve(chats, query).Some?
    ensures Real.Resolve(chats, query).value <= Early.Resolve(chats, query).value
  {
    var i := Early.Resolve(chats, query).value;
    assert Lower(chats[i].name) <= Lower(chats[i].name);
    assert Real.Matches(query, chats[i]);
  }

  /** The converse fails: a partial, differently cased name finds the group
      only in the later variant. */
  lemma PartialNameOnlyFoundByLater()
    ensures Early.Resolve([Chat("Family Group", true, 3)], "family").None?
    ensures Real.Resolve([Chat("Family Group", true, 3)], "family") == Some(0)
  {
    var c := Chat("Family Group", true, 3);
    assert !Early.Matches("family", c);
    assert Lower("family") == "family";
    assert Lower("Family Group") == "family group";
    assert "family" <= "family group";
    assert Real.Matches("family", c);
  }

  /** Without contact information the two sender rules agree. */
  lemma SendersAgreeWithoutContact(m: RawMessage)
    requires m.contact.None?
    ensures Real.Sender(m) == Early.Sender(m)
  {
  }

  /** A contact name replaces the stripped author id only in the later variant. */
  lemma ContactNameOnlyUsedByLater(m: RawMessage, author: string, name: string)
    requires m.author == Some(author) && author != ""
    requires m.contact == Some(Contact(Some(name), None)) && name != ""
    ensures Real.Sender(m) == name
    ensures Early.Sender(m) == ReplaceFirst(author, UserSuffix, "")
  {
  }

  /** Bodies with text are shown alike; an empty body becomes the placeholder
      only in the later variant. */
  lemma BodiesAgreeOnText(m: RawMessage)
    ensures Truthy(m.body) ==> Real.Body(m) == Early.Body(m)
    ensures m.body == Some("") ==> Real.Body(m) == Real.MediaPlaceholder && Early.Body(m) == ""
  {
  }

  /** A limit above 50 is clamped by the later variant and passed on as given by the earlier one. */
  lemma LimitAboveCeiling(limit: int)
    requires limit > Real.MaxLimit
    ensures Real.RequestedLimit(Some(limit)) == Real.MaxLimit
    ensures Early.RequestedLimit(Some(limit)) == limit
  {
  }
}
