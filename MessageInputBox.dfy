/**
 * The newer message composer: a draft text persisted per partner in sessionStorage under
 * `message-draft-{id}`, sent over the socket as a trimmed `chatMsgSend`.
 */
module MessageInputBox {
  import opened Types
  import opened Strings
  import opened WebStorage
  import Fetchers

  function DraftKey(partnerId: int): string {
    "message-draft-" + IntToString(partnerId)
  }

  /** `sessionStorage.getItem(draftkey) || ""`. */
  function StoredDraft(session: map<string, Stored>, partnerId: int): string {
    match Lookup(session, DraftKey(partnerId))
    case Some(Raw(t)) => t
    case _ => ""
  }

  class MessageInputBox {
    var text: string
    const partner: User
    const session: Storage

    /** The draft is stored under the partner's key with the current text. */
    predicate DraftSaved()
      reads this, session
    {
      DraftKey(partner.id) in session.items && session.items[DraftKey(partner.id)] == Raw(text)
    }

    /** Mounting: the text starts as the stored draft, and the save effect writes it back. */
    constructor (partner: User, session: Storage)
      modifies session
      ensures this.partner == partner && this.session == session
      ensures text == StoredDraft(old(session.items), partner.id)
      ensures session.items == old(session.items)[DraftKey(partner.id) := Raw(text)]
      ensures DraftSaved()
    {
      this.partner := partner;
      this.session := session;
      text := StoredDraft(session.items, partner.id);
      new;
      session.SetItem(DraftKey(partner.id), Raw(text));
    }

    /** A change of the text area, followed by the save effect. */
    method SetText(t: string)
      modifies this`text, session
      ensures text == t
      ensures session.items == old(session.items)[DraftKey(partner.id) := Raw(t)]
      ensures DraftSaved()
    {
      text := t;
      session.SetItem(DraftKey(partner.id), Raw(t));
    }

    /**
     * `sendMessage`: blank text, a dead socket or a send that throws leave text and draft as
     * they were; otherwise the trimmed text goes out and text and draft are emptied.
     */
    method SendMessage(alive: bool, sendThrows: bool, timestamp: string) returns (sent: Option<OutgoingMessage>)
      modifies this`text, session
      ensures Trim(old(text)) == [] || !alive || sendThrows ==>
                sent == None && text == old(text) && session.items == old(session.items)
      ensures Trim(old(text)) != [] && alive && !sendThrows ==>
                sent == Some(OutgoingMessage(ChatMsgSend, partner.id, Trim(old(text)), timestamp)) &&
                text == "" && session.items == old(session.items)[DraftKey(partner.id) := Raw("")]
      ensures old(DraftSaved()) ==> DraftSaved()
    {
      var txt := Trim(text);
      if txt == [] {
        return None;
      }
      if !alive {
        return None;
      }
      if sendThrows {
        return None;
      }
      sent := Some(OutgoingMessage(ChatMsgSend, partner.id, txt, timestamp));
      SetText("");
    }

    /** Enter without Shift sends; any other key does nothing. */
    method OnKeyDown(key: string, shift: bool, alive: bool, sendThrows: bool, timestamp: string)
      returns (sent: Option<OutgoingMessage>)
      modifies this`text, session
      ensures !(key == "Enter" && !shift) ==> sent == None && text == old(text) && session.items == old(session.items)
      ensures key == "Enter" && !shift && Trim(old(text)) != [] && alive && !sendThrows ==>
                sent == Some(OutgoingMessage(ChatMsgSend, partner.id, Trim(old(text)), timestamp)) && text == ""
      ensures key == "Enter" && !shift && (Trim(old(text)) == [] || !alive || sendThrows) ==>
                sent == None && text == old(text) && session.items == old(session.items)
    {
      sent := None;
      if key == "Enter" && !shift {
        sent := SendMessage(alive, sendThrows, timestamp);
      }
    }
  }

  /** A saved draft is what the next mount for that partner starts with; other partners' drafts are untouched. */
  lemma DraftReadsBack(session: map<string, Stored>, partnerId: int, t: string, other: int)
    ensures StoredDraft(session[DraftKey(partnerId) := Raw(t)], partnerId) == t
    ensures other != partnerId ==>
              StoredDraft(session[DraftKey(partnerId) := Raw(t)], other) == StoredDraft(session, other)
  {
    PrefixedIdInjective("message-draft-", partnerId, other);
  }

  /** Draft keys never coincide with the message-list keys of the fetchers. */
  lemma DraftKeysAreNotMessageKeys(a: int, b: int)
    ensures DraftKey(a) != Fetchers.MessagesKey(b)
  {
    assert DraftKey(a)[7] == '-' && Fetchers.MessagesKey(b)[7] == 's';
  }
}
