/** The `messages` Redux slice: the message list shown newest first, the
    list filters, and the request lifecycle flags. */
module MessageSlice {
  import opened Common
  import opened Records

  datatype MessageStatus = Pending | Sent | Failed | Received
  datatype MessageType = Incoming | Outgoing

  datatype Message = Message(id: string, simId: string, content: string,
                             status: MessageStatus, messageType: MessageType, createdAt: string)

  function MessageId(m: Message): string
  {
    m.id
  }

  /** `filters`: each field is a string or `null`. */
  datatype Filters = Filters(simId: Option<string>, status: Option<string>, messageType: Option<string>)

  /** `Partial<filters>`: an absent field is `None`; a present one carries
      its new value, which may itself be `null`. */
  datatype FiltersPatch = FiltersPatch(simId: Option<Option<string>>, status: Option<Option<string>>,
                                       messageType: Option<Option<string>>)

  const NoFilters := Filters(None, None, None)

  /** `{ ...filters, ...patch }`. */
  function MergeFilters(f: Filters, p: FiltersPatch): (r: Filters)
    ensures p.simId.Some? ==> r.simId == p.simId.value
    ensures p.simId.None? ==> r.simId == f.simId
    ensures p.status.Some? ==> r.status == p.status.value
    ensures p.status.None? ==> r.status == f.status
    ensures p.messageType.Some? ==> r.messageType == p.messageType.value
    ensures p.messageType.None? ==> r.messageType == f.messageType
  {
    Filters(Overwrite(f.simId, p.simId), Overwrite(f.status, p.status),
            Overwrite(f.messageType, p.messageType))
  }

  /** `{ ...p, ...q }`: the patch that applying `p` then `q` amounts to. */
  function ThenPatch(p: FiltersPatch, q: FiltersPatch): FiltersPatch
  {
    FiltersPatch(Then(p.simId, q.simId), Then(p.status, q.status), Then(p.messageType, q.messageType))
  }

  /** Two `setFilter` dispatches are one with the combined patch. */
  lemma MergeFiltersTwice(f: Filters, p: FiltersPatch, q: FiltersPatch)
    ensures MergeFilters(MergeFilters(f, p), q) == MergeFilters(f, ThenPatch(p, q))
  {
    OverwriteThen(f.simId, p.simId, q.simId);
    OverwriteThen(f.status, p.status, q.status);
    OverwriteThen(f.messageType, p.messageType, q.messageType);
  }

  /** Dispatching the same patch again changes nothing. */
  lemma MergeFiltersIdempotent(f: Filters, p: FiltersPatch)
    ensures MergeFilters(MergeFilters(f, p), p) == MergeFilters(f, p)
  {
  }

  /** `unshift`: the new message first, the old list after it unchanged. */
  function Prepend(m: Message, messages: seq<Message>): (r: seq<Message>)
    ensures |r| == |messages| + 1 && r[0] == m && r[1..] == messages
  {
    [m] + messages
  }

  class MessageState {
    var messages: seq<Message>
    var isLoading: bool
    var error: Option<string>
    var filters: Filters

    /** `initialState`. */
    constructor ()
      ensures messages == [] && !isLoading && error == None && filters == NoFilters
    {
      messages := [];
      isLoading := false;
      error := None;
      filters := NoFilters;
    }

    method SetFilter(payload: FiltersPatch)
      modifies this
      ensures filters == MergeFilters(old(filters), payload)
      ensures messages == old(messages) && isLoading == old(isLoading) && error == old(error)
    {
      filters := MergeFilters(filters, payload);
    }

    /** Empties the list; the filters stay. */
    method ClearMessages()
      modifies this
      ensures messages == []
      ensures filters == old(filters) && isLoading == old(isLoading) && error == old(error)
    {
      messages := [];
    }

    /** `addMessage` (a message pushed by the client itself). */
    method AddMessage(payload: Message)
      modifies this
      ensures messages == Prepend(payload, old(messages))
      ensures filters == old(filters) && isLoading == old(isLoading) && error == old(error)
    {
      messages := [payload] + messages;
    }

    /** Every `*.pending` case of the three thunks. */
    method Pending()
      modifies this
      ensures isLoading && error == None
      ensures messages == old(messages) && filters == old(filters)
    {
      isLoading := true;
      error := None;
    }

    /** Every `*.rejected` case of the three thunks. */
    method Rejected(payload: string)
      modifies this
      ensures !isLoading && error == Some(payload)
      ensures messages == old(messages) && filters == old(filters)
    {
      isLoading := false;
      error := Some(payload);
    }

    /** `fetchMessages.fulfilled`: the list is replaced wholesale. */
    method FetchMessagesFulfilled(payload: seq<Message>)
      modifies this
      ensures !isLoading && messages == payload
      ensures filters == old(filters) && error == old(error)
    {
      isLoading := false;
      messages := payload;
    }

    /** `createMessage.fulfilled`: the created message goes first. */
    method CreateMessageFulfilled(payload: Message)
      modifies this
      ensures !isLoading && messages == Prepend(payload, old(messages))
      ensures filters == old(filters) && error == old(error)
    {
      isLoading := false;
      messages := [payload] + messages;
    }

    /** `updateMessageStatus.fulfilled`: the first message with the
        payload's id is replaced. */
    method UpdateMessageStatusFulfilled(payload: Message)
      modifies this
      ensures !isLoading && messages == ReplaceFirst(old(messages), MessageId, payload)
      ensures filters == old(filters) && error == old(error)
    {
      isLoading := false;
      var index := FindIndex(messages, MessageId, payload.id);
      if index != -1 {
        messages := messages[index := payload];
      }
    }
  }
}
