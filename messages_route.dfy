/** The `/api/messages` route behind the contact form: GET lists every
    message newest first, POST stores one as "unread". Neither asks who the
    caller is. */
module MessagesRoute {
  import opened Common
  import opened Seqs

  /** A document of the `messages` collection. */
  datatype Message = Message(id: Id, name: string, email: string, message: string, status: string, createdAt: int)

  /** The JSON body of a POST, including any `status` the client sent. */
  datatype MessageData = MessageData(name: string, email: string, message: string, status: Option<string>)

  /** POST's reply `{ id, ...messageData, status: "unread" }`. */
  datatype Received = Received(id: Id, data: MessageData, status: string)

  function CreatedAtKey(m: Message): int {
    m.createdAt
  }

  /** GET: all messages, unfiltered, newest first. */
  function ListMessages(messages: seq<Message>): (r: Response<seq<Message>>)
    ensures r.Ok?
    ensures SortedDesc(r.body, CreatedAtKey)
    ensures multiset(r.body) == multiset(messages)
  {
    Ok(SortDesc(messages, CreatedAtKey))
  }

  /** The `messages` collection. */
  class MessageTable {
    var messages: seq<Message>
    var nextId: Id

    ghost predicate Valid()
      reads this
    {
      (forall i :: 0 <= i < |messages| ==> messages[i].id < nextId) &&
      (forall i, j :: 0 <= i < j < |messages| ==> messages[i].id != messages[j].id)
    }

    constructor ()
      ensures Valid() && messages == []
    {
      messages := [];
      nextId := 0;
    }

    /** POST: stores name, email, message, status "unread" and the time, and
        nothing else the client sent; earlier messages are untouched. */
    method Post(data: MessageData, now: int) returns (resp: Response<Received>)
      requires Valid()
      modifies this
      ensures Valid()
      ensures messages == old(messages) + [Message(old(nextId), data.name, data.email, data.message, "unread", now)]
      ensures resp == Ok(Received(old(nextId), data, "unread"))
    {
      var id := nextId;
      messages := messages + [Message(id, data.name, data.email, data.message, "unread", now)];
      nextId := nextId + 1;
      resp := Ok(Received(id, data, "unread"));
    }
  }
}
