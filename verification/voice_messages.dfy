/** The message store of `src/context/VoiceMessagesContext.jsx`: an
    in-memory list of voice messages with add, delete, update and lookups.
    The clock (`Date.now()`) is a parameter. */
module VoiceMessages {

  import opened Common
  import opened Browser
  import Text

  /** One stored voice message; `duration` is null when not given. */
  datatype Message = Message(
    id: string,
    audioBlob: Blob,
    title: string,
    timestamp: int,
    duration: Option<int>)

  /** The `updates` object of `updateMessage`: the fields it carries. */
  datatype Patch = Patch(
    id: Option<string>,
    audioBlob: Option<Blob>,
    title: Option<string>,
    timestamp: Option<int>,
    duration: Option<Option<int>>)

  const EmptyPatch: Patch := Patch(None, None, None, None, None)

  /** `{ ...message, ...updates }`: each field the patch carries wins. */
  function Merge(m: Message, p: Patch): (r: Message)
    ensures p.id.Some? ==> r.id == p.id.value
    ensures p.id.None? ==> r.id == m.id
    ensures p.audioBlob.Some? ==> r.audioBlob == p.audioBlob.value
    ensures p.audioBlob.None? ==> r.audioBlob == m.audioBlob
    ensures p.title.Some? ==> r.title == p.title.value
    ensures p.title.None? ==> r.title == m.title
    ensures p.timestamp.Some? ==> r.timestamp == p.timestamp.value
    ensures p.timestamp.None? ==> r.timestamp == m.timestamp
    ensures p.duration.Some? ==> r.duration == p.duration.value
    ensures p.duration.None? ==> r.duration == m.duration
  {
    Message(
      p.id.GetOr(m.id),
      p.audioBlob.GetOr(m.audioBlob),
      p.title.GetOr(m.title),
      p.timestamp.GetOr(m.timestamp),
      p.duration.GetOr(m.duration))
  }

  /** The new list and the id `addMessage` returns. */
  datatype Added = Added(messages: seq<Message>, id: string)

  /** `addMessage(audioBlob, title = '', duration = null)`: an omitted argument
      is None. The id is the first clock reading as text and the timestamp
      the second reading. */
  function AddMessage(messages: seq<Message>, audioBlob: Blob, title: Option<string>,
                      duration: Option<Option<int>>, idClock: nat, stampClock: nat): (r: Added)
    ensures |r.messages| == |messages| + 1
    ensures r.messages[..|messages|] == messages
    ensures r.messages[|messages|].id == r.id == Text.NatToString(idClock)
    ensures r.messages[|messages|].audioBlob == audioBlob
    ensures r.messages[|messages|].title == (if title.Some? then title.value else "")
    ensures r.messages[|messages|].duration == (if duration.Some? then duration.value else None)
    ensures r.messages[|messages|].timestamp == stampClock
  {
    var m := Message(Text.NatToString(idClock), audioBlob, title.GetOr(""), stampClock, duration.GetOr(None));
    Added(messages + [m], m.id)
  }

  /** How many messages carry `id`. */
  function CountId(messages: seq<Message>, id: string): nat {
    if messages == [] then 0
    else (if messages[0].id == id then 1 else 0) + CountId(messages[1..], id)
  }

  /** `deleteMessage`: `filter(message => message.id !== messageId)`. */
  function DeleteMessage(messages: seq<Message>, id: string): (r: seq<Message>)
    ensures forall m :: m in r <==> m in messages && m.id != id
    ensures IsSubsequence(r, messages)
    ensures |r| == |messages| - CountId(messages, id)
  {
    if messages == [] then []
    else if messages[0].id != id then [messages[0]] + DeleteMessage(messages[1..], id)
    else DeleteMessage(messages[1..], id)
  }

  /** Deleting twice is deleting once. */
  lemma {:induction false} DeleteIdempotent(messages: seq<Message>, id: string)
    ensures DeleteMessage(DeleteMessage(messages, id), id) == DeleteMessage(messages, id)
  {
    if messages != [] {
      DeleteIdempotent(messages[1..], id);
      if messages[0].id != id {
        var rest := DeleteMessage(messages[1..], id);
        assert ([messages[0]] + rest)[1..] == rest;
      }
    }
  }

  /** Deleting an id no message carries changes nothing. */
  lemma {:induction false} DeleteAbsent(messages: seq<Message>, id: string)
    requires forall i :: 0 <= i < |messages| ==> messages[i].id != id
    ensures DeleteMessage(messages, id) == messages
  {
    if messages != [] {
      DeleteAbsent(messages[1..], id);
      assert [messages[0]] + messages[1..] == messages;
    }
  }

  /** `updateMessage`: `map(message => message.id === messageId ? { ...message, ...updates } : message)`. */
  function UpdateMessage(messages: seq<Message>, id: string, updates: Patch): (r: seq<Message>)
    ensures |r| == |messages|
    ensures forall i :: 0 <= i < |messages| && messages[i].id != id ==> r[i] == messages[i]
    ensures forall i :: 0 <= i < |messages| && messages[i].id == id ==> r[i] == Merge(messages[i], updates)
  {
    if messages == [] then []
    else
      [if messages[0].id == id then Merge(messages[0], updates) else messages[0]]
      + UpdateMessage(messages[1..], id, updates)
  }

  /** An update with no fields changes nothing. */
  lemma UpdateEmpty(messages: seq<Message>, id: string)
    ensures UpdateMessage(messages, id, EmptyPatch) == messages
  {
    var r := UpdateMessage(messages, id, EmptyPatch);
    assert forall i :: 0 <= i < |messages| ==> r[i] == messages[i];
  }

  /** `getAllMessages`: a copy of the list, equal to it element by element. */
  function GetAllMessages(messages: seq<Message>): (r: seq<Message>)
    ensures |r| == |messages|
    ensures forall i :: 0 <= i < |messages| ==> r[i] == messages[i]
  {
    messages[..]
  }

  /** `getMessageById`: `find(message => message.id === messageId)`. */
  function GetMessageById(messages: seq<Message>, id: string): (r: Option<Message>)
    ensures r.None? <==> forall i :: 0 <= i < |messages| ==> messages[i].id != id
    ensures r.Some? ==> r.value.id == id
    ensures r.Some? ==> exists k :: 0 <= k < |messages| && messages[k] == r.value
                                      && forall j :: 0 <= j < k ==> messages[j].id != id
  {
    if messages == [] then None
    else if messages[0].id == id then Some(messages[0])
    else
      var r := GetMessageById(messages[1..], id);
      if r.Some? then FirstMatchInTail(messages, id, r.value); r else r
  }

  /** A first match in the tail, behind a non-matching head, is a first
      match in the whole list, one position later. */
  lemma FirstMatchInTail(messages: seq<Message>, id: string, m: Message)
    requires messages != [] && messages[0].id != id
    requires exists k :: 0 <= k < |messages[1..]| && messages[1..][k] == m
                         && forall j :: 0 <= j < k ==> messages[1..][j].id != id
    ensures exists k :: 0 <= k < |messages| && messages[k] == m
                        && forall j :: 0 <= j < k ==> messages[j].id != id
  {
    var k :| 0 <= k < |messages[1..]| && messages[1..][k] == m
             && forall j :: 0 <= j < k ==> messages[1..][j].id != id;
    assert messages[k + 1] == m;
  }

  /** A message added with a fresh id is found by that id. */
  lemma AddThenGet(messages: seq<Message>, audioBlob: Blob, title: Option<string>,
                   duration: Option<Option<int>>, idClock: nat, stampClock: nat)
    requires forall i :: 0 <= i < |messages| ==> messages[i].id != Text.NatToString(idClock)
    ensures var added := AddMessage(messages, audioBlob, title, duration, idClock, stampClock);
            GetMessageById(added.messages, added.id) == Some(added.messages[|messages|])
  {
    var added := AddMessage(messages, audioBlob, title, duration, idClock, stampClock);
    var r := GetMessageById(added.messages, added.id);
    assert r.Some?;
    var k :| 0 <= k < |added.messages| && added.messages[k] == r.value
             && forall j :: 0 <= j < k ==> added.messages[j].id != added.id;
    assert k == |messages|;
  }

  /** After deleting an id, looking it up finds nothing. */
  lemma DeleteThenGet(messages: seq<Message>, id: string)
    ensures GetMessageById(DeleteMessage(messages, id), id).None?
  {
    var r := DeleteMessage(messages, id);
    forall i | 0 <= i < |r|
      ensures r[i].id != id
    {
      assert r[i] in r;
    }
  }

  /** Looking up an id after an update that keeps ids finds the merged record. */
  lemma {:induction false} UpdateThenGet(messages: seq<Message>, id: string, updates: Patch)
    requires updates.id.None?
    ensures GetMessageById(UpdateMessage(messages, id, updates), id) ==
            (match GetMessageById(messages, id)
             case None => None
             case Some(m) => Some(Merge(m, updates)))
  {
    if messages != [] {
      var r := UpdateMessage(messages, id, updates);
      var rest := UpdateMessage(messages[1..], id, updates);
      UpdateThenGet(messages[1..], id, updates);
      assert r[1..] == rest;
      assert r[0].id == messages[0].id;
    }
  }
}
