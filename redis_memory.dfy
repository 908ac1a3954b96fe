/** The session memory store (app/db/redis_memory.py): a conversation history
    per session, kept in a Redis key with a one-hour expiry. Redis itself is
    modelled as a keyed store of values with expiry times and a clock. The
    history is held as a list of messages; its JSON text encoding is not
    modelled. */
module RedisMemory {

  /** A chat message, such as {"role": "user", "content": …}. */
  type Message = map<string, string>

  /** A stored value and the clock reading at which it expires. */
  datatype Entry = Entry(value: seq<Message>, expiresAt: int)

  /** The key prefix every session key carries. */
  const KeyPrefix: string := "conversation:"

  /** The expiry given to every write, in seconds. */
  const Ttl: int := 3600

  /** The Redis key of a session. */
  function Key(sessionId: string): (k: string)
    ensures |k| == |KeyPrefix| + |sessionId|
    ensures k[..|KeyPrefix|] == KeyPrefix && k[|KeyPrefix|..] == sessionId
  {
    KeyPrefix + sessionId
  }

  /** Distinct sessions never share a key. */
  lemma KeyInjective(a: string, b: string)
    requires Key(a) == Key(b)
    ensures a == b
  {
    assert a == Key(a)[|KeyPrefix|..];
  }

  /** Whether the key holds a value that has not yet expired at time `now`:
      Redis drops a key only once the clock is strictly past its deadline,
      so at the deadline itself the value is still read. */
  predicate Live(data: map<string, Entry>, now: int, key: string) {
    key in data && now <= data[key].expiresAt
  }

  /** What `get_conversation` reads from a store state: the stored history,
      or the empty list when the key is absent or expired. */
  function Conversation(data: map<string, Entry>, now: int, sessionId: string): (c: seq<Message>)
    ensures Live(data, now, Key(sessionId)) ==> c == data[Key(sessionId)].value
    ensures !Live(data, now, Key(sessionId)) ==> c == []
  {
    var key := Key(sessionId);
    if Live(data, now, key) then data[key].value else []
  }

  /** The store after `store_conversation` at time `now`. */
  function Stored(data: map<string, Entry>, now: int, sessionId: string, conversation: seq<Message>)
    : map<string, Entry>
  {
    data[Key(sessionId) := Entry(conversation, now + Ttl)]
  }

  /** The store after `clear_conversation`. */
  function Cleared(data: map<string, Entry>, sessionId: string): map<string, Entry> {
    data - {Key(sessionId)}
  }

  /** A stored history reads back unchanged at any time up to its expiry,
      and reads as empty once the clock is past it. */
  lemma ReadAfterStore(data: map<string, Entry>, now: int, sessionId: string,
                       conversation: seq<Message>, later: int)
    requires now <= later
    ensures later <= now + Ttl ==>
      Conversation(Stored(data, now, sessionId, conversation), later, sessionId) == conversation
    ensures later > now + Ttl ==>
      Conversation(Stored(data, now, sessionId, conversation), later, sessionId) == []
  {
  }

  /** Storing one session leaves every other session's reading unchanged. */
  lemma StoreIsolated(data: map<string, Entry>, now: int, sessionId: string,
                      conversation: seq<Message>, other: string, later: int)
    requires other != sessionId
    ensures Conversation(Stored(data, now, sessionId, conversation), later, other)
            == Conversation(data, later, other)
  {
    if Key(other) == Key(sessionId) {
      KeyInjective(other, sessionId);
    }
  }

  /** After clearing, the session reads as empty and every other session
      reads as before; clearing an absent session changes nothing. */
  lemma ClearEffect(data: map<string, Entry>, sessionId: string, other: string, now: int)
    ensures Conversation(Cleared(data, sessionId), now, sessionId) == []
    ensures other != sessionId ==>
      Conversation(Cleared(data, sessionId), now, other) == Conversation(data, now, other)
    ensures Key(sessionId) !in data ==> Cleared(data, sessionId) == data
  {
    if other != sessionId && Key(other) == Key(sessionId) {
      KeyInjective(other, sessionId);
    }
  }

  /** `add_message` at time `now`: the history read back is the old history
      with exactly the new message at the end, and its expiry is renewed. */
  lemma AddAppends(data: map<string, Entry>, now: int, sessionId: string, message: Message)
    ensures var after := Stored(data, now, sessionId, Conversation(data, now, sessionId) + [message]);
      && Conversation(after, now, sessionId) == Conversation(data, now, sessionId) + [message]
      && after[Key(sessionId)].expiresAt == now + Ttl
  {
  }

  /** The key-value server: its entries and its clock. `get` does not touch
      expiry; a key whose time has come reads as absent. */
  class Redis {
    var data: map<string, Entry>
    var now: int

    constructor ()
      ensures data == map[] && now == 0
    {
      data := map[];
      now := 0;
    }

    /** `SETEX key ttl value`. */
    method SetEx(key: string, ttl: int, value: seq<Message>)
      modifies this
      ensures data == old(data)[key := Entry(value, old(now) + ttl)] && now == old(now)
    {
      data := data[key := Entry(value, now + ttl)];
    }

    /** `GET key`: the value of a live key, nothing otherwise. */
    method Get(key: string) returns (v: seq<Message>, found: bool)
      ensures found == Live(data, now, key)
      ensures found ==> v == data[key].value
    {
      found := Live(data, now, key);
      v := if found then data[key].value else [];
    }

    /** `DEL key`. */
    method Delete(key: string)
      modifies this
      ensures data == old(data) - {key} && now == old(now)
    {
      data := data - {key};
    }

    /** The passage of time. */
    method Advance(seconds: nat)
      modifies this
      ensures now == old(now) + seconds && data == old(data)
    {
      now := now + seconds;
    }
  }

  /** `RedisMemoryStore`: conversation histories kept in one Redis server. */
  class RedisMemoryStore {
    const client: Redis

    constructor (client: Redis)
      ensures this.client == client
    {
      this.client := client;
    }

    /** `store_conversation`: write the history under the session key with a
        one-hour expiry. */
    method StoreConversation(sessionId: string, conversation: seq<Message>)
      modifies client
      ensures client.data == Stored(old(client.data), old(client.now), sessionId, conversation)
      ensures client.now == old(client.now)
    {
      var key := KeyPrefix + sessionId;
      client.SetEx(key, Ttl, conversation);
    }

    /** `get_conversation`: the stored history, or empty when there is none. */
    method GetConversation(sessionId: string) returns (conversation: seq<Message>)
      ensures conversation == Conversation(client.data, client.now, sessionId)
    {
      var key := KeyPrefix + sessionId;
      var data, found := client.Get(key);
      conversation := if found then data else [];
    }

    /** `add_message`: read the history, append one message, write it back. */
    method AddMessage(sessionId: string, message: Message)
      modifies client
      ensures client.data == Stored(old(client.data), old(client.now), sessionId,
                                    Conversation(old(client.data), old(client.now), sessionId) + [message])
      ensures client.now == old(client.now)
    {
      var conversation := GetConversation(sessionId);
      conversation := conversation + [message];
      StoreConversation(sessionId, conversation);
    }

    /** `clear_conversation`: delete the session key. */
    method ClearConversation(sessionId: string)
      modifies client
      ensures client.data == Cleared(old(client.data), sessionId)
      ensures client.now == old(client.now)
    {
      var key := KeyPrefix + sessionId;
      client.Delete(key);
    }

    /** One chat turn as the RAG endpoint records it: the user's message,
        then the assistant's reply, appended in that order. */
    method RecordTurn(sessionId: string, user: Message, assistant: Message)
      modifies client
      ensures Conversation(client.data, client.now, sessionId)
              == Conversation(old(client.data), old(client.now), sessionId) + [user, assistant]
      ensures forall other :: other != sessionId ==>
        Conversation(client.data, client.now, other) == Conversation(old(client.data), old(client.now), other)
    {
      ghost var before := client.data;
      AddMessage(sessionId, user);
      AddAppends(before, client.now, sessionId, user);
      ghost var middle := client.data;
      AddMessage(sessionId, assistant);
      AddAppends(middle, client.now, sessionId, assistant);
      forall other | other != sessionId
        ensures Conversation(client.data, client.now, other) == Conversation(before, client.now, other)
      {
        StoreIsolated(before, client.now, sessionId,
                      Conversation(before, client.now, sessionId) + [user], other, client.now);
        StoreIsolated(middle, client.now, sessionId,
                      Conversation(middle, client.now, sessionId) + [assistant], other, client.now);
      }
    }
  }
}
