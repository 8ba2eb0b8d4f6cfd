/**
 * The conversation list of the `App` component: two state cells, the list of
 * conversations and the active conversation, and the transitions that load, create,
 * select and delete conversations. Each transition assigns the cells a value computed
 * from their current values.
 */
module Conversations {
  import opened Wrappers

  /** A conversation as the list sees it: its `sid` identity key and its display name. */
  datatype Conversation = Conversation(sid: string, friendlyName: string)

  /** The list `filter` keeps on a delete: every entry whose `sid` differs from `sid`, in order. */
  function WithoutSid(cs: seq<Conversation>, sid: string): seq<Conversation> {
    if cs == [] then []
    else if cs[0].sid != sid then [cs[0]] + WithoutSid(cs[1..], sid)
    else WithoutSid(cs[1..], sid)
  }

  /** How many entries carry `sid`. */
  function CountSid(cs: seq<Conversation>, sid: string): nat {
    if cs == [] then 0 else (if cs[0].sid == sid then 1 else 0) + CountSid(cs[1..], sid)
  }

  /** Exactly the entries whose `sid` differs stay, and none with the deleted `sid` is left. */
  lemma {:induction false} WithoutSidMembers(cs: seq<Conversation>, sid: string)
    ensures forall c :: c in WithoutSid(cs, sid) <==> c in cs && c.sid != sid
    ensures |WithoutSid(cs, sid)| + CountSid(cs, sid) == |cs|
  {
    if cs != [] {
      WithoutSidMembers(cs[1..], sid);
      assert forall c :: c in cs <==> c == cs[0] || c in cs[1..];
    }
  }

  /** Deleting works piece by piece, so the remaining entries keep their relative order. */
  lemma {:induction false} WithoutSidAppend(a: seq<Conversation>, b: seq<Conversation>, sid: string)
    ensures WithoutSid(a + b, sid) == WithoutSid(a, sid) + WithoutSid(b, sid)
  {
    if a == [] {
      assert a + b == b;
    } else {
      assert (a + b)[1..] == a[1..] + b;
      WithoutSidAppend(a[1..], b, sid);
    }
  }

  /** Deleting a `sid` that no entry carries leaves the list as it was. */
  lemma {:induction false} WithoutAbsentSid(cs: seq<Conversation>, sid: string)
    requires forall i :: 0 <= i < |cs| ==> cs[i].sid != sid
    ensures WithoutSid(cs, sid) == cs
  {
    if cs != [] {
      WithoutAbsentSid(cs[1..], sid);
      assert [cs[0]] + cs[1..] == cs;
    }
  }

  /** Deleting the same `sid` twice removes nothing more. */
  lemma {:induction false} WithoutSidIdempotent(cs: seq<Conversation>, sid: string)
    ensures WithoutSid(WithoutSid(cs, sid), sid) == WithoutSid(cs, sid)
  {
    WithoutSidMembers(cs, sid);
    var r := WithoutSid(cs, sid);
    forall i | 0 <= i < |r|
      ensures r[i].sid != sid
    {
      assert r[i] in r;
    }
    WithoutAbsentSid(r, sid);
  }

  /** The `conversations` and `activeConversation` state of `App`. */
  class App {
    var conversations: seq<Conversation>
    var active: Option<Conversation>

    /** The initial state: no conversations, none active. */
    constructor ()
      ensures conversations == [] && active == None
    {
      conversations := [];
      active := None;
    }

    /** The subscribed conversations arrived: they replace the list. */
    method ConversationsLoaded(items: seq<Conversation>)
      modifies this`conversations
      ensures conversations == items
      ensures active == old(active)
    {
      conversations := items;
    }

    /** `onAdd`: the created conversation goes at the end; every earlier entry stays, in order. */
    method OnAdd(created: Conversation)
      modifies this`conversations
      ensures conversations == old(conversations) + [created]
      ensures active == old(active)
    {
      conversations := conversations + [created];
    }

    /** `onSelect`: the chosen conversation becomes active; the list is untouched. */
    method OnSelect(chosen: Conversation)
      modifies this`active
      ensures active == Some(chosen)
      ensures conversations == old(conversations)
    {
      active := Some(chosen);
    }

    /**
     * `onDelete`: every entry with the deleted conversation's `sid` goes, the rest keep
     * their order, and no conversation is active any more, whichever one was.
     */
    method OnDelete(deleted: Conversation)
      modifies this
      ensures conversations == WithoutSid(old(conversations), deleted.sid)
      ensures forall c :: c in conversations <==> c in old(conversations) && c.sid != deleted.sid
      ensures active == None
    {
      WithoutSidMembers(conversations, deleted.sid);
      conversations := WithoutSid(conversations, deleted.sid);
      active := None;
    }
  }
}
