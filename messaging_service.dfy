/**
 * The messaging service: the ordering of recent conversations, the two
 * copies of a message, the decisions of a push (blocked contacts, group
 * fan-out, private scope), the state filter of a pull, the read marks, the
 * recall window, deletion and the expiry of in-memory state bundles.
 * Contacts, groups, the message cache and the message storage are not part
 * of this model: what they answer is passed in, and what the service
 * writes to them is kept as a log.
 */
module MessagingServiceModel {
  import opened PsychologyTypes

  // ---- Conversations ------------------------------------------------------------------

  datatype ConversationState = Normal | Important | OtherConversationState(code: int)

  datatype Conversation = Conversation(state: ConversationState, timestamp: int)

  /**
   * The comparator of getRecentConversations: negative puts c1 first.
   * Same state: the later timestamp first; Important before Normal; any
   * other pair of states compares as equal.
   */
  function CompareConversations(c1: Conversation, c2: Conversation): (r: int)
    ensures -1 <= r <= 1
    ensures c1.state == c2.state ==> (r < 0 <==> c1.timestamp > c2.timestamp) && (r > 0 <==> c1.timestamp < c2.timestamp)
    ensures c1.state == Important && c2.state == ConversationState.Normal ==> r < 0
    ensures c1.state == ConversationState.Normal && c2.state == Important ==> r > 0
    ensures c1.state != c2.state && !({c1.state, c2.state} == {ConversationState.Normal, Important}) ==> r == 0
  {
    if c1.state == c2.state then
      if c1.timestamp < c2.timestamp then 1
      else if c1.timestamp > c2.timestamp then -1
      else 0
    else if c1.state == ConversationState.Normal && c2.state == Important then 1
    else if c1.state == Important && c2.state == ConversationState.Normal then -1
    else 0
  }

  /** The comparator is antisymmetric. */
  lemma CompareAntisymmetric(c1: Conversation, c2: Conversation)
    ensures CompareConversations(c1, c2) == -CompareConversations(c2, c1)
  {
  }

  predicate TwoStates(c: Conversation)
  {
    c.state == ConversationState.Normal || c.state == Important
  }

  /** The order the comparator means: Important first, then by descending timestamp. */
  predicate Before(c1: Conversation, c2: Conversation)
  {
    (c1.state == Important && c2.state == ConversationState.Normal) ||
    (c1.state == c2.state && c1.timestamp > c2.timestamp)
  }

  /** Over Normal and Important conversations the comparator is that strict order, which is transitive. */
  lemma CompareOrdersTwoStates(c1: Conversation, c2: Conversation, c3: Conversation)
    requires TwoStates(c1) && TwoStates(c2) && TwoStates(c3)
    ensures CompareConversations(c1, c2) < 0 <==> Before(c1, c2)
    ensures CompareConversations(c1, c2) == 0 <==> c1 == c2
    ensures Before(c1, c2) && Before(c2, c3) ==> Before(c1, c3)
  {
  }

  /**
   * A third state breaks the comparator's consistency: an Important and a
   * Normal conversation each compare equal to it, but not to each other.
   */
  lemma CompareWithThirdState()
    ensures var a := Conversation(Important, 1);
      var b := Conversation(OtherConversationState(2), 2);
      var c := Conversation(ConversationState.Normal, 3);
      CompareConversations(a, b) == 0 && CompareConversations(b, c) == 0 && CompareConversations(a, c) < 0
  {
  }

  // ---- Messages -----------------------------------------------------------------------

  datatype MessageState = Sent | Read | Recalled | Deleted | SendBlocked | ReceiveBlocked | Fault
                        | OtherMessageState(code: int)

  datatype Scope = Unlimited | Private

  datatype Message = Message(id: int, from: int, to: int, source: int, owner: int,
                             scope: Scope, state: MessageState, timestamp: int)

  /** A copy of m for owner: everything but the owner as in m. */
  function CopyFor(m: Message, owner: int): (c: Message)
    ensures c.owner == owner
    ensures c.(owner := m.owner) == m
  {
    m.(owner := owner)
  }

  /** makeMessageCopies: the sender's copy and the receiver's copy, in that order. */
  function MakeCopies(m: Message): (r: (Message, Message))
    ensures r.0.owner == m.from && r.0.(owner := m.owner) == m
    ensures r.1.owner == m.to && r.1.(owner := m.owner) == m
  {
    (CopyFor(m, m.from), CopyFor(m, m.to))
  }

  /** A message marked as coming from a group: it has a group source. */
  predicate FromGroup(m: Message)
  {
    m.source > 0
  }

  /** The copy for a group member: addressed to and owned by the member. */
  function MemberCopy(m: Message, member: int): Message
  {
    m.(to := member, owner := member)
  }

  /** The copies for the members of a group, the sender skipped. */
  function GroupCopies(m: Message, members: seq<int>): (r: seq<Message>)
    ensures |r| <= |members|
  {
    if members == [] then []
    else
      var init := GroupCopies(m, members[..|members| - 1]);
      var c := members[|members| - 1];
      if c == m.from then init else init + [MemberCopy(m, c)]
  }

  /** The members other than the sender, in order. */
  function Without(members: seq<int>, sender: int): (r: seq<int>)
    ensures forall c :: c in r <==> c in members && c != sender
  {
    if members == [] then []
    else
      var init := members[..|members| - 1];
      var c := members[|members| - 1];
      assert forall x :: x in members <==> x in init || x == c by {
        assert members == init + [c];
      }
      if c == sender then Without(init, sender) else Without(init, sender) + [c]
  }

  function Owners(cs: seq<Message>): (r: seq<int>)
    ensures |r| == |cs| && forall i :: 0 <= i < |cs| ==> r[i] == cs[i].owner
  {
    seq(|cs|, i requires 0 <= i < |cs| => cs[i].owner)
  }

  /** One copy per member other than the sender, in member order, each the message addressed to that member. */
  lemma {:induction false} GroupCopiesMeaning(m: Message, members: seq<int>)
    ensures Owners(GroupCopies(m, members)) == Without(members, m.from)
    ensures forall c :: c in GroupCopies(m, members) ==> c == MemberCopy(m, c.owner) && c.owner != m.from
  {
    if members != [] {
      var init := members[..|members| - 1];
      GroupCopiesMeaning(m, init);
      var c := members[|members| - 1];
      if c != m.from {
        assert Owners(GroupCopies(m, members)) == Owners(GroupCopies(m, init)) + [c];
      }
    }
  }

  /** The fan-out loop of a group push. */
  method FanOut(m: Message, members: seq<int>) returns (copies: seq<Message>)
    ensures copies == GroupCopies(m, members)
  {
    copies := [];
    for i := 0 to |members|
      invariant copies == GroupCopies(m, members[..i])
    {
      assert members[..i + 1][..i] == members[..i];
      if members[i] == m.from {
        continue;
      }
      copies := copies + [MemberCopy(m, members[i])];
    }
    assert members[..|members|] == members;
  }

  // ---- Push ---------------------------------------------------------------------------

  datatype StateCode = Ok | BeBlocked | AttachmentError | GroupError | NoGroup | DataStructureError

  datatype Group = Group(members: seq<int>, normal: bool)

  /** What a push returns and the copies it delivers, in the order they are written. */
  datatype Outcome = Outcome(message: Message, code: StateCode, copies: seq<Message>)

  /**
   * The decisions of pushMessage. blocked holds the pairs (a, b) where a
   * blocks b; group is the group found for the message's source.
   */
  function PushPlan(m0: Message, now: int, attachmentOk: bool, blocked: set<(int, int)>, group: Option<Group>): Outcome
  {
    var m := m0.(timestamp := now);
    if !attachmentOk then Outcome(m.(state := Fault), AttachmentError, [])
    else if m.scope == Unlimited then
      if m.to > 0 then
        if (m.from, m.to) in blocked then Outcome(m.(state := SendBlocked), BeBlocked, [])
        else if (m.to, m.from) in blocked then Outcome(m.(state := ReceiveBlocked), BeBlocked, [])
        else
          var s := m.(state := Sent);
          var copies := MakeCopies(s);
          Outcome(s, Ok, [copies.1, copies.0])
      else if m.source > 0 then
        if group.None? then Outcome(m.(state := Fault), NoGroup, [])
        else if !group.value.normal then Outcome(m.(state := Fault), GroupError, [])
        else
          var s := m.(state := Sent);
          Outcome(s, Ok, GroupCopies(s, group.value.members) + [CopyFor(s, s.from)])
      else Outcome(m.(state := Fault), DataStructureError, [])
    else
      var s := m.(state := Sent);
      Outcome(s, Ok, [MakeCopies(s).0])
  }

  /** The branching of pushMessage. */
  method Plan(m0: Message, now: int, attachmentOk: bool, blocked: set<(int, int)>, group: Option<Group>) returns (o: Outcome)
    ensures o == PushPlan(m0, now, attachmentOk, blocked, group)
  {
    var m := m0.(timestamp := now);
    if !attachmentOk {
      return Outcome(m.(state := Fault), AttachmentError, []);
    }
    if m.scope != Unlimited {
      var s := m.(state := Sent);
      var copies := MakeCopies(s);
      return Outcome(s, Ok, [copies.0]);
    }
    if m.to > 0 {
      if (m.from, m.to) in blocked {
        return Outcome(m.(state := SendBlocked), BeBlocked, []);
      }
      if (m.to, m.from) in blocked {
        return Outcome(m.(state := ReceiveBlocked), BeBlocked, []);
      }
      var s := m.(state := Sent);
      var copies := MakeCopies(s);
      return Outcome(s, Ok, [copies.1, copies.0]);
    }
    if m.source <= 0 {
      return Outcome(m.(state := Fault), DataStructureError, []);
    }
    if group.None? {
      return Outcome(m.(state := Fault), NoGroup, []);
    }
    if !group.value.normal {
      return Outcome(m.(state := Fault), GroupError, []);
    }
    var s := m.(state := Sent);
    var memberCopies := FanOut(s, group.value.members);
    return Outcome(s, Ok, memberCopies + [CopyFor(s, s.from)]);
  }

  /** What a push promises. */
  lemma PushMeaning(m: Message, now: int, attachmentOk: bool, blocked: set<(int, int)>, group: Option<Group>)
    ensures var o := PushPlan(m, now, attachmentOk, blocked, group);
      && o.message.(state := m.state, timestamp := m.timestamp) == m
      && o.message.timestamp == now
      && (o.code == Ok <==> o.message.state == Sent)
      && (o.code == Ok <==> o.copies != [])
      && (forall c :: c in o.copies ==> c.state == Sent && c.timestamp == now && c.id == m.id)
      && (!attachmentOk ==> o.code == AttachmentError && o.message.state == Fault)
      && (attachmentOk && m.scope != Unlimited ==> Owners(o.copies) == [m.from])
      && (attachmentOk && m.scope == Unlimited && m.to > 0 ==>
            (if (m.from, m.to) in blocked then o.code == BeBlocked && o.message.state == SendBlocked
             else if (m.to, m.from) in blocked then o.code == BeBlocked && o.message.state == ReceiveBlocked
             else o.code == Ok && Owners(o.copies) == [m.to, m.from]))
      && (attachmentOk && m.scope == Unlimited && m.to <= 0 ==>
            (if m.source <= 0 then o.code == DataStructureError
             else if group.None? then o.code == NoGroup
             else if !group.value.normal then o.code == GroupError
             else o.code == Ok && Owners(o.copies) == Without(group.value.members, m.from) + [m.from]))
  {
    var o := PushPlan(m, now, attachmentOk, blocked, group);
    if attachmentOk && m.scope == Unlimited && m.to <= 0 && m.source > 0 && group.Some? && group.value.normal {
      var s := m.(timestamp := now).(state := Sent);
      GroupCopiesMeaning(s, group.value.members);
      var gc := GroupCopies(s, group.value.members);
      assert o.copies == gc + [CopyFor(s, s.from)];
      assert Owners(o.copies) == Owners(gc) + [m.from];
      forall c | c in o.copies
        ensures c.state == Sent && c.timestamp == now && c.id == m.id
      {
        if c in gc {
          assert c == MemberCopy(s, c.owner);
        }
      }
    }
  }

  // ---- State bundles --------------------------------------------------------------------

  datatype MessageKey = MessageKey(owner: int, id: int)

  function KeyOf(m: Message): MessageKey
  {
    MessageKey(m.owner, m.id)
  }

  /** The state of a copy kept in memory, with the time it was recorded. */
  datatype Bundle = Bundle(state: MessageState, timestamp: int)

  /** The bundles after recording each copy as Sent. */
  function Recorded(states: map<MessageKey, Bundle>, copies: seq<Message>, now: int): map<MessageKey, Bundle>
  {
    if copies == [] then states
    else
      var c := copies[|copies| - 1];
      Recorded(states, copies[..|copies| - 1], now)[KeyOf(c) := Bundle(Sent, now)]
  }

  /** Every copy's key holds a Sent bundle; every other bundle is kept. */
  lemma {:induction false} RecordedMeaning(states: map<MessageKey, Bundle>, copies: seq<Message>, now: int)
    ensures var r := Recorded(states, copies, now);
      && (forall k :: k in r <==> k in states || exists c :: c in copies && KeyOf(c) == k)
      && (forall c :: c in copies ==> r[KeyOf(c)] == Bundle(Sent, now))
      && (forall k :: k in states && (forall c :: c in copies ==> KeyOf(c) != k) ==> r[k] == states[k])
  {
    if copies != [] {
      var init := copies[..|copies| - 1];
      RecordedMeaning(states, init, now);
      assert copies == init + [copies[|copies| - 1]];
    }
  }

  /** The loop that records the copies. */
  method RecordAll(states: map<MessageKey, Bundle>, copies: seq<Message>, now: int) returns (r: map<MessageKey, Bundle>)
    ensures r == Recorded(states, copies, now)
  {
    r := states;
    for i := 0 to |copies|
      invariant r == Recorded(states, copies[..i], now)
    {
      assert copies[..i + 1][..i] == copies[..i];
      r := r[KeyOf(copies[i]) := Bundle(Sent, now)];
    }
    assert copies[..|copies|] == copies;
  }

  /** The bundle of k, if any, with its state changed to s. */
  function MarkAs(states: map<MessageKey, Bundle>, k: MessageKey, s: MessageState): (r: map<MessageKey, Bundle>)
    ensures r.Keys == states.Keys
    ensures k in r ==> r[k] == states[k].(state := s)
    ensures forall j :: j in states && j != k ==> r[j] == states[j]
  {
    if k in states then states[k := states[k].(state := s)] else states
  }

  /** The bundles after marking the copy of id held by each of owners. */
  function MarkEach(states: map<MessageKey, Bundle>, owners: seq<int>, id: int, s: MessageState): (r: map<MessageKey, Bundle>)
    ensures r.Keys == states.Keys
  {
    if owners == [] then states
    else MarkAs(MarkEach(states, owners[..|owners| - 1], id, s), MessageKey(owners[|owners| - 1], id), s)
  }

  /** Marking changes only the copies of id held by the owners, and only their state. */
  lemma {:induction false} MarkEachMeaning(states: map<MessageKey, Bundle>, owners: seq<int>, id: int, s: MessageState)
    ensures var r := MarkEach(states, owners, id, s);
      && (forall k :: k in r && k.id == id && k.owner in owners ==> r[k] == states[k].(state := s))
      && (forall k :: k in r && !(k.id == id && k.owner in owners) ==> r[k] == states[k])
  {
    if owners != [] {
      var init := owners[..|owners| - 1];
      MarkEachMeaning(states, init, id, s);
      assert owners == init + [owners[|owners| - 1]];
    }
  }

  /** The bundles recorded at least thirty days before now. */
  const StateRetention: int := 30 * 24 * 60 * 60 * 1000

  /** The bundles the tick keeps. */
  function Kept(states: map<MessageKey, Bundle>, now: int): (r: map<MessageKey, Bundle>)
    ensures forall k :: k in r <==> k in states && states[k].timestamp >= now - StateRetention
    ensures forall k :: k in r ==> r[k] == states[k]
  {
    map k | k in states && states[k].timestamp >= now - StateRetention :: states[k]
  }

  lemma SomeKey(keys: set<MessageKey>)
    requires keys != {}
    ensures exists k :: k in keys
  {
    if forall k :: k !in keys {
      assert false;
    }
  }

  /** The iteration of the tick over the bundles. */
  method DropOld(states: map<MessageKey, Bundle>, now: int) returns (r: map<MessageKey, Bundle>)
    ensures r == Kept(states, now)
  {
    var keys := states.Keys;
    r := states;
    while keys != {}
      invariant keys <= states.Keys
      invariant forall k :: k in r <==> k in states && (k in keys || states[k].timestamp >= now - StateRetention)
      invariant forall k :: k in r ==> r[k] == states[k]
      decreases keys
    {
      SomeKey(keys);
      var k :| k in keys;
      if states[k].timestamp < now - StateRetention {
        r := r - {k};
      }
      keys := keys - {k};
    }
    ghost var t := Kept(states, now);
    assert forall k :: k in r <==> k in t;
    assert forall k :: k in r ==> r[k] == t[k];
  }

  // ---- Pull ---------------------------------------------------------------------------

  predicate Visible(s: MessageState)
  {
    s == Sent || s == Read
  }

  /**
   * The state a pulled item gets: its bundle's, else the stored state of
   * its id, else the state it was cached with.
   */
  function Effective(states: map<MessageKey, Bundle>, contact: int, stored: map<int, MessageState>, item: Message): MessageState
  {
    var k := MessageKey(contact, item.id);
    if k in states then states[k].state
    else if item.id in stored then stored[item.id]
    else item.state
  }

  /** The cached items that are Sent or Read, each with its effective state. */
  function Pulled(states: map<MessageKey, Bundle>, contact: int, stored: map<int, MessageState>, items: seq<Message>): seq<Message>
  {
    if items == [] then []
    else
      var init := Pulled(states, contact, stored, items[..|items| - 1]);
      var item := items[|items| - 1];
      var s := Effective(states, contact, stored, item);
      if Visible(s) then init + [item.(state := s)] else init
  }

  /** The bundles after learning the stored state of the items that had none. */
  function Learned(states: map<MessageKey, Bundle>, contact: int, stored: map<int, MessageState>, items: seq<Message>, now: int): map<MessageKey, Bundle>
  {
    if items == [] then states
    else
      var st := Learned(states, contact, stored, items[..|items| - 1], now);
      var item := items[|items| - 1];
      var k := MessageKey(contact, item.id);
      if k !in st && item.id in stored then st[k := Bundle(stored[item.id], now)] else st
  }

  /** Learning keeps every bundle and adds only the stored states of the contact's copies. */
  lemma {:induction false} LearnedAgrees(states: map<MessageKey, Bundle>, contact: int, stored: map<int, MessageState>, items: seq<Message>, now: int)
    ensures var st := Learned(states, contact, stored, items, now);
      && (forall k :: k in states ==> k in st && st[k] == states[k])
      && (forall k :: k in st && k !in states ==> k.owner == contact && k.id in stored && st[k].state == stored[k.id])
  {
    if items != [] {
      LearnedAgrees(states, contact, stored, items[..|items| - 1], now);
    }
  }

  /** Every pulled message is Sent or Read and is a cached item with only its state changed. */
  lemma {:induction false} PulledMeaning(states: map<MessageKey, Bundle>, contact: int, stored: map<int, MessageState>, items: seq<Message>)
    ensures |Pulled(states, contact, stored, items)| <= |items|
    ensures forall m :: m in Pulled(states, contact, stored, items) ==>
      Visible(m.state) && exists item :: item in items && m == item.(state := m.state)
  {
    if items != [] {
      var init := items[..|items| - 1];
      PulledMeaning(states, contact, stored, init);
      var item := items[|items| - 1];
      forall m | m in Pulled(states, contact, stored, items)
        ensures Visible(m.state) && exists x :: x in items && m == x.(state := m.state)
      {
        if m in Pulled(states, contact, stored, init) {
          var x :| x in init && m == x.(state := m.state);
          assert x in items;
        } else {
          assert item in items;
        }
      }
    }
  }

  /** The cache loop of pullMessage. */
  method PullCached(states: map<MessageKey, Bundle>, contact: int, stored: map<int, MessageState>, items: seq<Message>, now: int)
    returns (result: seq<Message>, st: map<MessageKey, Bundle>)
    ensures result == Pulled(states, contact, stored, items)
    ensures st == Learned(states, contact, stored, items, now)
  {
    result := [];
    st := states;
    for i := 0 to |items|
      invariant result == Pulled(states, contact, stored, items[..i])
      invariant st == Learned(states, contact, stored, items[..i], now)
    {
      assert items[..i + 1][..i] == items[..i];
      LearnedAgrees(states, contact, stored, items[..i], now);
      var item := items[i];
      var state := item.state;
      var key := MessageKey(contact, item.id);
      if key in st {
        state := st[key].state;
      } else if item.id in stored {
        st := st[key := Bundle(stored[item.id], now)];
        state := stored[item.id];
      }
      assert state == Effective(states, contact, stored, item);
      if Visible(state) {
        result := result + [item.(state := state)];
      }
    }
    assert items[..|items|] == items;
  }

  // ---- Recall window ------------------------------------------------------------------

  /** A message may be recalled for three minutes. */
  const RecallLimited: int := 3 * 60 * 1000

  /** The cache query of recallMessage: the sender's items within the window, bounds included. */
  function RecallWindow(cached: seq<Message>, now: int): (r: seq<Message>)
    ensures forall m :: m in r <==> m in cached && now - RecallLimited <= m.timestamp <= now
  {
    if cached == [] then []
    else
      var init := cached[..|cached| - 1];
      var m := cached[|cached| - 1];
      assert forall x :: x in cached <==> x in init || x == m by {
        assert cached == init + [m];
      }
      if now - RecallLimited <= m.timestamp <= now then RecallWindow(init, now) + [m] else RecallWindow(init, now)
  }

  /** The search of recallMessage for the sender's message. */
  method FindRecallable(window: seq<Message>, fromId: int, messageId: int) returns (found: bool)
    ensures found <==> exists m :: m in window && m.from == fromId && m.id == messageId
  {
    for i := 0 to |window|
      invariant forall j :: 0 <= j < i ==> !(window[j].from == fromId && window[j].id == messageId)
    {
      if window[i].from == fromId && window[i].id == messageId {
        return true;
      }
    }
    return false;
  }

  /** The loop of recallMessage over the copies of the message. */
  method RecallCopies(states: map<MessageKey, Bundle>, copies: seq<Message>, id: int) returns (r: map<MessageKey, Bundle>)
    ensures r == MarkEach(states, Owners(copies), id, Recalled)
  {
    r := states;
    for i := 0 to |copies|
      invariant r == MarkEach(states, Owners(copies[..i]), id, Recalled)
    {
      assert Owners(copies[..i + 1])[..i] == Owners(copies[..i]);
      r := MarkAs(r, MessageKey(copies[i].owner, id), Recalled);
    }
    assert copies[..|copies|] == copies;
  }

  // ---- The service --------------------------------------------------------------------

  /** A state written to storage: for one owner's copy, or for every copy of an id. */
  datatype StateWrite = ForOwner(owner: int, id: int, state: MessageState) | ForAll(id: int, state: MessageState)

  class MessagingService {
    /** The copies written to the cache and to storage, in order. */
    var written: seq<Message>
    var states: map<MessageKey, Bundle>
    var stateWrites: seq<StateWrite>

    constructor ()
      ensures written == [] && states == map[] && stateWrites == []
    {
      written := [];
      states := map[];
      stateWrites := [];
    }

    /** pushMessage: the result and the copies delivered, each recorded as Sent. */
    method Push(m: Message, now: int, attachmentOk: bool, blocked: set<(int, int)>, group: Option<Group>)
      returns (r: Message, code: StateCode)
      modifies this
      ensures var o := PushPlan(m, now, attachmentOk, blocked, group);
        && r == o.message && code == o.code
        && written == old(written) + o.copies
        && states == Recorded(old(states), o.copies, now)
        && stateWrites == old(stateWrites)
    {
      var o := Plan(m, now, attachmentOk, blocked, group);
      var st := RecordAll(states, o.copies, now);
      written := written + o.copies;
      states := st;
      return o.message, o.code;
    }

    /**
     * pullMessage before its final sort: the Sent or Read cached items,
     * or the stored messages when there are none.
     */
    method Pull(contact: int, items: seq<Message>, stored: map<int, MessageState>, fromStorage: seq<Message>, now: int)
      returns (result: seq<Message>)
      modifies this
      ensures var p := Pulled(old(states), contact, stored, items);
        result == (if p == [] then fromStorage else p)
      ensures states == Learned(old(states), contact, stored, items, now)
      ensures written == old(written) && stateWrites == old(stateWrites)
    {
      var cached, st := PullCached(states, contact, stored, items, now);
      states := st;
      result := cached;
      if result == [] {
        result := fromStorage;
      }
    }

    /**
     * markReadMessage: the reader's copy becomes Read; the sender's copy
     * too, when the message is not from a group, the sender is not the
     * reader and the sender's copy is Sent.
     */
    method MarkRead(contact: int, messageId: int, readerCopy: Option<Message>, senderCopy: Option<Message>)
      returns (r: Option<Message>)
      modifies this
      ensures readerCopy.None? ==> r.None? && states == old(states) && stateWrites == old(stateWrites)
      ensures readerCopy.Some? ==>
        var m := readerCopy.value;
        var notify := !FromGroup(m) && m.from != contact && senderCopy.Some? && senderCopy.value.state == Sent;
        var mine := MarkAs(old(states), MessageKey(contact, messageId), Read);
        && r == Some(m.(state := Read))
        && states == (if notify then MarkAs(mine, MessageKey(m.from, messageId), Read) else mine)
        && stateWrites == old(stateWrites) + [ForOwner(contact, messageId, Read)] +
             (if notify then [ForOwner(m.from, messageId, Read)] else [])
      ensures written == old(written)
    {
      if readerCopy.None? {
        return None;
      }
      var m := readerCopy.value;
      var mine := MarkAs(states, MessageKey(contact, messageId), Read);
      if !FromGroup(m) && m.from != contact && senderCopy.Some? && senderCopy.value.state == Sent {
        states := MarkAs(mine, MessageKey(m.from, messageId), Read);
        stateWrites := stateWrites + [ForOwner(contact, messageId, Read), ForOwner(m.from, messageId, Read)];
      } else {
        states := mine;
        stateWrites := stateWrites + [ForOwner(contact, messageId, Read)];
      }
      return Some(m.(state := Read));
    }

    /**
     * recallMessage: false unless the sender's message is in the cache
     * within the last three minutes; then every copy of the id is marked
     * Recalled in memory and in storage.
     */
    method Recall(fromId: int, messageId: int, cached: seq<Message>, copies: seq<Message>, now: int)
      returns (ok: bool)
      modifies this
      ensures ok <==> exists m :: m in cached && now - RecallLimited <= m.timestamp <= now && m.from == fromId && m.id == messageId
      ensures ok ==> states == MarkEach(old(states), Owners(copies), messageId, Recalled) &&
                     stateWrites == old(stateWrites) + [ForAll(messageId, Recalled)]
      ensures !ok ==> states == old(states) && stateWrites == old(stateWrites)
      ensures written == old(written)
    {
      var window := RecallWindow(cached, now);
      if window == [] {
        return false;
      }
      var found := FindRecallable(window, fromId, messageId);
      if !found {
        return false;
      }
      stateWrites := stateWrites + [ForAll(messageId, Recalled)];
      states := RecallCopies(states, copies, messageId);
      return true;
    }

    /** deleteMessage. */
    method Delete(contact: int, messageId: int)
      modifies this
      ensures states == MarkAs(old(states), MessageKey(contact, messageId), Deleted)
      ensures stateWrites == old(stateWrites) + [ForOwner(contact, messageId, Deleted)]
      ensures written == old(written)
    {
      states := MarkAs(states, MessageKey(contact, messageId), Deleted);
      stateWrites := stateWrites + [ForOwner(contact, messageId, Deleted)];
    }

    /** onTick: bundles older than thirty days are dropped. */
    method OnTick(now: int)
      modifies this
      ensures states == Kept(old(states), now)
      ensures written == old(written) && stateWrites == old(stateWrites)
    {
      states := DropOld(states, now);
    }
  }
}
