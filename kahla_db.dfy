/** The chat store (KahlaDbContext): the contact-list query, friendship and
    relation lookups, and the operations that add or remove conversations and
    advance read markers. Queries are functions over the store's tables;
    operations that change the store are methods of the class. */
module KahlaDb {
  import opened Linq
  import opened Entities
  import opened ContactView

  /** The exceptions the store's operations can raise. SingleOrDefault over more
      than one row throws InvalidOperationException; dereferencing a missing
      relation throws NullReferenceException. */
  datatype StoreError = MoreThanOneElement | NullReference

  // ---------------------------------------------------------------------
  // The contact list

  /** `viewer` has a membership relation in group `groupId`. */
  predicate InGroup(relations: seq<UserGroupRelation>, groupId: nat, viewer: UserId) {
    exists k :: 0 <= k < |relations| && IsMembership(relations[k], viewer, groupId)
  }

  /** The contact list shows a private conversation to its two parties and a
      group to its members. */
  predicate VisibleTo(c: Conversation, viewer: UserId, relations: seq<UserGroupRelation>) {
    match c
    case PrivateConversation(_, requester, target, _) => requester == viewer || target == viewer
    case GroupConversation(id, _, _, _, _, _) => InGroup(relations, id, viewer)
  }

  /** The messages of conversation `convId`. */
  function MessagesOf(messages: seq<Message>, convId: nat): seq<Message> {
    Where(messages, (m: Message) => m.conversationId == convId)
  }

  /** The summary of `c` for `viewer`, over the store's tables. */
  function SummaryOf(
    c: Conversation, viewer: UserId, messages: seq<Message>,
    relations: seq<UserGroupRelation>, ats: seq<At>, users: map<UserId, Profile>)
    : ContactInfo
  {
    ToContactSummary(c, viewer, MessagesOf(messages, c.id), relations, ats, users)
  }

  /** MyContacts: the summaries of the conversations visible to `viewer`, each
      once per stored conversation, in contact-list order. */
  function MyContacts(
    conversations: seq<Conversation>, messages: seq<Message>,
    relations: seq<UserGroupRelation>, ats: seq<At>, users: map<UserId, Profile>,
    viewer: UserId)
    : (r: seq<ContactInfo>)
    ensures Ordered(r)
    ensures |r| == |Where(conversations, (c: Conversation) => VisibleTo(c, viewer, relations))|
    ensures multiset(r) ==
            multiset(Select(Where(conversations, (c: Conversation) => VisibleTo(c, viewer, relations)),
                            (c: Conversation) => SummaryOf(c, viewer, messages, relations, ats, users)))
    ensures forall x :: x in r <==>
              exists c :: c in conversations && VisibleTo(c, viewer, relations) &&
                          x == SummaryOf(c, viewer, messages, relations, ats, users)
  {
    var visible := Where(conversations, (c: Conversation) => VisibleTo(c, viewer, relations));
    var summaries := Select(visible, (c: Conversation) => SummaryOf(c, viewer, messages, relations, ats, users));
    var r := SortContacts(summaries);
    SameMultisetMembers(r, summaries);
    SelectMembers(visible, (c: Conversation) => SummaryOf(c, viewer, messages, relations, ats, users));
    r
  }

  // ---------------------------------------------------------------------
  // Relations and friendships

  /** GetRelationFromGroup: the single relation of `userId` in `groupId`;
      several such relations make SingleOrDefault throw. */
  function GetRelationFromGroup(relations: seq<UserGroupRelation>, userId: UserId, groupId: nat)
    : (r: Result<Option<UserGroupRelation>, StoreError>)
    ensures r == Ok(None) <==>
              forall k :: 0 <= k < |relations| ==> !IsMembership(relations[k], userId, groupId)
    ensures r.Ok? && r.value.Some? ==>
              && r.value.value in relations
              && IsMembership(r.value.value, userId, groupId)
              && forall k :: 0 <= k < |relations| && IsMembership(relations[k], userId, groupId) ==>
                   relations[k] == r.value.value
    ensures r.Err? <==>
              exists i, j :: 0 <= i < j < |relations| &&
                IsMembership(relations[i], userId, groupId) && IsMembership(relations[j], userId, groupId)
    ensures r.Err? ==> r.error == MoreThanOneElement
  {
    match SingleOrDefault(relations, (t: UserGroupRelation) => IsMembership(t, userId, groupId))
    case NoMatch => Ok(None)
    case One(k) => Ok(Some(relations[k]))
    case Many => Err(MoreThanOneElement)
  }

  /** A private conversation between `a` and `b`, in either direction. */
  predicate IsPair(c: Conversation, a: UserId, b: UserId) {
    c.PrivateConversation? &&
    ((c.requesterId == a && c.targetId == b) || (c.requesterId == b && c.targetId == a))
  }

  /** A private conversation requested by `requester` with `target`. */
  predicate IsDirectedPair(c: Conversation, requester: UserId, target: UserId) {
    c.PrivateConversation? && c.requesterId == requester && c.targetId == target
  }

  /** FindConversationAsync: the first private conversation between the two users. */
  function FindConversation(conversations: seq<Conversation>, userId1: UserId, userId2: UserId)
    : (r: Option<Conversation>)
    ensures r.Some? ==> r.value in conversations && IsPair(r.value, userId1, userId2)
    ensures r.None? <==>
              forall k :: 0 <= k < |conversations| ==> !IsPair(conversations[k], userId1, userId2)
  {
    match FirstOrDefault(conversations, (c: Conversation) => IsPair(c, userId1, userId2))
    case None => None
    case Some(k) => Some(conversations[k])
  }

  /** The lookup does not depend on the order of the two users: it finds the
      same conversation either way round. */
  lemma FindConversationSymmetric(conversations: seq<Conversation>, a: UserId, b: UserId)
    ensures FindConversation(conversations, a, b) == FindConversation(conversations, b, a)
  {
    FirstOrDefaultAgrees(conversations,
      (c: Conversation) => IsPair(c, a, b), (c: Conversation) => IsPair(c, b, a));
  }

  /** AreFriends: some private conversation joins the two users. */
  function AreFriends(conversations: seq<Conversation>, userId1: UserId, userId2: UserId)
    : (r: bool)
    ensures r <==> exists k :: 0 <= k < |conversations| && IsPair(conversations[k], userId1, userId2)
  {
    FindConversation(conversations, userId1, userId2).Some?
  }

  lemma AreFriendsSymmetric(conversations: seq<Conversation>, a: UserId, b: UserId)
    ensures AreFriends(conversations, a, b) == AreFriends(conversations, b, a)
  {
    FindConversationSymmetric(conversations, a, b);
  }

  /** How many private conversations join the two users. */
  function PairCount(conversations: seq<Conversation>, a: UserId, b: UserId): nat {
    Count(conversations, (c: Conversation) => IsPair(c, a, b))
  }

  lemma AreFriendsIffPairCount(conversations: seq<Conversation>, a: UserId, b: UserId)
    ensures AreFriends(conversations, a, b) <==> PairCount(conversations, a, b) > 0
  {
    CountZeroIff(conversations, (c: Conversation) => IsPair(c, a, b));
  }

  /** Appending a conversation for the pair adds one to the count; any other
      conversation leaves it. */
  lemma PairCountAppend(conversations: seq<Conversation>, c: Conversation, a: UserId, b: UserId)
    ensures PairCount(conversations + [c], a, b) ==
            PairCount(conversations, a, b) + (if IsPair(c, a, b) then 1 else 0)
  {
    CountAppend(conversations, [c], (x: Conversation) => IsPair(x, a, b));
    assert [c][1..] == [];
  }

  /** When one conversation joins `a` and `b` and it is removed, they are no longer friends. */
  lemma RemovingOnlyPairEndsFriendship(conversations: seq<Conversation>, k: nat, a: UserId, b: UserId)
    requires k < |conversations| && IsPair(conversations[k], a, b)
    requires PairCount(conversations, a, b) == 1
    ensures !AreFriends(conversations[..k] + conversations[k + 1..], a, b)
  {
    var p := (x: Conversation) => IsPair(x, a, b);
    assert conversations == conversations[..k] + [conversations[k]] + conversations[k + 1..];
    CountAppend(conversations[..k] + [conversations[k]], conversations[k + 1..], p);
    CountAppend(conversations[..k], [conversations[k]], p);
    CountAppend(conversations[..k], conversations[k + 1..], p);
    assert [conversations[k]][1..] == [];
    AreFriendsIffPairCount(conversations[..k] + conversations[k + 1..], a, b);
  }

  /** The lookup RemoveFriend makes for one direction of the pair. */
  function DirectedLookup(conversations: seq<Conversation>, requester: UserId, target: UserId): Single {
    SingleOrDefault(conversations, (c: Conversation) => IsDirectedPair(c, requester, target))
  }

  /** With neither direction stored, the two users are not friends. */
  lemma NoDirectedLookupNotFriends(conversations: seq<Conversation>, a: UserId, b: UserId)
    requires DirectedLookup(conversations, a, b).NoMatch? && DirectedLookup(conversations, b, a).NoMatch?
    ensures !AreFriends(conversations, a, b)
  {
    forall k | 0 <= k < |conversations| ensures !IsPair(conversations[k], a, b) {
      assert !IsDirectedPair(conversations[k], a, b);
      assert !IsDirectedPair(conversations[k], b, a);
    }
  }

  /** Removing the entry at `k` shifts the later entries down by one. */
  lemma RemoveAtShifts<T>(s: seq<T>, k: nat, t: seq<T>)
    requires k < |s| && t == s[..k] + s[k + 1..]
    ensures |t| == |s| - 1
    ensures forall j :: 0 <= j < k ==> t[j] == s[j]
    ensures forall j :: k <= j < |t| ==> t[j] == s[j + 1]
  {
  }

  // ---------------------------------------------------------------------
  // Read markers of private conversations

  /** Message `m` comes from the other party of conversation `convId` and has been read. */
  predicate IsReadIncoming(m: Message, convId: nat, viewer: UserId) {
    m.conversationId == convId && m.senderId != viewer && m.read
  }

  /** Message `m` comes from the other party of conversation `convId` and is unread. */
  predicate IsUnreadIncoming(m: Message, convId: nat, viewer: UserId) {
    m.conversationId == convId && UnreadByViewer(m, viewer)
  }

  /** The send time of the latest already-read message from the other party,
      or DateTime.MinValue when there is none. */
  function LastReadFromOther(messages: seq<Message>, convId: nat, viewer: UserId): (t: Time)
    ensures forall k :: 0 <= k < |messages| && IsReadIncoming(messages[k], convId, viewer) ==>
              messages[k].sendTime <= t
    ensures t == MinValue ||
            exists k :: 0 <= k < |messages| && IsReadIncoming(messages[k], convId, viewer) &&
                        messages[k].sendTime == t
  {
    if messages == [] then MinValue
    else
      var rest := LastReadFromOther(messages[1..], convId, viewer);
      assert forall k :: 1 <= k < |messages| ==> messages[k] == messages[1..][k - 1];
      if IsReadIncoming(messages[0], convId, viewer) && messages[0].sendTime > rest
      then messages[0].sendTime
      else rest
  }

  function MarkRead(m: Message, convId: nat, viewer: UserId): Message {
    if IsUnreadIncoming(m, convId, viewer) then m.(read := true) else m
  }

  /** The message table after the viewer opens private conversation `convId`:
      only read flags change, only from false to true, and exactly on the
      unread messages of that conversation sent by the other party. */
  function MarkAllRead(messages: seq<Message>, convId: nat, viewer: UserId): (r: seq<Message>)
    ensures |r| == |messages|
    ensures forall k :: 0 <= k < |r| ==> r[k] == messages[k].(read := r[k].read)
    ensures forall k :: 0 <= k < |r| ==> messages[k].read ==> r[k].read
    ensures forall k :: 0 <= k < |r| ==> (r[k] != messages[k] <==> IsUnreadIncoming(messages[k], convId, viewer))
  {
    Select(messages, (m: Message) => MarkRead(m, convId, viewer))
  }

  /** Opening the conversation twice changes nothing more. */
  lemma MarkAllReadIdempotent(messages: seq<Message>, convId: nat, viewer: UserId)
    ensures MarkAllRead(MarkAllRead(messages, convId, viewer), convId, viewer) ==
            MarkAllRead(messages, convId, viewer)
  {
    var once := MarkAllRead(messages, convId, viewer);
    var twice := MarkAllRead(once, convId, viewer);
    forall k | 0 <= k < |once| ensures twice[k] == once[k] {
      assert !IsUnreadIncoming(once[k], convId, viewer);
    }
  }

  /** The marker a later call returns is never earlier than this one. */
  lemma {:induction false} LastReadMonotone(messages: seq<Message>, convId: nat, viewer: UserId)
    ensures LastReadFromOther(messages, convId, viewer) <=
            LastReadFromOther(MarkAllRead(messages, convId, viewer), convId, viewer)
  {
    var t := LastReadFromOther(messages, convId, viewer);
    var after := MarkAllRead(messages, convId, viewer);
    if t != MinValue {
      var k :| 0 <= k < |messages| && IsReadIncoming(messages[k], convId, viewer) &&
               messages[k].sendTime == t;
      assert after[k] == messages[k];
      assert IsReadIncoming(after[k], convId, viewer);
    }
  }

  /** After the flags are flipped, the viewer's summary of that private
      conversation shows nothing unread. */
  lemma MarkAllReadClearsUnread(
    c: Conversation, viewer: UserId, messages: seq<Message>,
    relations: seq<UserGroupRelation>, ats: seq<At>, users: map<UserId, Profile>)
    requires c.PrivateConversation?
    ensures SummaryOf(c, viewer, MarkAllRead(messages, c.id, viewer), relations, ats, users).unReadAmount == 0
  {
    var after := MarkAllRead(messages, c.id, viewer);
    var msgs := MessagesOf(after, c.id);
    forall i | 0 <= i < |msgs| ensures msgs[i].read || msgs[i].senderId == viewer {
      assert msgs[i] in after;
      var k :| 0 <= k < |after| && after[k] == msgs[i];
    }
    PrivateUnreadZeroIff(c, viewer, msgs, relations, ats, users);
  }

  // ---------------------------------------------------------------------
  // Read markers of groups

  /** The relation table after `viewer`'s marker in its relation at `k` is set to `now`. */
  lemma GroupMarkerUpdate(
    c: Conversation, viewer: UserId, messages: seq<Message>,
    relations: seq<UserGroupRelation>, ats: seq<At>, users: map<UserId, Profile>,
    k: nat, now: Time)
    requires c.GroupConversation?
    requires SingleOrDefault(relations, (t: UserGroupRelation) => IsMembership(t, viewer, c.id)) == One(k)
    ensures var s := SummaryOf(c, viewer, messages, relations[k := relations[k].(readTimeStamp := now)], ats, users);
            && s.unReadAmount == GroupUnread(MessagesOf(messages, c.id), now)
            && (s.someoneAtMe <==> UnreadMention(MessagesOf(messages, c.id), ats, now, viewer))
            && s.muted == relations[k].muted
            && ((forall m :: m in MessagesOf(messages, c.id) ==> m.sendTime <= now) ==>
                  s.unReadAmount == 0 && !s.someoneAtMe)
  {
    var updated := relations[k := relations[k].(readTimeStamp := now)];
    var rel := updated[k];
    var msgs := MessagesOf(messages, c.id);
    var v := ViewerRelation(updated, c.id, viewer);
    assert IsMembership(rel, viewer, c.id);
    assert v == Some(rel) by {
      assert v.Some?;
      var j :| 0 <= j < |updated| && updated[j] == v.value;
      assert IsMembership(relations[j], viewer, c.id);
    }
    GroupSummaryFromMarker(c, viewer, msgs, updated, ats, users, rel);
    if forall m :: m in msgs ==> m.sendTime <= now {
      forall i | 0 <= i < |msgs| ensures msgs[i].sendTime <= now {
        assert msgs[i] in msgs;
      }
    }
  }

  /** A group member with marker `t0` is mentioned in the group's only message,
      sent after `t0`: the contact list shows one unread message and the
      mention; once the marker moves to a `now` no earlier than that message,
      it shows neither. */
  lemma MentionThenRead(
    c: Conversation, viewer: UserId, messages: seq<Message>,
    relations: seq<UserGroupRelation>, ats: seq<At>, users: map<UserId, Profile>,
    k: nat, msg: Message, now: Time)
    requires c.GroupConversation?
    requires SingleOrDefault(relations, (t: UserGroupRelation) => IsMembership(t, viewer, c.id)) == One(k)
    requires MessagesOf(messages, c.id) == [msg]
    requires msg.sendTime > relations[k].readTimeStamp && msg.sendTime <= now
    requires At(msg.id, viewer) in ats
    ensures var before := SummaryOf(c, viewer, messages, relations, ats, users);
            before.someoneAtMe && before.unReadAmount == 1
    ensures var after := SummaryOf(c, viewer, messages,
                           relations[k := relations[k].(readTimeStamp := now)], ats, users);
            !after.someoneAtMe && after.unReadAmount == 0
  {
    var t0 := relations[k].readTimeStamp;
    GroupMarkerUpdate(c, viewer, messages, relations, ats, users, k, t0);
    assert relations[k := relations[k].(readTimeStamp := t0)] == relations;
    var j :| 0 <= j < |ats| && ats[j] == At(msg.id, viewer);
    assert MentionsUser(ats, msg, viewer);
    assert UnreadMention([msg], ats, t0, viewer) by {
      assert [msg][0] == msg;
    }
    assert GroupUnread([msg], t0) == 1 by {
      assert [msg][1..] == [];
    }
    GroupMarkerUpdate(c, viewer, messages, relations, ats, users, k, now);
  }

  // ---------------------------------------------------------------------
  // The store

  class KahlaDbContext {
    var conversations: seq<Conversation>
    var messages: seq<Message>
    var relations: seq<UserGroupRelation>
    var ats: seq<At>
    var devices: seq<Device>
    var users: map<UserId, Profile>
    /** The identity value the next inserted conversation receives. */
    var nextId: nat

    /** Conversation ids are a key: distinct, and each issued before `nextId`. */
    ghost predicate Valid()
      reads this
    {
      && (forall k :: 0 <= k < |conversations| ==> conversations[k].id < nextId)
      && (forall i, j :: 0 <= i < j < |conversations| ==> conversations[i].id != conversations[j].id)
    }

    constructor ()
      ensures Valid()
      ensures conversations == [] && messages == [] && relations == [] && ats == []
      ensures devices == [] && users == map[] && nextId == 0
    {
      conversations, messages, relations, ats, devices := [], [], [], [], [];
      users, nextId := map[], 0;
    }

    /** AddFriend: stores one new private conversation from `userId1` to
        `userId2`, whether or not the two are friends already. */
    method AddFriend(userId1: UserId, userId2: UserId, aesKey: string) returns (c: Conversation)
      requires Valid()
      modifies this`conversations, this`nextId
      ensures Valid()
      ensures c == PrivateConversation(old(nextId), userId1, userId2, aesKey)
      ensures nextId == old(nextId) + 1
      ensures forall k :: 0 <= k < |old(conversations)| ==> old(conversations)[k].id != c.id
      ensures conversations == old(conversations) + [c]
      ensures PairCount(conversations, userId1, userId2) == old(PairCount(conversations, userId1, userId2)) + 1
      ensures AreFriends(conversations, userId1, userId2)
    {
      c := PrivateConversation(nextId, userId1, userId2, aesKey);
      PairCountAppend(conversations, c, userId1, userId2);
      conversations := conversations + [c];
      nextId := nextId + 1;
      assert conversations[|conversations| - 1] == c;
    }

    /** CreateGroup: stores a new group owned by `creatorId`; a missing join
        password is stored as the empty string (open join). */
    method CreateGroup(
      groupName: string, creatorId: UserId, joinPassword: Option<string>,
      groupImagePath: string, aesKey: string)
      returns (g: Conversation)
      requires Valid()
      modifies this`conversations, this`nextId
      ensures Valid()
      ensures g.GroupConversation? && g.id == old(nextId)
      ensures nextId == old(nextId) + 1
      ensures g.groupName == groupName && g.ownerId == creatorId
      ensures g.groupImagePath == groupImagePath && g.aesKey == aesKey
      ensures g.joinPassword == (match joinPassword case Some(p) => p case None => "")
      ensures forall k :: 0 <= k < |old(conversations)| ==> old(conversations)[k].id != g.id
      ensures conversations == old(conversations) + [g]
    {
      var password := match joinPassword case Some(p) => p case None => "";
      g := GroupConversation(nextId, groupName, groupImagePath, creatorId, password, aesKey);
      conversations := conversations + [g];
      nextId := nextId + 1;
    }

    /** RemoveFriend: removes the conversation from `userId1` to `userId2`, or
        else the one from `userId2` to `userId1`, and returns its id; returns -1
        and removes nothing when neither exists. Both lookups are
        SingleOrDefault, so a duplicated direction throws. */
    method RemoveFriend(userId1: UserId, userId2: UserId) returns (r: Result<int, StoreError>)
      requires Valid()
      modifies this`conversations
      ensures Valid()
      ensures var fwd := DirectedLookup(old(conversations), userId1, userId2);
              var bwd := DirectedLookup(old(conversations), userId2, userId1);
              && (fwd.Many? || bwd.Many? ==>
                    r == Err(MoreThanOneElement) && conversations == old(conversations))
              && (fwd.One? && !bwd.Many? ==>
                    && r == Ok(old(conversations)[fwd.index].id)
                    && conversations == old(conversations)[..fwd.index] + old(conversations)[fwd.index + 1..])
              && (fwd.NoMatch? && bwd.One? ==>
                    && r == Ok(old(conversations)[bwd.index].id)
                    && conversations == old(conversations)[..bwd.index] + old(conversations)[bwd.index + 1..])
              && (fwd.NoMatch? && bwd.NoMatch? ==>
                    r == Ok(-1) && conversations == old(conversations))
      ensures r == Ok(-1) ==>
                !old(AreFriends(conversations, userId1, userId2)) && conversations == old(conversations)
      ensures r.Ok? && r.value != -1 ==> |conversations| == |old(conversations)| - 1
    {
      var relation := DirectedLookup(conversations, userId1, userId2);
      var belation := DirectedLookup(conversations, userId2, userId1);
      if relation.Many? || belation.Many? {
        return Err(MoreThanOneElement);
      }
      if relation.One? || belation.One? {
        var k := if relation.One? then relation.index else belation.index;
        RemoveAtShifts(conversations, k, conversations[..k] + conversations[k + 1..]);
        r := Ok(conversations[k].id);
        conversations := conversations[..k] + conversations[k + 1..];
        return;
      }
      NoDirectedLookupNotFriends(conversations, userId1, userId2);
      r := Ok(-1);
    }

    /** SetLastRead: returns the viewer's read marker as it was, then advances
        it. Private: the marker is the latest already-read message from the
        other party, and every unread message from the other party becomes
        read. Group: the marker is the relation's ReadTimeStamp, which becomes
        `now`. */
    method SetLastRead(conversation: Conversation, userId: UserId, now: Time)
      returns (r: Result<Time, StoreError>)
      requires Valid()
      modifies this`messages, this`relations
      ensures Valid()
      ensures conversation.PrivateConversation? ==>
                && r == Ok(LastReadFromOther(old(messages), conversation.id, userId))
                && messages == MarkAllRead(old(messages), conversation.id, userId)
                && relations == old(relations)
      ensures conversation.GroupConversation? ==>
                var found := SingleOrDefault(old(relations),
                               (t: UserGroupRelation) => IsMembership(t, userId, conversation.id));
                && messages == old(messages)
                && (found.Many? ==> r == Err(MoreThanOneElement) && relations == old(relations))
                && (found.NoMatch? ==> r == Err(NullReference) && relations == old(relations))
                && (found.One? ==>
                      && r == Ok(old(relations)[found.index].readTimeStamp)
                      && relations == old(relations)[found.index :=
                                        old(relations)[found.index].(readTimeStamp := now)])
    {
      match conversation
      case PrivateConversation(id, _, _, _) =>
        r := Ok(LastReadFromOther(messages, id, userId));
        var i := 0;
        while i < |messages|
          invariant 0 <= i <= |messages| == |old(messages)|
          invariant forall k :: 0 <= k < i ==> messages[k] == MarkRead(old(messages)[k], id, userId)
          invariant forall k :: i <= k < |messages| ==> messages[k] == old(messages)[k]
          invariant relations == old(relations)
        {
          if IsUnreadIncoming(messages[i], id, userId) {
            messages := messages[i := messages[i].(read := true)];
          }
          i := i + 1;
        }
      case GroupConversation(id, _, _, _, _, _) =>
        var found := SingleOrDefault(relations, (t: UserGroupRelation) => IsMembership(t, userId, id));
        match found
        case Many =>
          r := Err(MoreThanOneElement);
        case NoMatch =>
          r := Err(NullReference);
        case One(k) =>
          r := Ok(relations[k].readTimeStamp);
          relations := relations[k := relations[k].(readTimeStamp := now)];
    }
  }
}
