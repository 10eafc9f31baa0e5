/** The per-viewer contact summary of one conversation (the ContactInfo record
    and its projection from private and group conversations), and the order
    of the contact list. */
module ContactView {
  import opened Linq
  import opened Entities

  datatype ContactInfo = ContactInfo(
    displayName: string,
    displayImagePath: string,
    latestMessage: Option<Message>,
    unReadAmount: nat,
    conversationId: nat,
    discriminator: string,
    userId: UserId,
    aesKey: string,
    muted: bool,
    someoneAtMe: bool)

  /** The message with the greatest send time (the first such one on a tie), if any. */
  function Latest(msgs: seq<Message>): (r: Option<Message>)
    ensures r.None? <==> msgs == []
    ensures r.Some? ==> r.value in msgs &&
                        forall m :: m in msgs ==> m.sendTime <= r.value.sendTime
  {
    if msgs == [] then None
    else match Latest(msgs[1..])
      case None => Some(msgs[0])
      case Some(m) => if m.sendTime > msgs[0].sendTime then Some(m) else Some(msgs[0])
  }

  /** The other party of a private conversation, as seen by `viewer`. */
  function PeerOf(c: Conversation, viewer: UserId): (peer: UserId)
    requires c.PrivateConversation?
    ensures peer == c.requesterId || peer == c.targetId
    ensures peer == viewer <==> c.requesterId == viewer && c.targetId == viewer
    ensures viewer == c.requesterId || viewer == c.targetId ==>
              {viewer, peer} == {c.requesterId, c.targetId}
  {
    if viewer == c.requesterId then c.targetId else c.requesterId
  }

  function ProfileOf(users: map<UserId, Profile>, id: UserId): Profile {
    if id in users then users[id] else NoProfile
  }

  /** A private message the viewer has not read yet: unread and from the other party. */
  predicate UnreadByViewer(m: Message, viewer: UserId) {
    !m.read && m.senderId != viewer
  }

  /** The viewer's relation in a group, as the projection's subquery finds it. */
  function ViewerRelation(relations: seq<UserGroupRelation>, groupId: nat, viewer: UserId)
    : (r: Option<UserGroupRelation>)
    ensures r.Some? ==> r.value in relations && IsMembership(r.value, viewer, groupId)
    ensures r.None? <==> forall k :: 0 <= k < |relations| ==> !IsMembership(relations[k], viewer, groupId)
  {
    match FirstOrDefault(relations, rel => IsMembership(rel, viewer, groupId))
    case None => None
    case Some(k) => Some(relations[k])
  }

  /** Message `m` carries a mention record targeting `viewer`. */
  predicate MentionsUser(ats: seq<At>, m: Message, viewer: UserId) {
    exists k :: 0 <= k < |ats| && ats[k].messageId == m.id && ats[k].targetUserId == viewer
  }

  /** Some message newer than `marker` mentions `viewer`. */
  predicate UnreadMention(msgs: seq<Message>, ats: seq<At>, marker: Time, viewer: UserId) {
    exists i :: 0 <= i < |msgs| && msgs[i].sendTime > marker && MentionsUser(ats, msgs[i], viewer)
  }

  function GroupUnread(msgs: seq<Message>, marker: Time): nat {
    Count(msgs, (m: Message) => m.sendTime > marker)
  }

  /** Some message satisfying `p` exists, so the count is positive. */
  lemma {:induction false} CountPositive<T>(s: seq<T>, p: T -> bool, i: nat)
    requires i < |s| && p(s[i])
    ensures Count(s, p) > 0
  {
    CountZeroIff(s, p);
  }

  /** The summary of conversation `c` for `viewer`. `msgs` are the messages of
      `c`, `relations` and `ats` the membership and mention tables, `users` the
      profiles. A group viewer without a relation sees the SQL outcome of
      comparing against a missing row: nothing unread, not muted, no mention. */
  function ToContactSummary(
    c: Conversation, viewer: UserId, msgs: seq<Message>,
    relations: seq<UserGroupRelation>, ats: seq<At>, users: map<UserId, Profile>)
    : (r: ContactInfo)
    ensures r.conversationId == c.id && r.aesKey == c.aesKey
    ensures r.unReadAmount <= |msgs|
    ensures r.latestMessage == Latest(msgs)
    ensures r.someoneAtMe ==> r.unReadAmount > 0
    ensures c.PrivateConversation? ==>
              && r.discriminator == "PrivateConversation"
              && !r.muted && !r.someoneAtMe
              && r.userId == PeerOf(c, viewer)
              && (r.userId == c.requesterId || r.userId == c.targetId)
              && (r.userId == viewer <==> c.requesterId == viewer && c.targetId == viewer)
              && r.displayName == ProfileOf(users, r.userId).nickName
              && r.displayImagePath == ProfileOf(users, r.userId).iconFilePath
    ensures c.GroupConversation? ==>
              && r.discriminator == "GroupConversation"
              && r.displayName == c.groupName
              && r.displayImagePath == c.groupImagePath
              && r.userId == c.ownerId
  {
    match c
    case PrivateConversation(id, _, _, key) =>
      var peer := PeerOf(c, viewer);
      ContactInfo(
        ProfileOf(users, peer).nickName, ProfileOf(users, peer).iconFilePath,
        Latest(msgs), Count(msgs, m => UnreadByViewer(m, viewer)),
        id, "PrivateConversation", peer, key, false, false)
    case GroupConversation(id, name, image, owner, _, key) =>
      var rel := ViewerRelation(relations, id, viewer);
      var atMe := rel.Some? && UnreadMention(msgs, ats, rel.value.readTimeStamp, viewer);
      assert atMe ==> GroupUnread(msgs, rel.value.readTimeStamp) > 0 by {
        if atMe {
          var i :| 0 <= i < |msgs| && msgs[i].sendTime > rel.value.readTimeStamp
                   && MentionsUser(ats, msgs[i], viewer);
          CountPositive(msgs, (m: Message) => m.sendTime > rel.value.readTimeStamp, i);
        }
      }
      ContactInfo(
        name, image, Latest(msgs),
        if rel.Some? then GroupUnread(msgs, rel.value.readTimeStamp) else 0,
        id, "GroupConversation", owner, key,
        rel.Some? && rel.value.muted, atMe)
  }

  /** Private: the unread amount is zero exactly when every message is read or the viewer's own. */
  lemma PrivateUnreadZeroIff(
    c: Conversation, viewer: UserId, msgs: seq<Message>,
    relations: seq<UserGroupRelation>, ats: seq<At>, users: map<UserId, Profile>)
    requires c.PrivateConversation?
    ensures ToContactSummary(c, viewer, msgs, relations, ats, users).unReadAmount == 0 <==>
            forall i :: 0 <= i < |msgs| ==> msgs[i].read || msgs[i].senderId == viewer
  {
    CountZeroIff(msgs, m => UnreadByViewer(m, viewer));
  }

  /** Private: one more message raises the unread amount by one exactly when it
      is unread and from the other party. With the zero case above, the amount
      is the number of such messages. */
  lemma PrivateUnreadAppend(
    c: Conversation, viewer: UserId, msgs: seq<Message>, next: Message,
    relations: seq<UserGroupRelation>, ats: seq<At>, users: map<UserId, Profile>)
    requires c.PrivateConversation?
    ensures ToContactSummary(c, viewer, msgs + [next], relations, ats, users).unReadAmount ==
            ToContactSummary(c, viewer, msgs, relations, ats, users).unReadAmount +
            (if UnreadByViewer(next, viewer) then 1 else 0)
  {
    CountAppend(msgs, [next], m => UnreadByViewer(m, viewer));
    assert [next][1..] == [];
  }

  /** Group, viewer with relation `rel`: the unread amount is zero exactly when no
      message is newer than the marker; the mention flag is an unread message
      mentioning the viewer; the mute flag is the relation's. */
  lemma GroupSummaryFromMarker(
    c: Conversation, viewer: UserId, msgs: seq<Message>,
    relations: seq<UserGroupRelation>, ats: seq<At>, users: map<UserId, Profile>,
    rel: UserGroupRelation)
    requires c.GroupConversation?
    requires ViewerRelation(relations, c.id, viewer) == Some(rel)
    ensures var r := ToContactSummary(c, viewer, msgs, relations, ats, users);
            && (r.unReadAmount == 0 <==>
                  forall i :: 0 <= i < |msgs| ==> msgs[i].sendTime <= rel.readTimeStamp)
            && (r.someoneAtMe <==> UnreadMention(msgs, ats, rel.readTimeStamp, viewer))
            && r.muted == rel.muted
  {
    CountZeroIff(msgs, (m: Message) => m.sendTime > rel.readTimeStamp);
  }

  // ---------------------------------------------------------------------
  // Order of the contact list: SomeoneAtMe descending, then the latest
  // message's send time descending, a conversation without messages counting
  // as DateTime.MinValue.

  function LatestTime(x: ContactInfo): Time {
    match x.latestMessage
    case None => MinValue
    case Some(m) => m.sendTime
  }

  /** `x` may stand before `y` in the contact list. */
  predicate Precedes(x: ContactInfo, y: ContactInfo) {
    || (x.someoneAtMe && !y.someoneAtMe)
    || (x.someoneAtMe == y.someoneAtMe && LatestTime(x) >= LatestTime(y))
  }

  predicate Ordered(s: seq<ContactInfo>) {
    forall i, j :: 0 <= i < j < |s| ==> Precedes(s[i], s[j])
  }

  /** `y` may stand before every entry of `t`. */
  predicate PrecedesAll(y: ContactInfo, t: seq<ContactInfo>) {
    forall j :: 0 <= j < |t| ==> Precedes(y, t[j])
  }

  /** An entry that precedes `x` and all of `t` precedes any arrangement of them. */
  lemma PrecedesAllByMultiset(y: ContactInfo, x: ContactInfo, t: seq<ContactInfo>, u: seq<ContactInfo>)
    requires Precedes(y, x) && PrecedesAll(y, t)
    requires multiset(u) == multiset{x} + multiset(t)
    ensures PrecedesAll(y, u)
  {
    forall j | 0 <= j < |u| ensures Precedes(y, u[j]) {
      assert u[j] in multiset(u);
      if u[j] != x {
        assert u[j] in multiset(t);
        var i :| 0 <= i < |t| && t[i] == u[j];
      }
    }
  }

  /** Putting an entry that precedes all of an ordered list in front keeps it ordered. */
  lemma OrderedCons(y: ContactInfo, t: seq<ContactInfo>)
    requires PrecedesAll(y, t) && Ordered(t)
    ensures Ordered([y] + t)
  {
    forall i, j | 0 <= i < j < |[y] + t| ensures Precedes(([y] + t)[i], ([y] + t)[j]) {
      if i > 0 {
        assert ([y] + t)[i] == t[i - 1] && ([y] + t)[j] == t[j - 1];
      } else {
        assert ([y] + t)[j] == t[j - 1];
      }
    }
  }

  /** Inserts `x` before the first entry it may precede; equal keys keep `x` first. */
  function InsertContact(x: ContactInfo, s: seq<ContactInfo>): (r: seq<ContactInfo>)
    requires Ordered(s)
    ensures Ordered(r)
    ensures multiset(r) == multiset{x} + multiset(s)
  {
    if s == [] then [x]
    else if Precedes(x, s[0]) then
      assert PrecedesAll(x, s) by {
        forall j | 0 <= j < |s| ensures Precedes(x, s[j]) {
          if j > 0 {
            assert Precedes(s[0], s[j]);
          }
        }
      }
      OrderedCons(x, s);
      [x] + s
    else
      var rest := InsertContact(x, s[1..]);
      assert s == [s[0]] + s[1..];
      assert PrecedesAll(s[0], s[1..]) by {
        forall j | 0 <= j < |s[1..]| ensures Precedes(s[0], s[1..][j]) {
          assert s[1..][j] == s[j + 1];
        }
      }
      PrecedesAllByMultiset(s[0], x, s[1..], rest);
      OrderedCons(s[0], rest);
      [s[0]] + rest
  }

  /** The contact list order, as a stable insertion sort. */
  function SortContacts(s: seq<ContactInfo>): (r: seq<ContactInfo>)
    ensures Ordered(r)
    ensures multiset(r) == multiset(s)
  {
    if s == [] then []
    else
      assert s == [s[0]] + s[1..];
      InsertContact(s[0], SortContacts(s[1..]))
  }
}
