/** The rows of the chat store and the user record, as far as the contact list,
    the read markers and the push channel use them. */
module Entities {

  type UserId = string

  /** A send time or read marker, in ticks; DateTime.MinValue is tick 0. */
  type Time = nat

  const MinValue: Time := 0

  /** A message row. `read` is only meaningful in private conversations. */
  datatype Message = Message(
    id: nat,
    conversationId: nat,
    senderId: UserId,
    sendTime: Time,
    read: bool)

  /** A mention record: message `messageId` mentions `targetUserId`. */
  datatype At = At(messageId: nat, targetUserId: UserId)

  /** Membership of a user in a group, with the user's read marker and mute flag. */
  datatype UserGroupRelation = UserGroupRelation(
    userId: UserId,
    groupId: nat,
    readTimeStamp: Time,
    muted: bool)

  /** The relation row of `userId` in group `groupId`. */
  predicate IsMembership(r: UserGroupRelation, userId: UserId, groupId: nat) {
    r.userId == userId && r.groupId == groupId
  }

  /** A conversation is exactly one of the two kinds. */
  datatype Conversation =
    | PrivateConversation(id: nat, requesterId: UserId, targetId: UserId, aesKey: string)
    | GroupConversation(
        id: nat,
        groupName: string,
        groupImagePath: string,
        ownerId: UserId,
        joinPassword: string,
        aesKey: string)

  /** The profile fields of a user that a contact summary shows. */
  datatype Profile = Profile(nickName: string, iconFilePath: string)

  const NoProfile := Profile("", "")

  /** A registered client device of a user. */
  datatype Device = Device(id: nat, userId: UserId)

  /** The user record that the authentication controller reads and updates. */
  class KahlaUser {
    const id: UserId
    var nickName: string
    var iconFilePath: string
    var bio: string
    var makeEmailPublic: bool
    var themeId: int
    var enableEmailNotification: bool
    /** The stored push channel; -1 means none has been allocated. */
    var currentChannel: int
    var connectKey: string

    constructor (id: UserId)
      ensures this.id == id && currentChannel == -1 && connectKey == ""
    {
      this.id := id;
      nickName, iconFilePath, bio := "", "", "";
      makeEmailPublic, themeId, enableEmailNotification := false, 0, false;
      currentChannel, connectKey := -1, "";
    }
  }
}
