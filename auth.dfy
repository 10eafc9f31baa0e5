/** The account actions of the authentication controller that change the
    store or the user record: the self-friendship made at password login,
    push-channel provisioning, profile and client-setting updates, and the
    device removal at log-off. The identity server, the channel service and
    the push service are parameters: their answers are given, not computed. */
module Auth {
  import opened Linq
  import opened Entities
  import opened ContactView
  import opened KahlaDb

  /** The protocol codes these actions answer with. */
  datatype ErrorType = Success | Unauthorized | RequireAttention

  /** A push channel as the channel service hands it out. */
  datatype ChannelDescriptor = ChannelDescriptor(channelId: int, connectKey: string)

  /** The id and key that the listening address of the channel carries. */
  datatype ChannelAddress = ChannelAddress(id: int, key: string)

  datatype InitPusherViewModel = InitPusherViewModel(
    code: ErrorType,
    channelId: int,
    connectKey: string,
    serverPath: ChannelAddress)

  /** The descriptor stored on a user. */
  function StoredChannel(user: KahlaUser): ChannelDescriptor
    reads user
  {
    ChannelDescriptor(user.currentChannel, user.connectKey)
  }

  /** A stored descriptor is kept when a channel was issued (-1 means none)
      and the channel service accepts it. */
  predicate Reusable(stored: ChannelDescriptor, validate: (int, string) -> bool) {
    stored.channelId != -1 && validate(stored.channelId, stored.connectKey)
  }

  /** The descriptor after provisioning: the stored one if reusable, else the
      freshly issued one. */
  function Provision(
    stored: ChannelDescriptor, validate: (int, string) -> bool, issued: ChannelDescriptor)
    : ChannelDescriptor
  {
    if Reusable(stored, validate) then stored else issued
  }

  /** When the service hands out channels it accepts, provisioning always ends
      with a reusable descriptor, and provisioning again keeps it. */
  lemma ProvisionSettles(
    stored: ChannelDescriptor, validate: (int, string) -> bool,
    issued: ChannelDescriptor, later: ChannelDescriptor)
    requires Reusable(issued, validate)
    ensures Reusable(Provision(stored, validate, issued), validate)
    ensures Provision(Provision(stored, validate, issued), validate, later) ==
            Provision(stored, validate, issued)
  {
  }

  /** Provisioning replaces the whole descriptor or none of it: the channel id
      changes only together with the key's source. */
  lemma ProvisionWholesale(
    stored: ChannelDescriptor, validate: (int, string) -> bool, issued: ChannelDescriptor)
    ensures var d := Provision(stored, validate, issued);
            (d == stored) || (d == issued && !Reusable(stored, validate))
    ensures stored.channelId == -1 ==> Provision(stored, validate, issued) == issued
  {
  }

  /** InitPusher: reuses the user's stored channel when it is valid, otherwise
      stores `issued` (what the push service returns for the user), and
      answers with the descriptor now stored. */
  method InitPusher(
    user: KahlaUser, validate: (int, string) -> bool, issued: ChannelDescriptor)
    returns (model: InitPusherViewModel)
    modifies user`currentChannel, user`connectKey
    ensures StoredChannel(user) == Provision(old(StoredChannel(user)), validate, issued)
    ensures !Reusable(old(StoredChannel(user)), validate) ==>
              user.currentChannel == issued.channelId && user.connectKey == issued.connectKey
    ensures Reusable(old(StoredChannel(user)), validate) ==>
              user.currentChannel == old(user.currentChannel) && user.connectKey == old(user.connectKey)
    ensures model.code == Success
    ensures model.channelId == user.currentChannel && model.connectKey == user.connectKey
    ensures model.serverPath == ChannelAddress(user.currentChannel, user.connectKey)
  {
    if user.currentChannel == -1 || !validate(user.currentChannel, user.connectKey) {
      user.currentChannel := issued.channelId;
      user.connectKey := issued.connectKey;
    }
    model := InitPusherViewModel(
      Success, user.currentChannel, user.connectKey,
      ChannelAddress(user.currentChannel, user.connectKey));
  }

  /** AuthByPassword: `authenticated` is the identity server's verdict on the
      credentials and `userId` the user it signs in. A signed-in user gets a
      conversation with itself unless one exists already. */
  method AuthByPassword(db: KahlaDbContext, authenticated: bool, userId: UserId, aesKey: string)
    returns (code: ErrorType)
    requires db.Valid()
    modifies db`conversations, db`nextId
    ensures db.Valid()
    ensures !authenticated ==>
              code == Unauthorized &&
              db.conversations == old(db.conversations) && db.nextId == old(db.nextId)
    ensures authenticated ==> code == Success && AreFriends(db.conversations, userId, userId)
    ensures authenticated && old(AreFriends(db.conversations, userId, userId)) ==>
              db.conversations == old(db.conversations) && db.nextId == old(db.nextId)
    ensures authenticated && !old(AreFriends(db.conversations, userId, userId)) ==>
              && db.conversations == old(db.conversations) +
                                     [PrivateConversation(old(db.nextId), userId, userId, aesKey)]
              && db.nextId == old(db.nextId) + 1
    ensures authenticated ==>
              PairCount(db.conversations, userId, userId) ==
              if old(PairCount(db.conversations, userId, userId)) == 0 then 1
              else old(PairCount(db.conversations, userId, userId))
  {
    if !authenticated {
      return Unauthorized;
    }
    AreFriendsIffPairCount(db.conversations, userId, userId);
    if !AreFriends(db.conversations, userId, userId) {
      var _ := db.AddFriend(userId, userId, aesKey);
    }
    code := Success;
  }

  /** UpdateInfo: stores the new profile fields; the email is public unless hidden.
      Saving the user record also changes the name and icon that contact
      summaries show for this user. */
  method UpdateInfo(
    db: KahlaDbContext, user: KahlaUser,
    headIconPath: string, nickName: string, bio: string, hideMyEmail: bool)
    returns (code: ErrorType)
    modifies user`iconFilePath, user`nickName, user`bio, user`makeEmailPublic, db`users
    ensures user.iconFilePath == headIconPath && user.nickName == nickName && user.bio == bio
    ensures user.makeEmailPublic == !hideMyEmail
    ensures db.users == old(db.users)[user.id := Profile(nickName, headIconPath)]
    ensures code == Success
  {
    user.iconFilePath := headIconPath;
    user.nickName := nickName;
    user.bio := bio;
    user.makeEmailPublic := !hideMyEmail;
    db.users := db.users[user.id := Profile(user.nickName, user.iconFilePath)];
    code := Success;
  }

  /** After a user's profile entry becomes `p`, every private conversation in
      which that user is the other party shows `p`'s name and icon. */
  lemma UpdateInfoShownToPeers(
    c: Conversation, viewer: UserId, msgs: seq<Message>,
    relations: seq<UserGroupRelation>, ats: seq<At>, users: map<UserId, Profile>,
    userId: UserId, p: Profile)
    requires c.PrivateConversation? && PeerOf(c, viewer) == userId
    ensures var r := ToContactSummary(c, viewer, msgs, relations, ats, users[userId := p]);
            r.displayName == p.nickName && r.displayImagePath == p.iconFilePath
  {
  }

  /** UpdateClientSetting: each setting changes only when a value is given for it. */
  method UpdateClientSetting(
    user: KahlaUser, themeId: Option<int>, enableEmailNotification: Option<bool>)
    returns (code: ErrorType)
    modifies user`themeId, user`enableEmailNotification
    ensures user.themeId == (if themeId.Some? then themeId.value else old(user.themeId))
    ensures user.enableEmailNotification ==
            (if enableEmailNotification.Some? then enableEmailNotification.value
             else old(user.enableEmailNotification))
    ensures code == Success
  {
    if themeId.Some? {
      user.themeId := themeId.value;
    }
    if enableEmailNotification.Some? {
      user.enableEmailNotification := enableEmailNotification.value;
    }
    code := Success;
  }

  /** The device `deviceId` registered to `userId`. */
  predicate IsDeviceOf(d: Device, userId: UserId, deviceId: nat) {
    d.userId == userId && d.id == deviceId
  }

  /** LogOff: a signed-in user's device `deviceId` is removed when it is theirs;
      when none is found, nothing is removed and the answer asks for attention. */
  method LogOff(db: KahlaDbContext, isAuthenticated: bool, userId: UserId, deviceId: nat)
    returns (r: Result<ErrorType, StoreError>)
    requires db.Valid()
    modifies db`devices
    ensures db.Valid()
    ensures var found := SingleOrDefault(old(db.devices), (d: Device) => IsDeviceOf(d, userId, deviceId));
            && (!isAuthenticated ==> r == Ok(Success) && db.devices == old(db.devices))
            && (isAuthenticated && found.Many? ==>
                  r == Err(MoreThanOneElement) && db.devices == old(db.devices))
            && (isAuthenticated && found.NoMatch? ==>
                  r == Ok(RequireAttention) && db.devices == old(db.devices))
            && (isAuthenticated && found.One? ==>
                  && r == Ok(Success)
                  && db.devices == old(db.devices)[..found.index] + old(db.devices)[found.index + 1..])
    ensures forall d :: d in old(db.devices) && !IsDeviceOf(d, userId, deviceId) ==> d in db.devices
  {
    if !isAuthenticated {
      return Ok(Success);
    }
    var found := SingleOrDefault(db.devices, (d: Device) => IsDeviceOf(d, userId, deviceId));
    match found
    case Many =>
      r := Err(MoreThanOneElement);
    case NoMatch =>
      r := Ok(RequireAttention);
    case One(k) =>
      ghost var before := db.devices;
      db.devices := db.devices[..k] + db.devices[k + 1..];
      forall d | d in before && !IsDeviceOf(d, userId, deviceId) ensures d in db.devices {
        var j :| 0 <= j < |before| && before[j] == d;
        if j < k {
          assert db.devices[j] == d;
        } else {
          assert db.devices[j - 1] == d;
        }
      }
      r := Ok(Success);
  }
}
