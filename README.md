# Kahla conversation and notification state engine, in Dafny

This project models the server-side rules of the Kahla chat application for:

- **Contact list.** For each viewer: which conversations appear, what each summary shows, and the order of the list.
  This is `MyContacts` and the `ContactInfo` projection.
- **Read markers.** How they advance when a conversation is opened (`SetLastRead`).
  In a private chat, unread messages from the other party are flagged read.
  In a group, the member's `ReadTimeStamp` moves to "now".
- **Friendships and groups.** How friendships are found, added and removed, and how groups are created.
- **Account actions in `AuthController`.** The self-friendship made at password login, push-channel provisioning (`InitPusher`), the profile and client-setting updates, and device removal at log-off.

Modules, one per source file, plus two shared ones:

- `Linq` (linq.dfy) holds the query operators the store's code uses, as pure functions over sequences. A table is a sequence in insertion order.
  - `SingleOrDefault` tells apart no match, one match and several matches. Several matches is the case where .NET throws.
- `Entities` (entities.dfy) holds the rows (`Message`, `At`, `UserGroupRelation`, `Conversation`, `Device`) and the `KahlaUser` class.
  - A conversation is a two-variant datatype: private or group.
  - Times are `nat` ticks, with `DateTime.MinValue` as tick 0.
- `ContactView` (contact_view.dfy) is `ContactInfo.cs`.
  - The source writes the private and group projections twice, once in `ContactInfo.cs` and once in `KahlaDbContext.cs`. The model has one `ToContactSummary` for both.
  - It also holds the contact-list order, an insertion sort.
- `KahlaDb` (kahla_db.dfy) is `KahlaDbContext.cs`.
  - The queries (`MyContacts`, `FindConversation`, `AreFriends`, `GetRelationFromGroup`) are functions over the tables.
  - Class `KahlaDbContext` holds the tables the core reads or writes. Messages, mentions, group relations and devices are each one `seq` field. The private and group conversation tables are merged into one `conversations` field, and the name and icon of each user are a `map` from user id. The source keeps these in the same user row that `KahlaUser` models, so `Auth.UpdateInfo` writes both. A ghost `Valid()` invariant keeps conversation ids distinct and below the next id to issue. Its methods change the tables in place: `AddFriend`, `CreateGroup`, `RemoveFriend`, `SetLastRead`.
  - `SetLastRead` flips read flags in a loop. It is proved against the spec function `MarkAllRead`, and the lemmas about `MarkAllRead` connect it to the contact summaries.
- `Auth` (auth.dfy) is the state-changing actions of `AuthController.cs`, as methods over `KahlaUser` and the store.

Inputs from outside the core become parameters:

- `now` for `DateTime.UtcNow`.
- The AES key strings that `Guid.NewGuid` would produce.
- The configured group image path.
- The identity server's verdict on a password (`authenticated`).
- The channel service's validation, as a predicate `validate`.
- The channel the push service issues (`issued`).

Exceptions become `Result` failures:

- `MoreThanOneElement` when a `SingleOrDefault` lookup matches several rows.
- `NullReference` when a group's `SetLastRead` finds no relation for the viewer.

Behaviour of the code worth knowing:

- `AddFriend` is not idempotent. It always adds a conversation. `AddFriend` never checks; `AuthByPassword` checks `AreFriends` before calling it.
- The contact list is sorted by two keys only: `SomeoneAtMe`, then the latest send time. There is no tie-break on conversation id.
- The group read marker is set to `now` unconditionally. So it only moves forward if the clock does.
- Nothing keeps a user pair to one private conversation. If both directions are stored, `RemoveFriend` removes one of them and the two users stay friends (`RemovingOnlyPairEndsFriendship` needs a single conversation for the pair).

## Model

| member | source | states |
|---|---|---|
| `ContactView.Latest` | Kahla.SDK/Models/ApiViewModels/ContactInfo.cs:45-46 | No latest message exactly when there are no messages. Otherwise the latest is one of the messages, and no message has a later send time. |
| `ContactView.PeerOf` | Kahla.SDK/Models/ApiViewModels/ContactInfo.cs:37-42 | The other party is the target when the viewer is the requester, else the requester. It is always one of the two parties. It equals the viewer only in a self-conversation. For a participant, {viewer, peer} is the pair. |
| `ContactView.ViewerRelation` | Kahla.SDK/Models/ApiViewModels/ContactInfo.cs:69-82 | The viewer's relation row in the group, found by the summary's subquery. It is absent exactly when the viewer has no relation in that group. |
| `ContactView.ToContactSummary` | Kahla.SDK/Models/ApiViewModels/ContactInfo.cs:32-84 | Private: discriminator "PrivateConversation"; never muted; never SomeoneAtMe; UserId is `PeerOf` the viewer: the target when the viewer is the requester, else the requester. The display fields are that user's. Group: the group's name and image; UserId is the owner. Both kinds: the conversation's id and key, the latest message, an unread amount no larger than the message count, and SomeoneAtMe only when something is unread. |
| `ContactView.PrivateUnreadZeroIff` | Kahla.SDK/Models/ApiViewModels/ContactInfo.cs:43-44 | A private unread amount is zero exactly when every message is read or was sent by the viewer. |
| `ContactView.PrivateUnreadAppend` | Kahla.SDK/Models/ApiViewModels/ContactInfo.cs:43-44 | One more message raises the private unread amount by one exactly when it is unread and from the other party, and otherwise leaves it unchanged. Together with the zero case, the amount is the number of such messages. |
| `ContactView.GroupSummaryFromMarker` | Kahla.SDK/Models/ApiViewModels/ContactInfo.cs:69-82 | For a member with marker T: the unread amount is zero exactly when no message is later than T. SomeoneAtMe holds exactly when a message later than T mentions the viewer. Muted is the relation's flag. |
| `ContactView.InsertContact` | Kahla.Server/Data/KahlaDbContext.cs:107-108 | Inserting into an ordered list keeps it ordered and adds exactly that one entry. |
| `ContactView.SortContacts` | Kahla.Server/Data/KahlaDbContext.cs:107-108 | The result is a permutation of the input. It is ordered by SomeoneAtMe descending, then by latest send time descending, with no message counting as DateTime.MinValue. |
| `KahlaDb.MyContacts` | Kahla.Server/Data/KahlaDbContext.cs:99-109 | The list is in contact-list order. It is a permutation of the summaries of the visible conversations, one per stored conversation, so it also has one entry per visible conversation. An entry is in the list exactly when it is the summary of a stored conversation visible to the viewer. Visible: a private conversation whose requester or target is the viewer, or a group where the viewer has a relation. |
| `KahlaDb.GetRelationFromGroup` | Kahla.Server/Data/KahlaDbContext.cs:111-115 | No relation for the user in the group gives null. Exactly one gives that relation. Two or more give the MoreThanOneElement failure. |
| `KahlaDb.FindConversation` | Kahla.Server/Data/KahlaDbContext.cs:117-122 | The result is a stored private conversation between the two users, in either direction. It is absent exactly when no such conversation exists. |
| `KahlaDb.FindConversationSymmetric` | Kahla.Server/Data/KahlaDbContext.cs:117-122 | Swapping the two users finds the same conversation. |
| `KahlaDb.AreFriends` | Kahla.Server/Data/KahlaDbContext.cs:124-127 | True exactly when a stored private conversation joins the two users, in either direction. |
| `KahlaDb.AreFriendsSymmetric` | Kahla.Server/Data/KahlaDbContext.cs:124-127 | AreFriends(a, b) == AreFriends(b, a). |
| `KahlaDb.AreFriendsIffPairCount` | Kahla.Server/Data/KahlaDbContext.cs:124-127 | Two users are friends exactly when at least one private conversation joins them. |
| `KahlaDb.PairCountAppend` | Kahla.Server/Data/KahlaDbContext.cs:161-171 | Appending a conversation raises the pair's conversation count by one if it joins the pair. Otherwise the count is unchanged. |
| `KahlaDb.RemovingOnlyPairEndsFriendship` | Kahla.Server/Data/KahlaDbContext.cs:129-144 | Removing the only conversation that joins two users ends their friendship. |
| `KahlaDb.LastReadFromOther` | Kahla.Server/Data/KahlaDbContext.cs:177-186 | The result is the latest send time among already-read messages of the conversation that the other party sent. It is DateTime.MinValue when there are none. |
| `KahlaDb.MarkAllRead` | Kahla.Server/Data/KahlaDbContext.cs:188-193 | The table keeps its length. Only read flags change, and only from false to true. A message changes exactly when it is an unread message of that conversation from the other party. |
| `KahlaDb.MarkAllReadIdempotent` | Kahla.Server/Data/KahlaDbContext.cs:188-193 | Marking a second time changes nothing. |
| `KahlaDb.LastReadMonotone` | Kahla.Server/Data/KahlaDbContext.cs:177-193 | The marker returned after the flags flip is never earlier than the one returned before. |
| `KahlaDb.MarkAllReadClearsUnread` | Kahla.Server/Data/KahlaDbContext.cs:175-194 | After opening a private conversation, its summary for the viewer shows zero unread messages. |
| `KahlaDb.GroupMarkerUpdate` | Kahla.Server/Data/KahlaDbContext.cs:195-207 | After the viewer's marker becomes `now`, the summary counts exactly the messages later than `now`. SomeoneAtMe is a mention among those messages, and Muted is unchanged. With no message later than `now`, both unread and mention are cleared. |
| `KahlaDb.MentionThenRead` | Kahla.Server/Data/KahlaDbContext.cs:195-207 | Scenario: one message, sent after the marker, mentions the viewer. Before open: one unread and SomeoneAtMe. After the marker moves past it: zero unread and no mention. |
| `KahlaDb.KahlaDbContext.AddFriend` | Kahla.Server/Data/KahlaDbContext.cs:161-171 | Appends exactly one private conversation from userId1 to userId2, with a fresh id, and returns it. The next id goes up by one. The pair count goes up by one, whether or not the users were friends before. |
| `KahlaDb.KahlaDbContext.CreateGroup` | Kahla.Server/Data/KahlaDbContext.cs:146-159 | Appends exactly one group with a fresh id and returns it. The next id goes up by one. The group has the given name, the creator as owner, the configured image and the generated key. The join password is stored as given, or as "" when missing. |
| `KahlaDb.KahlaDbContext.RemoveFriend` | Kahla.Server/Data/KahlaDbContext.cs:129-144 | A duplicated direction fails with MoreThanOneElement and nothing changes. Otherwise it removes exactly the userId1→userId2 conversation, or else the userId2→userId1 one, and returns its id. With neither present it returns -1 and changes nothing. |
| `KahlaDb.KahlaDbContext.SetLastRead` | Kahla.Server/Data/KahlaDbContext.cs:173-212 | Private: returns LastReadFromOther of the old table, and the message table becomes MarkAllRead of it. Group: returns the relation's old ReadTimeStamp and sets that relation alone to `now`. No relation gives NullReference and several give MoreThanOneElement, with nothing changed. |
| `Auth.ProvisionSettles` | Kahla.Server/Controllers/AuthController.cs:238-244 | If the issued channel validates, provisioning ends with a reusable descriptor, and provisioning again keeps it. |
| `Auth.ProvisionWholesale` | Kahla.Server/Controllers/AuthController.cs:238-244 | The descriptor is either kept whole, or replaced whole by the issued one, and replaced only when the stored one is not reusable. Channel -1 is always replaced. |
| `Auth.InitPusher` | Kahla.Server/Controllers/AuthController.cs:235-258 | If the channel is -1 or fails validation, both CurrentChannel and ConnectKey are overwritten with the issued channel. Otherwise both stay. The returned channel id, key and server-path id/key equal the stored descriptor after the update. |
| `Auth.AuthByPassword` | Kahla.Server/Controllers/AuthController.cs:114-136 | Failed authentication answers Unauthorized and touches nothing. Success leaves the user friends with itself. The self-conversation is added only if none existed, so the count of self-conversations never goes above max(1, old count). The next id is unchanged when the self-conversation exists, and goes up by one when it is added. |
| `Auth.UpdateInfo` | Kahla.Server/Controllers/AuthController.cs:185-195 | Stores the icon path, nickname and bio as given, and makes the email public exactly when it is not hidden. The user's entry in the store's profile map becomes the new nickname and icon. |
| `Auth.UpdateInfoShownToPeers` | Kahla.SDK/Models/ApiViewModels/ContactInfo.cs:37-40 | After a user's profile entry changes, every private conversation in which that user is the other party shows the new name and icon. |
| `Auth.UpdateClientSetting` | Kahla.Server/Controllers/AuthController.cs:199-212 | ThemeId changes only when a value is given, and so does EnableEmailNotification. No other field may change. |
| `Auth.LogOff` | Kahla.Server/Controllers/AuthController.cs:260-282 | Signed in: the user's device with that id is removed when there is exactly one. With none it answers RequireAttention and removes nothing. Several give MoreThanOneElement. Any other device stays. Not signed in: nothing changes. |

## Left out

- The entity classes (`Message`, `Conversation`, `UserGroupRelation`, `At`, `Device`, `KahlaUser`) are defined elsewhere in the repository. The model gives them only the fields the core reads or writes. The `KahlaUser` constructor's starting values (channel -1) are a modelling choice.
- The `Requests` and `Reports` tables of `KahlaDbContext` (Kahla.Server/Data/KahlaDbContext.cs:90,95) are not modelled: no core operation reads or writes them.
- Bot registration (`Kahla.SDK/Abstract/BotExtends.cs`): it is reflection-based assembly scanning and dependency-injection registration, with no state to model.
- ORM mechanics (`ProjectTo`, `AsNoTracking`, `SaveChangesAsync`, change tracking): the store is plain in-memory tables, and a change is visible at once.
- Conversation ids are issued by the model at insertion. The database issues them at save time.
- Removing a private conversation does not remove its messages. Cascade rules are database configuration, not part of this model.
- Remote services: the password verdict, `ValidateChannelAsync` and the push service's `Init` are parameters (`authenticated`, `validate`, `issued`). The calls `AuthApp`, `ChangeProfileAsync`, `UserManager.UpdateAsync` and `SignOutAsync` are dropped.
- Every remote call is taken to return normally. A remote call that throws would skip the steps after it, and the model does not capture that. For example, a `ChangeProfileAsync` that throws at Kahla.Server/Controllers/AuthController.cs:192 would skip the `UpdateAsync` at line 193, yet `Auth.UpdateInfo` always stores the new fields.
- Controller actions with no core state, because they are transport or identity glue: `Index`, `Version` (its memory cache), `RegisterKahla`, `OAuth`, `AuthResult`, `SignInStatus`, `Me`, `ChangePassword` and `SendEmail`.
- `Online`, `EnableInvisiable` and the JSON attributes: they are presence and wire details. `Sender` is left out because it is the sender of `LatestMessage`.
- `InitPusher`'s `ServerPath` is a URL string. Only the channel id and key it carries are modelled.
- Concurrency and async behaviour: every operation runs as one sequential step.
- The `NotImplementedException` branch of `SetLastRead` is left out. The conversation datatype has exactly two variants, so no value reaches it.
- `ContactView.ViewerRelation`: the SQL subquery's `SingleOrDefault` is modelled as the first matching relation. The two agree when a member has one relation per group.
- `ContactView.ToContactSummary`: a group viewer without a relation is modelled as nothing unread, not muted and not mentioned. This is SQL's comparison with a missing row; `MyContacts` never reaches the case.
- `ContactView.Latest`: with several messages at the greatest send time, the source's `OrderByDescending(SendTime).FirstOrDefault()` leaves the choice to the database. The model picks the first of them in store order.
- `ContactView.SortContacts`: the source leaves the order of entries with equal keys to the database. The model keeps store order for them.
- `KahlaDb.FindConversation`: `FirstOrDefault` without an ordering is modelled as the first match in store order.
