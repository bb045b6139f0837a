# A verified model of the chat backend's concurrent core

This project models the parts of the backend whose correctness spans many functions or
many steps, and proves what they keep.

* **Event gateway** (`Gateway`, `GatewayEffects`, `GatewayInvariant`, `GatewayState`,
  `Listener`, `GatewayClient`): a connection's cache of servers, members and channels, its subscribed
  topics and queued changes, the event handlers that edit them in place, and the listener
  loop that flushes them. Main results: every visible cached channel stays subscribed over
  every run, and exactly which events can break that; what each event leaves in the cache
  and tells the client, said on its own data; at every flush the
  publish/subscribe client listens to exactly the subscribed topics; what a client is told
  matches what is subscribed, with the exact condition.
* **Authorization server** (`Scopes`, `Compare`, `OAuth`, `OAuthFamilies`,
  `OAuthRevocation`, `OAuthProvenance`, `OAuthCodes`, `OAuthTrace`, `OAuthSecrets`,
  `OAuthFlow`): every handler is split into its
  storage operations, which interleave freely; a request can end at any point. Main
  results: one live refresh token or one rotation per family, no resurrection, when the
  reuse response and an application's revocation are final, where every token comes from,
  who approved it and with which secret it was asked for, one response per code, the
  verifier of public clients, and that an honest flow succeeds. The flow follows sections
  4.1.2 and 6 of RFC 6749, section 4.6 of RFC 7636 and section 4.14 of RFC 9700.
* **Permissions** (`Overrides`, `RoleOrder`, `Decisions`, `Calculators`, `BulkCalculator`): the
  override fold, the rank sort over hash maps, the single-user and bulk calculators, and
  the check on override edits. Main results: which override decides a bit, when iteration
  order is invisible, each answer of both calculators bit by bit, when they agree, and what an accepted edit can grant.
* **Concurrent and timed services**: the fixed-window rate limiter (`Ratelimit`), request
  coalescing (`Coalesce`, `CoalesceAdmission`, `CoalesceProgress`, `CoalesceLoss`), the
  read-acknowledgement pipeline (`Acks`, `AckHistory`), the debounced worker (`AckWorker`) and presence sessions (`Presence`).
* **Message token filter** (`Parser`): the buffered iterator against a recursive
  specification.

`Entities` holds the stored records that several modules share. Code that edits objects
in place is a class with methods; protocols whose steps interleave are state machines
with an action for every storage, lock or queue operation.

## Modelling choices

* A 64-bit permission value is the set of its one bits. Hash map iteration order is an
  explicit sequence, in the gateway one for every channel and event.
* A relationship event is published with the receiver's own ID and the other person's
  record, and the gateway stores that record as the receiver's own. Such events are
  therefore among those that break the visibility agreement
  (`GatewayInvariant.StrangerMissed`); a recalculation settles a server again. The server
  updates that break it are those the handler accepts; one with a whole role map has no
  publisher in the repository.
* Database answers are maps; an absent key is a failed fetch. The gateway reads one
  database state while it handles one event, and each calculation reads the clock once.
* Topics are a datatype: IDs of different kinds do not coincide and the suffixes of
  private and member topics keep them apart.
* Digests are injective, so stored digests are represented by what was digested; random
  values are fresh, and in the results on when a revocation is final no request names a
  code before it is drawn; the S256 hash is an arbitrary function.
* Message IDs in the acknowledgement pipeline are compared by order only, so they are
  numbers. Redis, the queue and the database do not fail there, nor in the worker.
* The comment in `ack_channel` promises that a delayed acknowledgement cannot move the
  pending position back. The code keeps that only for requests that do not overlap;
  `Acks.OverlapExactly` and `Acks.OverlapLoses` say when, `Acks.OrderlyNeverLowers` that
  it holds otherwise. The database itself never moves back.
* The queue bound of the coalescing service is modelled as the program tests it, which
  refuses while the queue is not longer than the bound; `CoalesceAdmission.AnyBoundRefusesAll`
  says what follows. That one ID runs once at a time is promised by its documentation and
  holds exactly until two calls look before either registers
  (`CoalesceAdmission.SingleExactly`, `CoalesceAdmission.TwoCanRun`).

## Model

| member | source | states |
|---|---|---|
| `GatewayInvariant.RunKeeps` | crates/bonfire/src/events/impl.rs:434-696 | over every run of events that pick up what they make visible, each cached server channel whose server and membership are cached and which the permission calculus shows stays subscribed; from event to event hash maps may iterate differently for members without disputed bits |
| `GatewayInvariant.EventKeeps` | crates/bonfire/src/events/impl.rs:461-693 | one such event, of any kind, keeps that agreement |
| `GatewayInvariant.PicksUpExactly` | crates/bonfire/src/events/impl.rs:549-662 | the events that keep the agreement in every connection state are exactly those that pick up what they make visible; a server update that replaces roles or makes us owner without new defaults, and a relationship event that stores another person's or a privileged record as our own, do not |
| `GatewayInvariant.OwnershipMissed` | crates/bonfire/src/events/impl.rs:549-563 | a state in which an ownership change leaves a visible channel unsubscribed |
| `GatewayInvariant.RolesMissed` | crates/bonfire/src/events/impl.rs:549-563 | a state in which replacing the role map leaves a visible channel unsubscribed |
| `GatewayInvariant.StrangerMissed` | crates/core/database/src/models/users/model.rs:481-493 | the relationship event as it is published, with our own ID and the other person's record: stored as our own record, it leaves a channel that we now see unsubscribed |
| `GatewayInvariant.PrivilegeMissed` | crates/bonfire/src/events/impl.rs:654-662 | a state in which storing a privileged record as our own leaves a visible channel unsubscribed |
| `GatewayInvariant.RecalculateRestores` | crates/bonfire/src/events/impl.rs:335-401 | recalculating a server restores the agreement for all its channels whatever was changed in that server before |
| `GatewayInvariant.RecalculateSettles` | crates/bonfire/src/events/impl.rs:335-401 | whatever came before, after a recalculation every visible channel of that server is subscribed |
| `GatewayInvariant.RecalculateExact` | crates/bonfire/src/events/impl.rs:335-401 | after a recalculation the cached channels are exactly the viewable cached ones, the viewable fetched ones and those of other servers; the kept and found ones are subscribed, the lost ones are not, and no other channel subscription changes |
| `GatewayEffects.HandleLeaves` | crates/bonfire/src/events/impl.rs:461-693 | what every event leaves, on the event's own data: given fields of a server, role, member or channel replace, missing ones stay, cleared ones fall back; which records, channels and topics come, go and stay, one by one; which events recalculate |
| `GatewayEffects.RecalculateLeaves` | crates/bonfire/src/events/impl.rs:335-401 | after a recalculation a cached channel of the server stays, subscribed, exactly if it can be viewed; a listed uncached one comes, whole and subscribed, exactly if it could be fetched and can be viewed; all others are as before |
| `GatewayEffects.StaysExactly` | crates/bonfire/src/events/impl.rs:335-369 | for a member who is neither privileged nor the owner, exactly the channels on which the deciding roles grant ViewChannel stay cached and subscribed |
| `GatewayEffects.NewDefaultsDecide` | crates/bonfire/src/events/impl.rs:549-566 | new server defaults decide every cached channel of the server that nothing later mentions: without ViewChannel it is dropped, unsubscribed and announced as gone, with it it stays |
| `GatewayEffects.ViewVerdictHolds` | crates/bonfire/src/events/impl.rs:21-46 | the viewability test answers yes for the privileged and the owner, no without a server or a membership, and for a member what the deciding roles say of ViewChannel |
| `GatewayEffects.OutsidersSeeNothing` | crates/bonfire/src/events/impl.rs:21-46 | without a membership, cached or stored, exactly the privileged and the owner see a server channel |
| `GatewayInvariant.ChannelUpdateKeeps` | crates/bonfire/src/events/impl.rs:467-502 | a channel update keeps the agreement, whether the channel was cached or is fetched |
| `GatewayInvariant.ServerCreateKeeps` | crates/bonfire/src/events/impl.rs:518-548 | joining a server keeps the agreement |
| `GatewayInvariant.DropServerKeeps` | crates/bonfire/src/events/impl.rs:567-590 | leaving or losing a server keeps the agreement |
| `GatewayInvariant.MemberUpdateKeeps` | crates/bonfire/src/events/impl.rs:591-605 | a change of our own membership keeps the agreement; timeout and voice flags need no recalculation |
| `GatewayInvariant.RoleUpdateKeeps` | crates/bonfire/src/events/impl.rs:606-630 | a role change keeps the agreement, with a recalculation only for held roles |
| `GatewayInvariant.RoleDeleteKeeps` | crates/bonfire/src/events/impl.rs:631-641 | deleting a role keeps the agreement, with a recalculation only for held roles |
| `GatewayInvariant.UnheldRoleInvisible` | crates/bonfire/src/events/impl.rs:623-629 | a role that we do not hold cannot change what we see |
| `GatewayInvariant.InvAnyOrder` | crates/bonfire/src/events/impl.rs:21-46 | the agreement does not depend on how the hash maps iterate, for members without disputed bits |
| `Gateway.CanViewIsVisible` | crates/bonfire/src/events/impl.rs:21-46 | with server and membership cached, the viewability test answers exactly what the two override folds give, independent of clock, timeout and voice flags |
| `GatewayState.State.constructor` | crates/bonfire/src/events/state.rs:77-101 | a new connection knows its user, listens to its two own topics and starts with a reset |
| `GatewayState.State.InsertSubscription` | crates/bonfire/src/events/state.rs:165-185 | adds the topic, queues it only when new, and keeps the queue an exact difference when the topic was not in step already |
| `GatewayState.State.RemoveSubscription` | crates/bonfire/src/events/state.rs:188-208 | removes the topic and queues that; only reached outside a reset |
| `GatewayState.State.CanViewChannel` | crates/bonfire/src/events/impl.rs:21-46 | runs the permission query on cached records, else stored ones, and answers: yes for the privileged and the owner, no without a server or a membership, else what the deciding roles say of ViewChannel |
| `GatewayState.State.FilterAccessibleChannels` | crates/bonfire/src/events/impl.rs:49-62 | returns exactly the viewable channels in order |
| `GatewayState.State.SplitChannels` | crates/bonfire/src/events/impl.rs:337-352 | sorts the cached channels of a server into viewable and lost |
| `GatewayState.State.FetchUnknown` | crates/bonfire/src/events/impl.rs:371-390 | inserts, subscribes and announces exactly the viewable fetched channels |
| `GatewayState.State.RecalculateServer` | crates/bonfire/src/events/impl.rs:335-401 | the new state is the recalculated one; exactly the lost channels are announced as deleted and the fetched ones, whole, as created, then the event; replaying them on any known set gives the recalculated set; the queued batch stays free of a topic both added and removed |
| `GatewayState.State.OnChannelUpdate` | crates/bonfire/src/events/impl.rs:467-502 | updates or fetches the channel, subscribes or unsubscribes on a change of viewability, and announces a channel that appears or disappears as created or deleted |
| `GatewayState.State.OnServerCreate` | crates/bonfire/src/events/impl.rs:518-548 | caches server, own membership and channels, subscribes, recalculates, and announces what the recalculation drops and finds |
| `GatewayState.State.OnServerGone` | crates/bonfire/src/events/impl.rs:567-590 | for our own leaving and for a deleted server drops the server, the membership, its listed channels and their topics; for others nothing |
| `GatewayState.State.OnUserUpdate` | crates/bonfire/src/events/impl.rs:643-653 | a repeated event ID is dropped, a new one is remembered among the last twenty |
| `GatewayState.State.HandleIncomingEvent` | crates/bonfire/src/events/impl.rs:434-696 | every event: what it leaves in the cache and among the topics and what the client is told, said on the event's own data; repeated user updates are dropped; the batch it queues adds and removes disjoint topics and no removal happens during a reset |
| `Listener.FlushAgreesExactly` | crates/bonfire/src/events/state.rs:137-151 | for every batch of edits on topics in step, the flush leaves client topics and subscribed set equal exactly when no topic was both added and removed |
| `Listener.FlushCanDisagree` | crates/bonfire/src/events/state.rs:137-151 | a batch with one topic in both lists leaves them different |
| `Listener.MemberTopicsUntouched` | crates/bonfire/src/events/impl.rs:461-693 | no event touches the member topics of a user account; only active servers do |
| `Listener.Connection.QueueActiveServers` | crates/bonfire/src/events/state.rs:105-135 | subscribes the active and unsubscribes the expired servers and keeps the batch exact |
| `Listener.Connection.ApplyState` | crates/bonfire/src/events/state.rs:104-151 | takes the batch, which says exactly how the subscribed set differs from the client topics |
| `Listener.Connection.Flush` | crates/bonfire/src/websocket.rs:268-306 | after the flush the client listens to exactly the subscribed topics: those of before and, unless the user is a bot, the member topics of the active servers and not those of the expired ones |
| `Listener.FlushKeeps` | crates/bonfire/src/events/state.rs:104-151 | the flush with its active servers keeps the visibility agreement |
| `Listener.Connection.Receive` | crates/bonfire/src/websocket.rs:268-306 | handling one event keeps the connection valid, in step with the specification, and keeps the visibility agreement for events that pick up what they make visible |
| `Listener.Connection.TakeTurn` | crates/bonfire/src/websocket.rs:268-306 | one turn: the state after it, and the client topics at its flush point and at its end |
| `Listener.Connection.Run` | crates/bonfire/src/websocket.rs:268-306 | over any sequence of turns the connection goes through exactly the states that the flushes and events give, at every flush point the client listens to exactly the subscribed topics, at the end it still listens to those of the last one, and, as long as the events pick up what they make visible, to every cached channel that the permission calculus shows |
| `Listener.ChainCovers` | crates/bonfire/src/websocket.rs:268-306 | over such a sequence the client topics cover every visible cached channel at every flush point, while the events pick up what they make visible |
| `GatewayClient.InStepExactly` | crates/bonfire/src/events/impl.rs:335-401 | a client that knows exactly the subscribed channels stays so exactly when every kept channel is known or just brought along and nothing brought along is dropped |
| `GatewayClient.InStepRunExactly` | crates/bonfire/src/events/impl.rs:434-696 | over every run, a client in step at the start is in step after every event exactly when each event meets that condition in the state in which it arrives |
| `GatewayClient.LearnsWhatIsSent` | crates/bonfire/src/events/impl.rs:392-399 | what the client learns from a recalculation is the replay of the channel events it is sent |
| `GatewayClient.ShownAgainUntold` | crates/bonfire/src/events/impl.rs:467-502 | a channel hidden by an update and shown again by a new role is subscribed but never announced |
| `Overrides.PermissionValue.ApplyAll` | crates/core/permissions/src/impl.rs:60-62 | the loop over the overrides computes their fold |
| `Overrides.FoldCollapses` | crates/core/permissions/src/models/mod.rs:24-37 | any list of overrides acts as one allow/deny pair on every value |
| `Overrides.LastMentionDecides` | crates/core/permissions/src/models/mod.rs:24-37 | each bit is decided by the last override that mentions it, deny beating allow within one override, else by the base value |
| `Overrides.LastMention` | crates/core/permissions/src/models/mod.rs:24-37 | finds the last override that mentions a bit, or none |
| `Overrides.EditGrantsOnlyHeld` | crates/core/permissions/src/models/mod.rs:92-113 | an accepted edit, at any position of any list and on any base, adds only bits the actor holds |
| `Overrides.EditCheckExact` | crates/core/permissions/src/models/mod.rs:92-113 | for overrides without a bit in both masks, the check accepts exactly the edits that never add a bit the actor lacks |
| `Overrides.EditCheckOverRejects` | crates/core/permissions/src/models/mod.rs:92-113 | with a bit in both masks it also refuses edits that add nothing |
| `Calculators.ServerEditGrantsOnlyHeld` | crates/core/permissions/src/impl.rs:49-78 | an accepted edit of a server role adds only held bits through all later overrides, voice revokes and timeout restriction |
| `Calculators.ChannelEditGrantsOnlyHeld` | crates/core/permissions/src/impl.rs:125-134 | the same for an edit of a channel override |
| `Calculators.ServerEditGateExactly` | crates/core/permissions/src/impl.rs:125-138 | through the final view gate an accepted edit of a server role still adds only held bits, exactly unless it lets the folds show a hidden channel on which a bit the actor lacks is granted |
| `Calculators.ChannelEditGateExactly` | crates/core/permissions/src/impl.rs:125-138 | the same for an edit of a channel override |
| `Calculators.GateCanUncover` | crates/core/permissions/src/impl.rs:136-138 | such an edit exists |
| `Calculators.ViewSkipsRestrictions` | crates/core/permissions/src/impl.rs:125-138 | ViewChannel after the whole pipeline is ViewChannel after the two folds alone |
| `Calculators.ViewIgnoresTimeoutAndVoice` | crates/core/permissions/src/impl.rs:64-75 | viewability depends on neither timeout, voice flags nor the clock |
| `Calculators.DatabasePermissionQuery.AreWeAMember` | crates/core/database/src/util/permissions.rs:125-142 | looks the member up once and keeps it |
| `Calculators.DatabasePermissionQuery.SetServerFromChannel` | crates/core/database/src/util/permissions.rs:345-375 | keeps a matching server, fetches another, and keeps the old one if that fails |
| `Calculators.DatabasePermissionQuery.CalculateServerPermissions` | crates/core/permissions/src/impl.rs:49-78 | bit by bit: all safe bits for the privileged and the owner, nothing without a server or a membership, and for a member what the deciding roles say, less voice moderation and timeout |
| `Calculators.DatabasePermissionQuery.CalculateChannelPermissions` | crates/core/permissions/src/impl.rs:119-144 | bit by bit: all safe bits for the privileged and the owner of the server known or fetched, nothing without one or without a membership, and for a member what channel and server say, if ViewChannel is granted |
| `Calculators.ServerVerdictHolds` | crates/core/permissions/src/impl.rs:49-78 | that answer for the server value, for all inputs |
| `Calculators.ChannelVerdictHolds` | crates/core/permissions/src/impl.rs:119-144 | that answer for the channel value, for all inputs |
| `RoleOrder.SortPermutes` | crates/core/database/src/util/permissions.rs:154-177 | the rank sort keeps every entry, counted |
| `RoleOrder.SortIsDescending` | crates/core/database/src/util/permissions.rs:154-177 | the rank sort is descending |
| `RoleOrder.SortIsStable` | crates/core/database/src/util/permissions.rs:154-177 | entries of equal rank keep the iteration order |
| `RoleOrder.OrderIndependentExactly` | crates/core/database/src/util/permissions.rs:252-290 | the fold does not depend on map iteration order exactly when no bit is disputed between entries of the rank that decides it |
| `RoleOrder.DistinctRanksIndependent` | crates/core/database/src/util/permissions.rs:252-290 | distinct ranks make the iteration order invisible |
| `RoleOrder.IterationOrderInvisible` | crates/core/database/src/util/permissions.rs:252-290 | two iteration orders of the same map give the same folded value for a member without disputed bits |
| `RoleOrder.OnlyHeldMatter` | crates/core/database/src/util/permissions.rs:154-177 | entries of roles the member does not hold do not matter |
| `Decisions.ServerFoldSays` | crates/core/database/src/util/permissions.rs:154-177 | the fold over the server roles gives, bit by bit, what the held roles of lowest rank that mention the bit say, else the defaults; said on the stored records |
| `Decisions.ChannelFoldSays` | crates/core/database/src/util/permissions.rs:252-290 | the same for the channel: held overrides of lowest rank, else the channel defaults, else the server |
| `BulkCalculator.CalculateServerPermissions` | crates/core/database/src/util/bulk_permissions.rs:316-345 | bit by bit: all safe bits for the privileged and the owner, else what the deciding roles say, less the timeout; voice moderation plays no part |
| `BulkCalculator.MemberPermissions` | crates/core/database/src/util/bulk_permissions.rs:256-310 | bit by bit: nothing without a member record, all safe bits for the privileged and the owner, else what the channel says over the server value |
| `BulkCalculator.BulkVerdictHolds` | crates/core/database/src/util/bulk_permissions.rs:256-345 | that answer, for all inputs |
| `BulkCalculator.MemberOfIsLast` | crates/core/database/src/util/bulk_permissions.rs:248-254 | a user listed several times among the members has the last record, and none exactly if not listed |
| `BulkCalculator.CalculateMembersPermissions` | crates/core/database/src/util/bulk_permissions.rs:256-313 | for given lists of users and members, the result has exactly those users, each with their bulk value |
| `BulkCalculator.BulkDatabasePermissionQuery.Complete` | crates/core/database/src/util/bulk_permissions.rs:206-245 | fetches whichever list was not given: the users are exactly the people whom a given member names, and each given user has the member record of the database |
| `BulkCalculator.FetchedMember` | crates/core/database/src/util/bulk_permissions.rs:228-254 | among the fetched members each asked user has the record that the database has |
| `BulkCalculator.FetchedUsers` | crates/core/database/src/util/bulk_permissions.rs:206-227 | the users fetched for some IDs are exactly the people who have one of them |
| `BulkCalculator.BulkDatabasePermissionQuery.MembersCanSeeChannel` | crates/core/database/src/util/bulk_permissions.rs:28-57 | answers for exactly the given users, or for exactly the people whom the given members name; for every member without disputed bits the answer is what the single-user calculator says of ViewChannel, under any iteration orders; anybody else gets no |
| `BulkCalculator.AgreeOnView` | crates/core/database/src/util/bulk_permissions.rs:256-345 | both calculators agree on ViewChannel for every member without disputed bits, whatever the iteration orders, timeout and voice flags |
| `BulkCalculator.DifferenceIsExact` | crates/core/database/src/util/bulk_permissions.rs:256-345 | the values differ before the gate by exactly the named voice or timeout bits |
| `BulkCalculator.AgreeOnValueExactly` | crates/core/database/src/util/bulk_permissions.rs:256-345 | the whole values agree exactly when, on a channel that the folds show, no such bit exists, and on a hidden one everything granted is denied |
| `BulkCalculator.AgreeWhenUnmoderated` | crates/core/database/src/util/bulk_permissions.rs:256-345 | with distinct ranks, a visible channel and no timeout, mute or deafen the whole values agree |
| `Compare.ConstantTimeEqual` | crates/delta/src/routes/oauth.rs:75-81 | the XOR/OR loop is equality on all byte strings |
| `Compare.PkceMatches` | crates/delta/src/routes/oauth.rs:83-86 | true exactly when the hash of the verifier is the challenge |
| `Scopes.ValidateScopes` | crates/delta/src/routes/oauth.rs:105-115 | accepts exactly the nonempty lists of supported and allowed scopes |
| `Scopes.SplitJoin` | crates/delta/src/routes/oauth.rs:105-106 | splitting the joined words gives the words back |
| `Scopes.SplitAtSpace` | crates/delta/src/routes/oauth.rs:105-106 | what is left and right of any white space is split on its own |
| `Scopes.StoredScopesReadBack` | crates/delta/src/routes/oauth.rs:433-470 | the stored scope string is read back as the requested, allowed list |
| `OAuthFamilies.FamilyInvStep` | crates/delta/src/routes/oauth.rs:656-746 | every storage step of every handler keeps each family at one of: an unrevoked refresh token, a rotation in flight |
| `OAuthFamilies.OneLiveTokenPerFamily` | crates/delta/src/routes/oauth.rs:656-746 | in every interleaving two live refresh tokens of a family are the same, and a family with a rotation in flight has none |
| `OAuthFamilies.EndedForever` | crates/delta/src/routes/oauth.rs:656-746 | a family with neither never becomes live again |
| `OAuthFamilies.RotationRevives` | crates/delta/src/routes/oauth.rs:613-636 | a rotation in flight can always bring a live token of its family |
| `OAuthFamilies.KillIsFinalExactly` | crates/delta/src/routes/oauth.rs:704-736 | the reuse response ends the family for good exactly when no rotation of it is in flight |
| `OAuthFamilies.ReuseEndsFamily` | crates/delta/src/routes/oauth.rs:700-736 | presenting a token that is not live, with no rotation in flight, runs to the end of the family |
| `OAuthRevocation.DeadForever` | crates/delta/src/routes/oauth.rs:1048-1093 | a revoked client without live tokens and without requests on their way stays so in every later state of any interleaving |
| `OAuthRevocation.RevocationResult` | crates/delta/src/routes/oauth.rs:1048-1093 | what the three steps of an uninterrupted revocation leave |
| `OAuthRevocation.RevocationFinalExactly` | crates/delta/src/routes/oauth.rs:1048-1093 | a revocation is final exactly when, at that moment, no request is issuing tokens of the client and no exchange of the client past its look at the application has a code that satisfies it |
| `OAuthRevocation.DoneExactly` | crates/delta/src/routes/oauth.rs:526-746 | in every state with the application revoked, no token of the client is ever live again exactly when none is live and no request is on its way |
| `OAuthRevocation.InterleavedRevocationExactly` | crates/delta/src/routes/oauth.rs:1048-1093 | however its three updates interleave with other requests, a revocation is final exactly when at its last update no access token of the client is live, no request is issuing and no exchange has a code that satisfies it |
| `OAuthRevocation.IssueBringsToken` | crates/delta/src/routes/oauth.rs:613-636 | a request that is issuing brings a live token after the revocation |
| `OAuthRevocation.ExchangeBringsToken` | crates/delta/src/routes/oauth.rs:546-611 | an exchange that has passed the revoked check and whose code satisfies it brings a live token after the revocation |
| `OAuthRevocation.HopelessStays` | crates/delta/src/routes/oauth.rs:574-602 | an exchange that its code does not satisfy never will be satisfied |
| `OAuthRevocation.RevokedMeansNoTokens` | crates/delta/src/routes/oauth.rs:526-611 | over every run of handlers one at a time, after a revocation no token of the client is live in any later state, though refreshing never reads the revoked flag |
| `OAuthProvenance.ConsentsPermittedStep` | crates/delta/src/routes/oauth.rs:399-470 | every consent, and every request about to store one, stays within what its application may ask for, and a public application has a challenge |
| `OAuthProvenance.CodesTracedStep` | crates/delta/src/routes/oauth.rs:488-524 | every code stays tied to its own used consent with the same grant, redirect and challenge |
| `OAuthProvenance.FamiliesTracedStep` | crates/delta/src/routes/oauth.rs:574-636 | every family stays tied to its own used code |
| `OAuthProvenance.TokensTracedStep` | crates/delta/src/routes/oauth.rs:613-636 | every token and every rotation keeps the grant of the code that opened its family |
| `OAuthProvenance.EveryTokenFromConsent` | crates/delta/src/routes/oauth.rs:494-636 | in every interleaving each token, through any number of refreshes, traces to one used consent with the same user, client and scope, within the allowed scopes; who approved it is in OAuthTrace.EveryTokenApproved |
| `OAuthProvenance.FamiliesInjectIntoConsents` | crates/delta/src/routes/oauth.rs:494-636 | different families come from different codes and consents |
| `OAuthProvenance.DeniedYieldsNothing` | crates/delta/src/routes/oauth.rs:494-513 | after a denial no code, family or token ever comes from that consent |
| `OAuthCodes.OneAnswerStep` | crates/delta/src/routes/oauth.rs:574-746 | each code and each refresh token keeps at most one of: a request issuing for it, a response |
| `OAuthCodes.AtMostOneResponse` | crates/delta/src/routes/oauth.rs:574-636 | in every interleaving an authorization code, and likewise a refresh token, leads to at most one token response |
| `OAuthCodes.PublicClientsProveTheVerifier` | crates/delta/src/routes/oauth.rs:574-602 | a response for a code carries the grant of one used consent; if a challenge was stored when the user was asked, the request carried a verifier whose hash it is; for a public application there was one |
| `OAuthCodes.FailedExchangeBurns` | crates/delta/src/routes/oauth.rs:574-602 | an exchange with the wrong redirect address or without the fitting verifier burns the code: no response, before or after, is given for it |
| `OAuthTrace.EveryResponseProved` | crates/delta/src/routes/oauth.rs:526-746 | in every interleaving each response was asked for in the run by a request of its client that named the same code and verifier, or the same refresh token, and carried exactly the secret stored at that moment unless the application was public; the code or token was then taken unused and unexpired, and a code with the redirect address the user was asked about |
| `OAuthTrace.EveryTokenApproved` | crates/delta/src/routes/oauth.rs:494-524 | in every interleaving behind each token is one consent with its user, client and scope that an operation of the run approved: by that user, with the stored form token, before it expired and while unused; and that an operation asked for, with the application's leave |
| `OAuthTrace.OnlyReuseKills` | crates/delta/src/routes/oauth.rs:700-736 | in every interleaving a family is about to be killed only because a client it was given to presented one of the family's own tokens and proved itself |
| `OAuthSecrets.OnlyTheNewSecret` | crates/delta/src/routes/oauth.rs:1030-1046 | from a rotation to the next one, exactly the new secret admits the client's exchanges, refreshes and revocations in every later state |
| `OAuthSecrets.AppChanges` | crates/delta/src/routes/oauth.rs:1030-1093 | only the owner changes an application, and only the secret of a confidential one that is not revoked, or the revoked flag |
| `OAuthSecrets.AppsSoundRun` | crates/delta/src/routes/oauth.rs:957-1028 | over every run an application has a secret exactly when it is not public, and asks only for known scopes |
| `OAuthSecrets.RevokedTokenStaysDead` | crates/delta/src/routes/oauth.rs:757-823 | a token whose revocation request is accepted and runs through is live in no later state |
| `OAuthSecrets.LifetimesHold` | crates/delta/src/routes/oauth.rs:468-627 | in every interleaving a consent request and a code expire 300 seconds after the operation that stored them, an access token 600 and a refresh token 2592000 |
| `OAuthFlow.HonestFlowSucceeds` | crates/delta/src/routes/oauth.rs:369-636 | the flow of an honest client and an approving user, from any state, ends in a response with live tokens for exactly the client, user and scopes asked for |
| `OAuthFlow.HonestRefreshSucceeds` | crates/delta/src/routes/oauth.rs:656-746 | a live refresh token presented by its client becomes a new pair of the same family and grant, and is spent |
| `Ratelimit.SameWindow` | crates/core/ratelimits/src/ratelimiter.rs:58-67 | a further call in the window keeps the spacing of accepted calls |
| `Ratelimit.NextWindow` | crates/core/ratelimits/src/ratelimiter.rs:58-67 | a call that opens the next window keeps the spacing of accepted calls |
| `Ratelimit.CountBound` | crates/core/ratelimits/src/ratelimiter.rs:49-88 | spaced calls put at most twice the limit into any stretch of 10,000 ms |
| `Ratelimit.RefusedOk` | crates/core/ratelimits/src/ratelimiter.rs:75-81 | a refused call of a positive limit comes after the limit's worth of accepted calls, all but the first of them in the last 10,000 ms |
| `Ratelimit.Ratelimits.GetRemaining` | crates/core/ratelimits/src/ratelimiter.rs:75-81 | what is left, with no wrap-around, and positive exactly when the call is to be admitted |
| `Ratelimit.Ratelimits.From` | crates/core/ratelimits/src/ratelimiter.rs:100-137 | a call is accepted exactly when the limit is positive and the key is new, its window over or some limit left; the new entry is one more use of an open window or the first of one of 10,000 ms; a rejected call changes nothing and comes after the limit's worth of accepted calls, all but the first of them in the last 10,000 ms; the answered counts and times fit the entry |
| `Ratelimit.Ratelimits.UsedWithinLimit` | crates/core/ratelimits/src/ratelimiter.rs:75-81 | in every reachable state no key has used more than its limit |
| `Ratelimit.Ratelimits.AtMostTwiceTheLimit` | crates/core/ratelimits/src/ratelimiter.rs:49-88 | in every reachable state any stretch of 10,000 ms holds at most twice the limit of accepted calls |
| `Ratelimit.TwiceTheLimit` | crates/core/ratelimits/src/ratelimiter.rs:49-88 | the bound is reached for every positive limit |
| `Coalesce.InvStep` | crates/core/coalesced/src/service.rs:57-175 | every step of every interleaving keeps stored receivers, waiting calls, sent values and returned values in order |
| `Coalesce.EveryRun` | crates/core/coalesced/src/service.rs:69-98 | in every interleaving a receiver stored under an ID belongs to a call for that ID that has not removed its entry, and a value returned for an ID was produced by a function started for it |
| `Coalesce.JoinerAnswered` | crates/core/coalesced/src/service.rs:57-67 | whoever joined a call, executing or queued, returns the value that its function made, after any schedule in which that call has returned |
| `CoalesceProgress.SoloExactly` | crates/core/coalesced/src/service.rs:149-152 | the queue keeps one call per ID at every step but exactly one: enqueueing an ID that is already queued |
| `CoalesceProgress.ServedInOrder` | crates/core/coalesced/src/service.rs:156-163 | without such races a call that leaves the queue takes the front off and nothing else |
| `CoalesceProgress.FairSchedulesReturn` | crates/core/coalesced/src/service.rs:102-180 | after any run without such races, fair rounds bring every call to its return, if at least one execution is allowed |
| `CoalesceProgress.FairReturn` | crates/core/coalesced/src/service.rs:102-180 | from every calm state twice as many rounds as the total distance bring all calls to their return, whatever the order within each round |
| `CoalesceProgress.TurnsAreSteps` | crates/core/coalesced/src/service.rs:102-180 | the turns of a schedule are steps of the service, none of them a race |
| `CoalesceProgress.WorkingReturns` | crates/core/coalesced/src/service.rs:69-98 | a call that runs its function has returned after its own remaining steps, whatever the others do, races included |
| `CoalesceProgress.ExecutionJoinerAnswered` | crates/core/coalesced/src/service.rs:118-127 | whoever joined an execution is answered after at most seven steps of that execution, in any schedule |
| `CoalesceLoss.LostForever` | crates/core/coalesced/src/service.rs:153-178 | a spinning call whose ID is not in the queue never returns unless somebody calls with that ID again |
| `CoalesceLoss.JoinerOfLostWaits` | crates/core/coalesced/src/service.rs:135-139 | a call that joined a lost one waits as long |
| `CoalesceLoss.EveryRaceCanLose` | crates/core/coalesced/src/service.rs:149-178 | from every calm state in which a call can enqueue an ID already queued there is a continuation that leaves it lost |
| `CoalesceLoss.RaceCanLoseACall` | crates/core/coalesced/src/service.rs:149-178 | such a state is reached from the start |
| `CoalesceLoss.ZeroLimitSpins` | crates/core/coalesced/src/service.rs:153-178 | with no execution allowed a queued call spins forever |
| `CoalesceAdmission.RefusalsExplained` | crates/core/coalesced/src/service.rs:129-178 | over every run a call is refused for lack of room only without a queue, and for a full queue only with a bounded one |
| `CoalesceAdmission.AnyBoundRefusesAll` | crates/core/coalesced/src/service.rs:138-146 | over every run with any bound on the queue nobody is ever queued: whoever comes to it is refused |
| `CoalesceAdmission.SingleExactly` | crates/core/coalesced/src/service.rs:69-98 | each ID keeps one execution at a time at every step but exactly one: registering an ID that has one |
| `CoalesceAdmission.OneExecutionPerId` | crates/core/coalesced/src/service.rs:69-98 | in a run without such a registration two functions that run at the same time have different IDs |
| `CoalesceAdmission.TwoCanRun` | crates/core/coalesced/src/service.rs:114-127 | two calls that both look before either registers do run for one ID |
| `CoalesceAdmission.LimitExactly` | crates/core/coalesced/src/service.rs:114-178 | the limit on registered executions is kept at every step but exactly one: registering a further ID when it is reached |
| `CoalesceAdmission.ReturnsAnEnd` | crates/core/coalesced/src/service.rs:57-98 | in every interleaving a returned value is the one with which the function of a call for the same ID ended |
| `Acks.AllCoveredStep` | crates/core/database/src/util/acker.rs:7-33 | every storage or queue step keeps an event for each pending position |
| `Acks.PendingMeansEvent` | crates/daemons/crond/src/tasks/acks.rs:95-164 | in every interleaving a pending position has an event queued, in a consumer's hands or about to be published |
| `Acks.DrainedMeansCommitted` | crates/daemons/crond/src/tasks/acks.rs:95-164 | when all is drained nothing is pending and the database is at or past the position that a request or a server acknowledgement wrote last, with any number of consumers |
| `Acks.ReadNeverMovesBack` | crates/core/database/src/models/channel_unreads/ops/mongodb.rs:18-54 | a committed read position never moves back in any interleaving |
| `Acks.NothingAcknowledgedIsLost` | crates/core/database/src/util/acker.rs:7-33 | in a run in which no write lowers the pending position of a key, the drained database is at or past every position that requests and server items acknowledged for it |
| `Acks.OrderlyNeverLowers` | crates/core/database/src/util/acker.rs:13-24 | requests for a key that do not overlap between read and write, with no server acknowledgement writing that key, never lower its pending position |
| `Acks.OverlapExactly` | crates/core/database/src/util/acker.rs:13-24 | two requests that both pass their read: the pending position ends at or past both exactly when the last writer has the higher one |
| `Acks.InTurnKeepsBoth` | crates/core/database/src/util/acker.rs:13-24 | one after the other, it always does |
| `Acks.OverlapLoses` | crates/core/database/src/util/acker.rs:13-24 | an overlap after which the drained database is behind an acknowledged position |
| `AckHistory.EverythingAskedIsCommitted` | crates/core/database/src/util/acker.rs:7-86 | in every run that drains, each position that an operation asked for, alone or among the items of a server acknowledgement, is reached in the database, if from then on no write lowers the pending position of its key |
| `AckHistory.OnlyWhatWasAsked` | crates/core/database/src/util/acker.rs:7-86 | in every run what is pending and what the database holds are positions that some operation asked for, for that user and channel |
| `AckHistory.ServerWrites` | crates/core/database/src/util/acker.rs:58-75 | a server acknowledgement leaves its next item's position pending under the user's own key whatever was there, and announces it exactly when nothing or the same was |
| `AckHistory.ConsumeCommits` | crates/daemons/crond/src/tasks/acks.rs:95-164 | a consumer takes the pending position away and commits it without moving the database back |
| `AckHistory.QueueInOrder` | crates/daemons/crond/src/tasks/acks.rs:95-164 | in every interleaving the queue delivers what was published, in order and once |
| `AckWorker.DueExactly` | crates/core/database/src/tasks/mod.rs:59-63 | a task is due exactly when flagged, 31 seconds old or 6 seconds idle |
| `AckWorker.TakenWholeExactly` | crates/core/database/src/tasks/ack.rs:260-304 | taking an event in loses none of its messages exactly when nothing waits under its key or it holds at most one |
| `AckWorker.Worker.Due` | crates/core/database/src/tasks/ack.rs:218-223 | finds exactly the due tasks, each looked at once at its own time |
| `AckWorker.Worker.HandOne` | crates/core/database/src/tasks/ack.rs:226-238 | moves one task to the handler; nothing is lost or reordered |
| `AckWorker.Worker.Scan` | crates/core/database/src/tasks/ack.rs:218-241 | hands on exactly the tasks that are flagged, 31 seconds old or 6 seconds idle when looked at; none that stays was so when the scan began; everything taken in stays accounted for, in order |
| `AckWorker.Worker.Take` | crates/core/database/src/tasks/ack.rs:243-305 | nothing changes under other keys; a new task has both its instants; an acknowledgement replaces the waiting one and puts it off; of a batch the last message is appended, a mass mention makes the task due at every instant, another message puts it off below the limit; a pending acknowledgement is the last one popped; with one message an event the batches and the pending batch are the messages popped, in order |
| `AckWorker.Worker.Turn` | crates/core/database/src/tasks/ack.rs:216-309 | a whole turn keeps all that; what was due, flagged tasks included, has been handed on; a waiting task that took a mass mention is flagged, so the next scan hands it on; a task that no incoming event touched was there before and was not due when the turn began |
| `AckWorker.FanOut` | crates/core/database/src/tasks/ack.rs:120-152 | each user is told of exactly the messages of the batch that mention them, in order |
| `AckWorker.Worker.MentionsConserved` | crates/core/database/src/tasks/ack.rs:120-152 | the mentions added so far followed by those of the pending batch are the user's among all messages popped |
| `AckWorker.Notices` | crates/core/database/src/tasks/ack.rs:154-185 | a push notice for exactly the messages that are not silenced, are to be pushed and mention somebody or everybody, in order, and the mass mentions among them |
| `AckWorker.Worker.PushesConserved` | crates/core/database/src/tasks/ack.rs:154-185 | the pushes sent so far followed by those of the pending batch are those of all messages popped |
| `Parser.OutputIsSubsequence` | crates/core/parser/src/lib.rs:44-76 | the output is a subsequence of the input |
| `Parser.PlainPasses` | crates/core/parser/src/lib.rs:44-76 | a token that is neither an escape nor a marker passes |
| `Parser.EscapeDropsNext` | crates/core/parser/src/lib.rs:53-56 | an escape passes and takes the next token away |
| `Parser.BlockIsEmptied` | crates/core/parser/src/lib.rs:58-70 | a block between two equal markers is emptied |
| `Parser.UnclosedPasses` | crates/core/parser/src/lib.rs:58-70 | a marker without a later equal one passes with all that follows; the four laws fix the filter |
| `Parser.FixedPointExactly` | crates/core/parser/src/lib.rs:44-76 | filtering twice is filtering once exactly when no escape the filter acts on is followed by more than one token |
| `Parser.EscapeFreeFixedPoint` | crates/core/parser/src/lib.rs:44-76 | on escape-free lists the output is a fixed point |
| `Parser.EscapeCanEatTwice` | crates/core/parser/src/lib.rs:53-56 | a list on which it is not |
| `Parser.MessageParserIterator.SkipBlock` | crates/core/parser/src/lib.rs:58-70 | reads up to the first equal marker, or buffers all the rest |
| `Parser.MessageParserIterator.Next` | crates/core/parser/src/lib.rs:47-76 | each call yields the next token of the filtered list, and nothing exactly at its end |
| `Parser.ParseAll` | crates/core/parser/src/lib.rs:78-83 | draining the iterator terminates and yields the filtered list |
| `Parser.ParseMessage` | crates/core/parser/src/lib.rs:85-110 | each kind of mention found is exactly that of the filtered list |
| `Presence.Redis.CreateSession` | crates/core/presence/src/lib.rs:28-52 | adds the session to its user and region; reports the first session; the session sets stay the union over the regions and the online set the users with a session |
| `Presence.Redis.SessionId` | crates/core/presence/src/lib.rs:36-39 | the flag is the lowest bit of the session ID |
| `Presence.Redis.DeleteSession` | crates/core/presence/src/lib.rs:55-85 | removes the session from its user and region; reports whether none is left; keeps all that; the reports stay in turns exactly when the user had a session |
| `Presence.Redis.ClearRegion` | crates/core/presence/src/lib.rs:166-193 | removes exactly the sessions of that region; the reports stay right exactly when nobody loses their last session |
| `Presence.Redis.IsOnline` | crates/core/presence/src/lib.rs:88-96 | true exactly for users with a session |
| `Presence.Redis.FilterOnline` | crates/core/presence/src/lib.rs:98-163 | both variants return exactly the given users who have a session |
| `Presence.Redis.OnlineExactly` | crates/core/presence/src/lib.rs:28-85 | the online set is the users with a session in some region |
| `Presence.Redis.FlagsAlternate` | crates/core/presence/src/lib.rs:28-85 | while every deletion is for a user with a session and no cleared region takes a last one, first and last reports of a user alternate and the last one is right |
| `Presence.DeletionExactly` | crates/core/presence/src/lib.rs:60-85 | a deletion keeps the reports in turns exactly when the user had a session |
| `Presence.SilenceExactly` | crates/core/presence/src/lib.rs:166-193 | unreported removals keep the reports right exactly when nobody loses their last session |
| `Presence.DeletingTwiceAnnouncesTwice` | crates/core/presence/src/lib.rs:60-85 | deleting a session that is gone reports a departure again |

## Left out

- HTTP and WebSocket framing, guards, serialization, HTML and error texts: no property of their own.
- The ready payload: a connection starts from any state in which the invariants hold; `GatewayState.State.SubscribeReady` gives the subscriptions only.
- Message and presence rewriting in the gateway (relationship of a message's author, online broadcasts): does not touch cache or subscriptions.
- Fields of servers, channels, members and roles that no modelled branch reads.
- Direct message, group and saved message permissions and the user calculator: plain case analysis.
- Redirect URI syntax, application names, `state`, response types and user lookup of the authorization endpoints: checks without state; the model takes a redirect URI as valid when it is on the application's list.
- Bearer access to user data: reads only.
- Ratelimit.Ratelimits.From: one call is one step and one key has one limit; races inside the map and hash collisions are not modelled, nor is the 32-bit width of counters.
- Coalescing with a result cache, cancellation of a call, and values of different types under one ID.
- CoalesceProgress.FairReturn: a call that would race is held back, and no new calls come in during the rounds.
- Acks.DrainedMeansCommitted: no failed publishes, fetches or commits; the mention counts and push notices of a commit are not modelled.
- The fetch of the channel before a mass-mention notice, and the sending of notices: the model gives the messages they go out for.
- AckWorker.Worker.Take: an event without messages is taken in as the program does; the handler's index into an empty batch is not modelled.
- The lexer of the message parser: the model starts from tokens.
- Presence.Redis.CreateSession: one call is one step, a session ID is not reused for a user, and the text form of a region's entries is a pair.
- Voice, push consumers, files, embeds, payments, discovery and administration: thin wrappers or foreign libraries.
