/** The stored records that the gateway and the permission calculators share.
    Fields that no modelled branch reads are not represented. */
module Entities {
  datatype Option<+T> = None | Some(value: T)

  type Id = string

  /** A 64-bit permission value is the set of the positions of its one bits. */
  type Bit = b: nat | b < 64
  type Bits = set<Bit>

  /** A permission override: allow flags and deny flags. */
  datatype Override = Override(allow: Bits, deny: Bits)

  datatype Role = Role(rank: int, permissions: Override)

  datatype Server = Server(
    id: Id, owner: Id, channels: seq<Id>, roles: map<Id, Role>, defaultPermissions: Bits)

  /** A member of a server; `timeout` is the instant until which they are timed out. */
  datatype Member = Member(
    server: Id, user: Id, roles: seq<Id>, timeout: Option<int>, canPublish: bool, canReceive: bool)
  {
    predicate InTimeout(now: int) {
      timeout.Some? && timeout.value > now
    }
  }

  datatype Relationship = NoRelation | Self | Friend | Outgoing | Incoming | Blocked | BlockedOther

  datatype User = User(id: Id, privileged: bool, relations: map<Id, Relationship>)
  {
    function RelationshipWith(other: Id): Relationship {
      if id == other then Self
      else if other in relations then relations[other]
      else NoRelation
    }
  }

  datatype Channel =
    | SavedMessages(id: Id, user: Id)
    | DirectMessage(id: Id, recipients: seq<Id>)
    | Group(id: Id, recipients: seq<Id>)
    | TextChannel(id: Id, server: Id, defaults: Option<Override>, rolePermissions: map<Id, Override>)

  /** What the database answers while one request is handled; an absent key is a failed fetch. */
  datatype Db = Db(servers: map<Id, Server>, members: map<(Id, Id), Member>, channels: map<Id, Channel>)
  {
    function FetchServer(id: Id): Option<Server> {
      if id in servers then Some(servers[id]) else None
    }

    function FetchMember(server: Id, user: Id): Option<Member> {
      if (server, user) in members then Some(members[(server, user)]) else None
    }

    function FetchChannel(id: Id): Option<Channel> {
      if id in channels then Some(channels[id]) else None
    }

    /** The listed channels that exist. */
    function FetchChannels(ids: seq<Id>): seq<Channel> {
      if ids == [] then []
      else (if ids[0] in channels then [channels[ids[0]]] else []) + FetchChannels(ids[1..])
    }

    /** Fetches answer with the record that carries the requested ID. */
    ghost predicate Keyed() {
      && (forall s <- servers :: servers[s].id == s)
      && (forall c <- channels :: channels[c].id == c)
    }
  }

  /** There is always an ID that has not been used. */
  lemma FreshId(ids: set<Id>) returns (id: Id)
    ensures id !in ids
  {
    id := "";
    var left := ids;
    while left != {}
      invariant left <= ids
      invariant forall x <- ids - left :: |x| < |id|
      decreases left
    {
      var x :| x in left;
      left := left - {x};
      id := seq(|id| + |x| + 1, _ => 'r');
    }
    assert ids - left == ids;
  }
}
