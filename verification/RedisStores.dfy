// internal/infrastructure/redis: both stores over one client. Each method is proved
// against the map of its own name space and to leave the other spaces alone.
module RedisStores {
  import opened Common
  import opened RedisKeyspace
  import opened AccountTables

  class Client {
    var data: Store

    constructor ()
      ensures data == map[]
    {
      data := map[];
    }

    method Set(key: string, value: string, ttl: nat, now: Time)
      modifies this
      ensures data == Do(old(data), Put(key, value, ttl), now).store
    {
      data := data[key := Entry(value, if ttl == 0 then None else Some(now + ttl))];
    }

    // Atomic read and delete.
    method GetDel(key: string, now: Time) returns (value: Option<string>)
      modifies this
      ensures Outcome(data, value) == Do(old(data), Take(key), now)
    {
      value := None;
      if key in data && AliveAt(data[key], now) {
        value := Some(data[key].value);
        data := data - {key};
      }
    }

    method Get(key: string, now: Time) returns (value: Option<string>)
      ensures Outcome(data, value) == Do(data, Peek(key), now)
    {
      value := if key in data && AliveAt(data[key], now) then Some(data[key].value) else None;
    }

    method Del(key: string)
      modifies this
      ensures data == old(data) - {key}
    {
      data := data - {key};
    }
  }

  function PurposeName(p: Purpose): string {
    match p
    case VerifyEmail => PURPOSE_VERIFY_EMAIL
    case PasswordReset => PURPOSE_PASSWORD_RESET
  }

  function SpaceOf(p: Purpose): Space {
    match p
    case VerifyEmail => VerifyTokens
    case PasswordReset => ResetTokens
  }

  // Exactly one space moved, and by this command.
  ghost predicate ActsOn(before: Store, after: Store, space: Space, op: Op, now: Time) {
    && Sub(after, space) == Do(Sub(before, space), op, now).store
    && forall other | other != space :: Sub(after, other) == Sub(before, other)
  }

  lemma CommandActsOn(s: Store, space: Space, op: Op, now: Time)
    ensures ActsOn(s, Do(s, InSpace(space, op), now).store, space, op, now)
    ensures Do(s, InSpace(space, op), now).answer == Do(Sub(s, space), op, now).answer
  {
    hide Do, Sub;
    CommandActsInside(s, space, op, now);
    forall other | other != space ensures Sub(Do(s, InSpace(space, op), now).store, other) == Sub(s, other) {
      CommandStaysInSpace(s, space, op, now, other);
    }
  }

  lemma KeyIsInSpace(p: Purpose, token: string)
    ensures TokenKey(PurposeName(p), token) == Prefix(SpaceOf(p)) + token
    ensures TokenKey(PurposeName(p), token) ==
      (if p == VerifyEmail then "token:verify_email:" else "token:password_reset:") + token
  {
    KeysHavePrefixes(token);
    hide TokenKey, Prefix;
  }

  class TokenStore {
    const client: Client

    constructor (client: Client)
      ensures this.client == client
    {
      this.client := client;
    }

    // `random` is the hex form of the 32 random bytes.
    method Issue(purpose: Purpose, userID: Id, ttl: nat, random: string, now: Time) returns (token: string)
      modifies client
      ensures token == random
      ensures ActsOn(old(client.data), client.data, SpaceOf(purpose), Put(random, userID, ttl), now)
      ensures var key := (if purpose == VerifyEmail then "token:verify_email:" else "token:password_reset:") + token;
        client.data == old(client.data)[key := Entry(userID, if ttl == 0 then None else Some(now + ttl))]
    {
      token := random;
      KeyIsInSpace(purpose, token);
      CommandActsOn(client.data, SpaceOf(purpose), Put(token, userID, ttl), now);
      hide ActsOn, Sub, Prefix, TokenKey;
      client.Set(TokenKey(PurposeName(purpose), token), userID, ttl, now);
    }

    method Consume(purpose: Purpose, token: string, now: Time) returns (r: Result<Id, Error>)
      modifies client
      ensures ActsOn(old(client.data), client.data, SpaceOf(purpose), Take(token), now)
      ensures r == match Lookup(Sub(old(client.data), SpaceOf(purpose)), token, now) case Some(id) => Ok(id)
        case None => Err(ErrTokenInvalid)
      ensures var data := old(client.data);
        var key := (if purpose == VerifyEmail then "token:verify_email:" else "token:password_reset:") + token;
        if key in data && (data[key].expires == None || now < data[key].expires.value)
        then r == Ok(data[key].value) && client.data == data - {key}
        else r == Err(ErrTokenInvalid) && client.data == data
    {
      KeyIsInSpace(purpose, token);
      CommandActsOn(client.data, SpaceOf(purpose), Take(token), now);
      hide ActsOn, Sub, Prefix, TokenKey;
      var value := client.GetDel(TokenKey(PurposeName(purpose), token), now);
      r := match value case Some(id) => Ok(id) case None => Err(ErrTokenInvalid);
    }
  }

  datatype HubError = ErrSessionNotFound

  class HubSessionStore {
    const client: Client
    const ttl: nat

    constructor (client: Client, ttl: nat)
      ensures this.client == client && this.ttl == ttl
    {
      this.client, this.ttl := client, ttl;
    }

    method Create(subject: Id, random: string, now: Time) returns (id: string)
      modifies client
      ensures id == random && ActsOn(old(client.data), client.data, HubSessions, Put(random, subject, ttl), now)
      ensures client.data ==
        old(client.data)["hubsession:" + id := Entry(subject, if ttl == 0 then None else Some(now + ttl))]
    {
      id := random;
      KeysHavePrefixes(id);
      CommandActsOn(client.data, HubSessions, Put(id, subject, ttl), now);
      hide ActsOn, Sub, Prefix, HubKey;
      client.Set(HubKey(id), subject, ttl, now);
    }

    method Subject(id: string, now: Time) returns (r: Result<Id, HubError>)
      ensures r == match Lookup(Sub(client.data, HubSessions), id, now) case Some(sub) => Ok(sub)
        case None => Err(ErrSessionNotFound)
      ensures var key, data := "hubsession:" + id, client.data;
        r == if key in data && (data[key].expires == None || now < data[key].expires.value)
             then Ok(data[key].value) else Err(ErrSessionNotFound)
    {
      KeysHavePrefixes(id);
      CommandActsOn(client.data, HubSessions, Peek(id), now);
      hide ActsOn, Sub, Prefix, HubKey;
      var value := client.Get(HubKey(id), now);
      r := match value case Some(sub) => Ok(sub) case None => Err(ErrSessionNotFound);
    }

    method Delete(id: string)
      modifies client
      ensures Sub(client.data, HubSessions) == Sub(old(client.data), HubSessions) - {id}
      ensures forall other | other != HubSessions :: Sub(client.data, other) == Sub(old(client.data), other)
      ensures client.data == old(client.data) - {"hubsession:" + id}
    {
      KeysHavePrefixes(id);
      CommandActsOn(client.data, HubSessions, Drop(id), 0);
      hide Sub, Prefix, HubKey;
      client.Del(HubKey(id));
    }
  }

  // ---- Hub sessions over any run of the shared keyspace ----

  // What the commands say about one key: the latest Put or Drop of it decides.
  function Recorded(commands: seq<Command>, id: string, now: Time): Option<string> {
    if commands == [] then None
    else
      var n := |commands| - 1;
      var c := commands[n];
      match c.op
      case Put(key, subject, ttl) =>
        if c.space == HubSessions && key == id then (if ttl == 0 || now < c.now + ttl then Some(subject) else None)
        else Recorded(commands[..n], id, now)
      case Drop(key) => if c.space == HubSessions && key == id then None else Recorded(commands[..n], id, now)
      case _ => Recorded(commands[..n], id, now)
  }

  // No store method takes a hub session.
  predicate HubOnlyPeeks(commands: seq<Command>) {
    forall c | c in commands :: c.space == HubSessions ==> !c.op.Take?
  }

  // In any run that mixes token and hub commands with arbitrary keys, a hub session is
  // answered exactly from its latest creation, until its time is up or it is deleted.
  lemma {:induction false} HubSessionsAnswerTheLatestCreate(commands: seq<Command>, id: string, now: Time)
    requires HubOnlyPeeks(commands)
    ensures Lookup(Sub(RunFlat(map[], commands).store, HubSessions), id, now) == Recorded(commands, id, now)
  {
    hide Sub, Prefix;
    if commands == [] {
      NothingStored();
    } else {
      var n := |commands| - 1;
      var c := commands[n];
      var before := RunFlat(map[], commands[..n]).store;
      HubSessionsAnswerTheLatestCreate(commands[..n], id, now);
      assert c in commands;
      if c.space == HubSessions {
        CommandActsInside(before, HubSessions, c.op, c.now);
      } else {
        CommandStaysInSpace(before, c.space, c.op, c.now, HubSessions);
      }
    }
  }

  lemma NothingStored()
    ensures Sub(map[], HubSessions) == map[]
  {
    SeesIsUnique(map[], HubSessions, map[]);
  }
}
