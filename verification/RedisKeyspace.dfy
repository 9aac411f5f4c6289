// One flat, expiring Redis keyspace shared by two kinds of one-time tokens and by hub
// sessions: internal/infrastructure/redis/token_store.go and hub_session_store.go.
module RedisKeyspace {
  import opened Common

  datatype Entry = Entry(value: string, expires: Option<Time>)

  type Store = map<string, Entry>

  predicate AliveAt(e: Entry, now: Time) {
    e.expires == None || now < e.expires.value
  }

  // SET key value, GETDEL key, GET key, DEL key. A time to live of 0 means none. An
  // expired entry is never answered; when Redis evicts it cannot be observed.
  datatype Op = Put(key: string, value: string, ttl: nat) | Take(key: string) | Peek(key: string) | Drop(key: string)

  datatype Outcome = Outcome(store: Store, answer: Option<string>)

  function Lookup(s: Store, key: string, now: Time): Option<string> {
    if key in s && AliveAt(s[key], now) then Some(s[key].value) else None
  }

  function Do(s: Store, op: Op, now: Time): Outcome {
    match op
    case Put(key, value, ttl) => Outcome(s[key := Entry(value, if ttl == 0 then None else Some(now + ttl))], None)
    case Take(key) => Outcome(if Lookup(s, key, now).Some? then s - {key} else s, Lookup(s, key, now))
    case Peek(key) => Outcome(s, Lookup(s, key, now))
    case Drop(key) => Outcome(s - {key}, None)
  }

  // ---- Three name spaces inside the flat one ----

  datatype Space = VerifyTokens | ResetTokens | HubSessions

  const PURPOSE_VERIFY_EMAIL := "verify_email"
  const PURPOSE_PASSWORD_RESET := "password_reset"

  // fmt.Sprintf("token:%s:%s", purpose, token)
  function TokenKey(purpose: string, token: string): string {
    "token:" + purpose + ":" + token
  }

  function HubKey(id: string): string {
    "hubsession:" + id
  }

  function Prefix(space: Space): string {
    match space
    case VerifyTokens => "token:verify_email:"
    case ResetTokens => "token:password_reset:"
    case HubSessions => "hubsession:"
  }

  lemma KeysHavePrefixes(s: string)
    ensures TokenKey(PURPOSE_VERIFY_EMAIL, s) == Prefix(VerifyTokens) + s
    ensures TokenKey(PURPOSE_PASSWORD_RESET, s) == Prefix(ResetTokens) + s
    ensures HubKey(s) == Prefix(HubSessions) + s
    ensures Prefix(VerifyTokens) == "token:verify_email:" && Prefix(ResetTokens) == "token:password_reset:"
    ensures Prefix(HubSessions) == "hubsession:"
  {
    assert "token:" + PURPOSE_VERIFY_EMAIL + ":" == Prefix(VerifyTokens);
    assert "token:" + PURPOSE_PASSWORD_RESET + ":" == Prefix(ResetTokens);
  }

  // No key of one space is a key of another, whatever the caller-supplied part is.
  lemma SpacesAreDisjoint(a: Space, b: Space, x: string, y: string)
    ensures Prefix(a) + x == Prefix(b) + y <==> a == b && x == y
  {
    var k, l := Prefix(a) + x, Prefix(b) + y;
    assert k[0] == Prefix(a)[0] && l[0] == Prefix(b)[0];
    assert k[6] == Prefix(a)[6] && l[6] == Prefix(b)[6];
    assert k[|Prefix(a)|..] == x && l[|Prefix(b)|..] == y;
  }

  // The part of the flat store that one space sees, under its own keys.
  ghost predicate Sees(s: Store, space: Space, m: Store) {
    && (forall x {:trigger m[x]} {:trigger x in m} | x in m :: Prefix(space) + x in s && s[Prefix(space) + x] == m[x])
    && (forall x {:trigger Prefix(space) + x} | Prefix(space) + x in s :: x in m)
  }

  function Sub(s: Store, space: Space): (m: Store)
    ensures Sees(s, space, m)
  {
    var n := |Prefix(space)|;
    var keys := set k | k in s && Prefix(space) <= k;
    assert forall k | k in keys :: Prefix(space) + k[n..] == k;
    var m := map x | x in (set k | k in keys :: k[n..]) && Prefix(space) + x in s :: s[Prefix(space) + x];
    assert forall x | Prefix(space) + x in s :: (Prefix(space) + x)[n..] == x && Prefix(space) + x in keys;
    m
  }

  lemma SeesIsUnique(s: Store, space: Space, m: Store)
    requires Sees(s, space, m)
    ensures m == Sub(s, space)
  {
    var sub := Sub(s, space);
    assert forall x | x in m :: x in sub && sub[x] == m[x];
    assert forall x | x in sub :: x in m;
  }

  function InSpace(space: Space, op: Op): Op {
    op.(key := Prefix(space) + op.key)
  }

  lemma PutInside(s: Store, space: Space, x: string, e: Entry)
    ensures Sub(s[Prefix(space) + x := e], space) == Sub(s, space)[x := e]
  {
    hide Prefix;
    forall y ensures Prefix(space) + y == Prefix(space) + x <==> y == x { SpacesAreDisjoint(space, space, y, x); }
    SeesIsUnique(s[Prefix(space) + x := e], space, Sub(s, space)[x := e]);
  }

  lemma DropInside(s: Store, space: Space, x: string)
    ensures Sub(s - {Prefix(space) + x}, space) == Sub(s, space) - {x}
  {
    hide Prefix;
    forall y ensures Prefix(space) + y == Prefix(space) + x <==> y == x { SpacesAreDisjoint(space, space, y, x); }
    SeesIsUnique(s - {Prefix(space) + x}, space, Sub(s, space) - {x});
  }

  lemma OutsideUntouched(s: Store, space: Space, other: Space, x: string, s': Store)
    requires other != space
    requires forall k | k != Prefix(space) + x :: (k in s' <==> k in s) && (k in s ==> s'[k] == s[k])
    ensures Sub(s', other) == Sub(s, other)
  {
    hide Prefix;
    forall y ensures Prefix(other) + y != Prefix(space) + x { SpacesAreDisjoint(other, space, y, x); }
    SeesIsUnique(s', other, Sub(s, other));
  }

  lemma LookupInside(s: Store, space: Space, x: string, now: Time)
    ensures Lookup(s, Prefix(space) + x, now) == Lookup(Sub(s, space), x, now)
  {
    hide Prefix;
  }

  // One command through a space acts on that space's own map ...
  lemma CommandActsInside(s: Store, space: Space, op: Op, now: Time)
    ensures var flat := Do(s, InSpace(space, op), now);
      Sub(flat.store, space) == Do(Sub(s, space), op, now).store && flat.answer == Do(Sub(s, space), op, now).answer
  {
    hide Prefix, Sub, Lookup;
    LookupInside(s, space, op.key, now);
    match op
    case Put(x, value, ttl) => PutInside(s, space, x, Entry(value, if ttl == 0 then None else Some(now + ttl)));
    case Take(x) => if Lookup(s, Prefix(space) + x, now).Some? { DropInside(s, space, x); }
    case Peek(_) =>
    case Drop(x) => DropInside(s, space, x);
  }

  // ... and on nothing else.
  lemma CommandStaysInSpace(s: Store, space: Space, op: Op, now: Time, other: Space)
    requires other != space
    ensures Sub(Do(s, InSpace(space, op), now).store, other) == Sub(s, other)
  {
    hide Prefix, Sub, Lookup;
    OutsideUntouched(s, space, other, op.key, Do(s, InSpace(space, op), now).store);
  }

  // ---- Whole runs ----

  datatype Command = Command(space: Space, op: Op, now: Time)

  datatype Trace = Trace(store: Store, answers: seq<Option<string>>)

  function RunFlat(s: Store, commands: seq<Command>): (r: Trace)
    ensures |r.answers| == |commands|
  {
    if commands == [] then Trace(s, [])
    else
      var n := |commands| - 1;
      var before := RunFlat(s, commands[..n]);
      var last := Do(before.store, InSpace(commands[n].space, commands[n].op), commands[n].now);
      Trace(last.store, before.answers + [last.answer])
  }

  // A map of its own, driven by plain keys.
  function RunAlone(s: Store, commands: seq<Command>): (r: Trace)
    ensures |r.answers| == |commands|
  {
    if commands == [] then Trace(s, [])
    else
      var n := |commands| - 1;
      var before := RunAlone(s, commands[..n]);
      var last := Do(before.store, commands[n].op, commands[n].now);
      Trace(last.store, before.answers + [last.answer])
  }

  function Through(commands: seq<Command>, space: Space): seq<Command> {
    if commands == [] then []
    else
      var n := |commands| - 1;
      if commands[n].space == space then Through(commands[..n], space) + [commands[n]]
        else Through(commands[..n], space)
  }

  function AnswersThrough(commands: seq<Command>, answers: seq<Option<string>>, space: Space): seq<Option<string>>
    requires |answers| == |commands|
    decreases |commands|
  {
    if commands == [] then []
    else
      var n := |commands| - 1;
      var front := AnswersThrough(commands[..n], answers[..n], space);
      if commands[n].space == space then front + [answers[n]] else front
  }

  // For every run over the shared keyspace, each space holds and answers exactly what
  // a private map would, had it received only that space's commands.
  lemma {:induction false} KeyspaceRefinesThreeMaps(s: Store, commands: seq<Command>, space: Space)
    ensures var flat, alone := RunFlat(s, commands), RunAlone(Sub(s, space), Through(commands, space));
      && Sub(flat.store, space) == alone.store
      && AnswersThrough(commands, flat.answers, space) == alone.answers
  {
    hide Sub;
    if commands != [] {
      var n := |commands| - 1;
      var c := commands[n];
      KeyspaceRefinesThreeMaps(s, commands[..n], space);
      assert RunFlat(s, commands).answers[..n] == RunFlat(s, commands[..n]).answers;
      if c.space != space {
        CommandStaysInSpace(RunFlat(s, commands[..n]).store, c.space, c.op, c.now, space);
      } else {
        CommandActsInside(RunFlat(s, commands[..n]).store, space, c.op, c.now);
        var front := Through(commands[..n], space);
        assert (front + [c])[..|front|] == front;
      }
    }
  }
}
