// The protocol machines with the string functions that the service really uses.
module GoText {
  import opened Common
  import opened Strings
  import Text
  import Slug
  import AccountTables
  import AccountCalls
  import AccountSystem
  import AccountInvariant
  import AccountRuns
  import AccountOutcomes
  import WorkspaceSystem
  import WorkspaceSlugs

  function Setup(t: Text.Table, hasher: AccountTables.Hasher): AccountCalls.Setup {
    AccountCalls.Setup(GoStrings(t), hasher)
  }

  // Two texts that differ at most in outer white space and in case.
  ghost predicate SameSpelling(t: Text.Table, a: string, b: string) {
    exists e :: Text.Spells(t, a, e) && Text.Spells(t, b, e)
  }

  lemma SameSpellingIsSameForm(t: Text.Table, a: string, b: string)
    ensures SameSpelling(t, a, b) <==> Text.Normalize(t, a) == Text.Normalize(t, b)
  {
    hide Text.Spells;
    forall raw, e ensures Text.Spells(t, raw, e) <==> Text.Normalize(t, raw) == e {
      Text.NormalizeIsSpelled(t, raw, e);
    }
    if Text.Normalize(t, a) == Text.Normalize(t, b) {
      assert Text.Spells(t, a, Text.Normalize(t, b)) && Text.Spells(t, b, Text.Normalize(t, b));
    }
  }

  lemma Reachable(t: Text.Table, hasher: AccountTables.Hasher, mode: AccountCalls.Mode,
          events: seq<AccountSystem.Event>)
    ensures var db := AccountSystem.Run(Setup(t, hasher), mode, AccountSystem.INITIAL, events).db;
      && AccountInvariant.EmailsMatch(db.users, db.emails)
      && forall id | id in db.users ::
           '@' in db.users[id].email && AccountInvariant.Normal(Setup(t, hasher), db.users[id].email)
  {
    AccountRuns.RunKeeps(Setup(t, hasher), mode, events);
    hide AccountSystem.Run, AccountRuns.CallOk, AccountInvariant.TokensMatch, AccountInvariant.EmailsMatch,
         AccountInvariant.Normal;
  }

  // In every reachable state a stored address has an '@', no outer white space and no
  // character that lower-casing would change. It is its own spelling, and so the
  // lookup finds exactly its row.
  lemma StoredAddressesAreFound(t: Text.Table, hasher: AccountTables.Hasher, mode: AccountCalls.Mode,
                                events: seq<AccountSystem.Event>, id: Id)
    requires Text.Lawful(t)
    requires id in AccountSystem.Run(Setup(t, hasher), mode, AccountSystem.INITIAL, events).db.users
    ensures var db := AccountSystem.Run(Setup(t, hasher), mode, AccountSystem.INITIAL, events).db;
      var e := db.users[id].email;
      && '@' in e && !t.space(e[0]) && !t.space(e[|e| - 1])
      && (forall i | 0 <= i < |e| :: t.lower(e[i]) == e[i])
      && Text.Spells(t, e, e) && Text.Normalize(t, e) == e
      && AccountTables.FindByEmail(db, Text.Normalize(t, e)) == Some(db.users[id])
  {
    Reachable(t, hasher, mode, events);
    hide AccountSystem.Run, Text.Normalize, Text.Spells, Text.Lawful;
    var w := Setup(t, hasher);
    var db := AccountSystem.Run(w, mode, AccountSystem.INITIAL, events).db;
    var raw :| db.users[id].email == w.text.normal(raw);
    Text.NormalizeIsIdempotent(t, raw);
    Text.NormalizeIsSpelled(t, db.users[id].email, db.users[id].email);
  }

  // The lookup of an entered address finds the row whose stored address it spells, and
  // no other.
  lemma SpellingsFindTheirRow(t: Text.Table, hasher: AccountTables.Hasher, mode: AccountCalls.Mode,
                              events: seq<AccountSystem.Event>, id: Id, raw: string)
    requires id in AccountSystem.Run(Setup(t, hasher), mode, AccountSystem.INITIAL, events).db.users
    ensures var db := AccountSystem.Run(Setup(t, hasher), mode, AccountSystem.INITIAL, events).db;
      && (AccountTables.FindByEmail(db, Text.Normalize(t, raw)) == Some(db.users[id]) <==>
            Text.Spells(t, raw, db.users[id].email))
      && (Text.Spells(t, raw, db.users[id].email) <==> Text.Normalize(t, raw) == db.users[id].email)
  {
    Reachable(t, hasher, mode, events);
    hide AccountSystem.Run, AccountInvariant.Normal, Text.Normalize, Text.Spells;
    var db := AccountSystem.Run(Setup(t, hasher), mode, AccountSystem.INITIAL, events).db;
    Text.NormalizeIsSpelled(t, raw, db.users[id].email);
  }

  // ---- One account per spelling ----

  function Reply(t: Text.Table, hasher: AccountTables.Hasher, mode: AccountCalls.Mode,
                 events: seq<AccountSystem.Event>, req: AccountCalls.Request, inputs: nat -> AccountCalls.Env)
    : AccountCalls.Turn
  {
    var w := Setup(t, hasher);
    AccountCalls.Execute(w, AccountSystem.Run(w, mode, AccountSystem.INITIAL, events).db, req, inputs)
  }

  // In every reachable state, an entered address that spells a stored one logs in as
  // that account, with its password and once it is verified; a wrong password is
  // refused alike, verified or not. An address that spells none is refused.
  lemma LoginBySpelling(t: Text.Table, hasher: AccountTables.Hasher, mode: AccountCalls.Mode,
                        events: seq<AccountSystem.Event>, raw: string, password: AccountTables.Password,
                        inputs: nat -> AccountCalls.Env)
    ensures var users := AccountSystem.Run(Setup(t, hasher), mode, AccountSystem.INITIAL, events).db.users;
      var reply := Reply(t, hasher, mode, events, AccountCalls.Authenticate(raw, password), inputs).reply;
      && (forall id | id in users && Text.Spells(t, raw, users[id].email) ::
            reply == Some(if !hasher.check(users[id].passwordHash, password)
                            then AccountCalls.Failed(AccountTables.ErrInvalidCredentials)
                          else if !users[id].emailVerified
                            then AccountCalls.Failed(AccountTables.ErrEmailNotVerified)
                          else AccountCalls.LoggedIn(users[id])))
      && ((forall id | id in users :: !Text.Spells(t, raw, users[id].email)) ==>
            reply == Some(AccountCalls.Failed(AccountTables.ErrInvalidCredentials)))
  {
    Reachable(t, hasher, mode, events);
    hide AccountSystem.Run, AccountInvariant.Normal, AccountInvariant.EmailsMatch, AccountCalls.Execute;
    var w := Setup(t, hasher);
    var db := AccountSystem.Run(w, mode, AccountSystem.INITIAL, events).db;
    AccountOutcomes.AuthenticateYields(w, db, raw, password, inputs);
    AccountOutcomes.FindByEmailMeans(db, Text.Normalize(t, raw));
    hide AccountTables.FindByEmail, Text.Normalize, Text.Spells;
    forall id | id in db.users
      ensures Text.Spells(t, raw, db.users[id].email) <==>
        AccountOutcomes.HasAddress(db.users, id, Text.Normalize(t, raw))
    {
      Text.NormalizeIsSpelled(t, raw, db.users[id].email);
    }
  }

  // Two spellings of one address log in alike.
  lemma SpellingsLogInAlike(t: Text.Table, hasher: AccountTables.Hasher, mode: AccountCalls.Mode,
                            events: seq<AccountSystem.Event>, a: string, b: string,
                            password: AccountTables.Password, inputs: nat -> AccountCalls.Env)
    requires SameSpelling(t, a, b)
    ensures Reply(t, hasher, mode, events, AccountCalls.Authenticate(a, password), inputs).reply
      == Reply(t, hasher, mode, events, AccountCalls.Authenticate(b, password), inputs).reply
  {
    SameSpellingIsSameForm(t, a, b);
    Reachable(t, hasher, mode, events);
    hide AccountSystem.Run, AccountInvariant.Normal, AccountInvariant.EmailsMatch, AccountCalls.Execute;
    hide Text.Normalize, SameSpelling;
    var w := Setup(t, hasher);
    var db := AccountSystem.Run(w, mode, AccountSystem.INITIAL, events).db;
    AccountOutcomes.AuthenticateYields(w, db, a, password, inputs);
    AccountOutcomes.AuthenticateYields(w, db, b, password, inputs);
    AccountOutcomes.AuthenticateMeans(w, db, a, password);
    AccountOutcomes.AuthenticateMeans(w, db, b, password);
  }

  // Two spellings of one address are never two accounts: the stored rows they spell are
  // one row, and once it is there, to register under any spelling of it is refused and
  // changes nothing.
  lemma OneAccountPerSpelling(t: Text.Table, hasher: AccountTables.Hasher, mode: AccountCalls.Mode,
                              events: seq<AccountSystem.Event>, id: Id, a: string, b: string)
    requires id in AccountSystem.Run(Setup(t, hasher), mode, AccountSystem.INITIAL, events).db.users
    requires SameSpelling(t, a, b)
    requires Text.Spells(t, a,
      AccountSystem.Run(Setup(t, hasher), mode, AccountSystem.INITIAL, events).db.users[id].email)
    ensures var users := AccountSystem.Run(Setup(t, hasher), mode, AccountSystem.INITIAL, events).db.users;
      forall id' | id' in users && Text.Spells(t, b, users[id'].email) :: id' == id
    ensures forall password: AccountTables.Password, name, locale, timezone, inputs: nat -> AccountCalls.Env ::
      var db := AccountSystem.Run(Setup(t, hasher), mode, AccountSystem.INITIAL, events).db;
      var turn := Reply(t, hasher, mode, events, AccountCalls.Register(b, password, name, locale, timezone), inputs);
      && turn.reply == Some(AccountCalls.Failed(if |password| < 8 then AccountTables.ErrWeakPassword
                                                else AccountTables.ErrUserExists))
      && turn.db.users == db.users && turn.db.verify == db.verify && turn.db.reset == db.reset
  {
    SameSpellingIsSameForm(t, a, b);
    Reachable(t, hasher, mode, events);
    hide AccountSystem.Run, AccountInvariant.Normal, AccountInvariant.EmailsMatch, AccountCalls.Execute;
    hide Text.Normalize, Text.Spells, SameSpelling, AccountTables.FindByEmail;
    var w := Setup(t, hasher);
    var db := AccountSystem.Run(w, mode, AccountSystem.INITIAL, events).db;
    var e := db.users[id].email;
    Text.NormalizeIsSpelled(t, a, e);
    AccountOutcomes.FindByEmailMeans(db, e);
    assert AccountOutcomes.HasAddress(db.users, id, e);
    forall id' | id' in db.users && Text.Spells(t, b, db.users[id'].email) ensures id' == id {
      Text.NormalizeIsSpelled(t, b, db.users[id'].email);
      assert AccountOutcomes.HasAddress(db.users, id', e);
    }
    forall password: AccountTables.Password, name, locale, timezone, inputs: nat -> AccountCalls.Env
      ensures var turn := AccountCalls.Execute(w, db, AccountCalls.Register(b, password, name, locale, timezone),
        inputs);
        && turn.reply == Some(AccountCalls.Failed(if |password| < 8 then AccountTables.ErrWeakPassword
                                                  else AccountTables.ErrUserExists))
        && turn.db.users == db.users && turn.db.verify == db.verify && turn.db.reset == db.reset
    {
      RegisterAgain(w, db, id, b, password, name, locale, timezone, inputs);
    }
  }

  lemma RegisterAgain(w: AccountCalls.Setup, db: AccountTables.Db, id: Id, raw: string,
                      password: AccountTables.Password, name: string, locale: string, timezone: string,
                      inputs: nat -> AccountCalls.Env)
    requires AccountInvariant.EmailsMatch(db.users, db.emails)
    requires id in db.users && db.users[id].email == w.text.normal(raw) && '@' in db.users[id].email
    ensures var turn := AccountCalls.Execute(w, db, AccountCalls.Register(raw, password, name, locale, timezone),
      inputs);
      && turn.reply == Some(AccountCalls.Failed(if |password| < 8 then AccountTables.ErrWeakPassword
                                                else AccountTables.ErrUserExists))
      && turn.db.users == db.users && turn.db.verify == db.verify && turn.db.reset == db.reset
  {
    hide AccountInvariant.EmailsMatch, AccountCalls.Execute;
    AccountOutcomes.RegisterYields(w, db, AccountCalls.Register(raw, password, name, locale, timezone), inputs);
    assert AccountOutcomes.HasAddress(db.users, id, w.text.normal(raw));
  }

  // In every reachable state the slug of a workspace starts with the maximal [a-z0-9]
  // runs of its lower-cased name, joined by single dashes, and goes on with a dash.
  lemma WorkspaceSlugsSpellTheirNames(t: Text.Table, events: seq<WorkspaceSystem.Event>, w: Id,
                                      gaps: seq<string>, runs: seq<string>) returns (suffix: string)
    requires Text.Lawful(t)
    requires w in WorkspaceSystem.Run(GoStrings(t), WorkspaceSystem.INITIAL, events).db.workspaces
    requires Slug.HasRuns(
      Text.ToLower(t, WorkspaceSystem.Run(GoStrings(t), WorkspaceSystem.INITIAL, events).db.workspaces[w].name), gaps,
        runs)
    ensures var ws := WorkspaceSystem.Run(GoStrings(t), WorkspaceSystem.INITIAL, events).db.workspaces[w];
      ws.slug == Slug.Dashed(runs) + "-" + suffix && Slug.WellFormed(Slug.Dashed(runs))
  {
    hide WorkspaceSystem.Run, Slug.Slugify, Slug.HasRuns, Slug.WellFormed;
    WorkspaceSlugs.SlugsNameTheirWorkspaces(GoStrings(t), events, w, w);
    var ws := WorkspaceSystem.Run(GoStrings(t), WorkspaceSystem.INITIAL, events).db.workspaces[w];
    suffix :| ws.slug == GoStrings(t).slug(ws.name) + "-" + suffix;
    Slug.SlugIsDashedRuns(t, ws.name, gaps, runs);
    Slug.SlugIsWellFormed(t, ws.name);
  }
}
