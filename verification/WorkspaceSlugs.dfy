// Slugs over whole runs: the unique index keeps them apart, and each is made from the
// name of its workspace.
module WorkspaceSlugs {
  import opened Common
  import opened Strings
  import opened WorkspaceTables
  import opened WorkspaceCalls
  import opened WorkspaceSystem
  import opened WorkspaceInvariant
  import opened WorkspaceRuns

  // A trimmed, non-blank name, and the slug of that name with some suffix.
  ghost predicate Named(t: Ops, name: string, slug: string) {
    && (exists raw :: name == t.trim(raw)) && name != ""
    && (exists suffix :: slug == t.slug(name) + "-" + suffix)
  }

  ghost predicate SlugsNamed(t: Ops, s: Sys) {
    && (forall w {:trigger s.db.workspaces[w]} | w in s.db.workspaces ::
       Named(t, s.db.workspaces[w].name, s.db.workspaces[w].slug))
    && (forall c {:trigger s.calls[c]} | c in s.calls && s.calls[c].pc.WsInsert? ::
       Named(t, s.calls[c].pc.name, s.calls[c].pc.slug))
  }

  lemma SlugChosen(t: Ops, db: Db, pc: Pc, env: Env)
    requires Step(t, db, pc, env).pc.WsInsert?
    ensures var pc' := Step(t, db, pc, env).pc; pc' == pc || Named(t, pc'.name, pc'.slug)
  {
    var pc' := Step(t, db, pc, env).pc;
    if pc.Begin? && pc.req.CreateWorkspace? {
      assert pc'.name == t.trim(pc.req.name);
      assert pc'.slug == t.slug(pc'.name) + "-" + env.suffix || pc'.slug == t.slug(pc'.name) + "-" + env.retrySuffix;
      hide Step;
    }
  }

  lemma SlugStored(t: Ops, db: Db, pc: Pc, env: Env)
    requires pc.WsInsert? && Step(t, db, pc, env).pc.OwnerInsert?
    ensures var ws := Step(t, db, pc, env).pc.ws; ws.name == pc.name && ws.slug == pc.slug
  {}

  lemma PerformNames(t: Ops, s: Sys, c: nat, env: Env, lost: bool)
    requires SysOk(s) && c in s.calls && SlugsNamed(t, s)
    ensures SlugsNamed(t, Perform(t, s, c, env, lost))
  {
    hide SysOk, Step, Note, NoteOwner, Named;
    var pc, pc' := s.calls[c].pc, Step(t, s.db, s.calls[c].pc, env).pc;
    MakersNoted(t, s, c, env);
    if pc'.WsInsert? { SlugChosen(t, s.db, pc, env); }
    if pc.WsInsert? && pc'.OwnerInsert? { SlugStored(t, s.db, pc, env); }
  }

  lemma {:induction false} RunNames(t: Ops, events: seq<Event>)
    ensures SlugsNamed(t, Run(t, INITIAL, events))
  {
    if events != [] {
      var s, e := Run(t, INITIAL, events[..|events| - 1]), events[|events| - 1];
      RunNames(t, events[..|events| - 1]);
      RunKeeps(t, events[..|events| - 1]);
      if (e.Advance? || e.LoseAck?) && Live(s, e.call) { PerformNames(t, s, e.call, e.env, e.LoseAck?); }
      hide SysOk, Named, Perform;
    }
  }

  // In every reachable state: a workspace's slug is the slug of its trimmed, non-blank
  // name, a dash and a suffix, and no other workspace has it.
  lemma SlugsNameTheirWorkspaces(t: Ops, events: seq<Event>, w: Id, v: Id)
    requires w in Run(t, INITIAL, events).db.workspaces
    ensures var all := Run(t, INITIAL, events).db.workspaces;
      && Named(t, all[w].name, all[w].slug)
      && (v in all && all[v].slug == all[w].slug ==> v == w)
  {
    RunNames(t, events);
    RunKeeps(t, events);
    hide Run, Named, SeatsMatch, TokensMatch, MembersOk, InvitesOk, UnitsOk, AllPlaced, CallOk, MakerOk;
  }
}
