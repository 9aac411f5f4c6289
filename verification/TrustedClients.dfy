// The trusted-client list: read from TRUSTED_CLIENT_IDS by internal/config/config.go,
// looked up by internal/infrastructure/hydra/client.go.
module TrustedClients {
  import opened Common
  import opened Text

  // strings.Split(s, ",")
  function Split(s: string): (parts: seq<string>)
    ensures parts != []
  {
    if s == [] then [[]]
    else
      var rest := Split(s[1..]);
      if s[0] == ',' then [[]] + rest else [[s[0]] + rest[0]] + rest[1..]
  }

  ghost predicate CommaFree(parts: seq<string>) {
    forall i | 0 <= i < |parts| :: ',' !in parts[i]
  }

  // Split is the inverse of joining with commas, in both directions.
  lemma {:induction false} JoinOfSplit(s: string)
    ensures Join(Split(s), ',') == s && CommaFree(Split(s))
  {
    if s != [] {
      JoinOfSplit(s[1..]);
      var rest, all := Split(s[1..]), Split(s);
      assert all[1..] == if s[0] == ',' then rest else rest[1..];
      assert s == [s[0]] + s[1..];
    }
  }

  lemma {:induction false} SplitOfJoin(parts: seq<string>)
    requires parts != [] && CommaFree(parts)
    ensures Split(Join(parts, ',')) == parts
    decreases |parts|, |parts[0]|
  {
    var s := Join(parts, ',');
    if parts[0] == [] {
      if |parts| > 1 {
        SplitOfJoin(parts[1..]);
        assert s == [','] + Join(parts[1..], ',');
        assert s[1..] == Join(parts[1..], ',');
        assert [[]] + parts[1..] == parts;
      }
    } else {
      var shorter := [parts[0][1..]] + parts[1..];
      assert forall c | c in parts[0][1..] :: c in parts[0];
      SplitOfJoin(shorter);
      assert shorter[1..] == parts[1..];
      if |parts| > 1 {
        var tail := Join(parts[1..], ',');
        assert s == parts[0] + [','] + tail && Join(shorter, ',') == parts[0][1..] + [','] + tail;
      }
      assert s[0] == parts[0][0] && s[1..] == Join(shorter, ',');
      assert [s[0]] + shorter[0] == parts[0];
      assert [parts[0]] + shorter[1..] == parts;
    }
  }

  function Trims(t: Table, parts: seq<string>): (r: seq<string>)
    ensures |r| == |parts| && forall i | 0 <= i < |parts| :: r[i] == TrimSpace(t, parts[i])
  {
    seq(|parts|, i requires 0 <= i < |parts| => TrimSpace(t, parts[i]))
  }

  // Drops empty strings and keeps the order.
  function NonEmpty(parts: seq<string>): seq<string> {
    if parts == [] then []
    else
      var n := |parts| - 1;
      if parts[n] != "" then NonEmpty(parts[..n]) + [parts[n]] else NonEmpty(parts[..n])
  }

  function TrustedIds(t: Table, raw: string): seq<string> {
    NonEmpty(Trims(t, Split(raw)))
  }

  method LoadTrustedClientIDs(t: Table, raw: string) returns (ids: seq<string>)
    ensures ids == TrustedIds(t, raw)
  {
    ids := [];
    if raw != "" {
      var parts := Split(raw);
      ghost var pieces := Trims(t, parts);
      for i := 0 to |parts|
        invariant ids == NonEmpty(pieces[..i])
      {
        assert pieces[..i + 1][..i] == pieces[..i];
        var s := TrimSpace(t, parts[i]);
        if s != "" {
          ids := ids + [s];
        }
      }
      assert pieces[..|parts|] == pieces;
    } else {
      EmptyList(t);
    }
  }

  lemma EmptyList(t: Table)
    ensures TrustedIds(t, "") == []
  {
    var pieces := Trims(t, Split(""));
    assert |pieces| == 1 && pieces[0] == "";
    assert NonEmpty(pieces[..0]) == [];
  }

  lemma {:induction false} NonEmptyMembers(parts: seq<string>, id: string)
    ensures id in NonEmpty(parts) <==> id != "" && id in parts
  {
    if parts != [] {
      var n := |parts| - 1;
      NonEmptyMembers(parts[..n], id);
      assert parts == parts[..n] + [parts[n]];
    }
  }

  // The id with white space around it, and none at its own edges.
  ghost predicate Padded(t: Table, part: string, id: string) {
    exists left, right :: IsTrim(t.space, part, left, id, right)
  }

  // Some comma-separated piece is this non-empty id, white space aside.
  ghost predicate Listed(t: Table, parts: seq<string>, id: string) {
    id != "" && exists i :: 0 <= i < |parts| && Padded(t, parts[i], id)
  }

  lemma TrustedIdsAreListed(t: Table, raw: string, id: string)
    ensures id in TrustedIds(t, raw) <==> Listed(t, Split(raw), id)
  {
    var pieces := Trims(t, Split(raw));
    NonEmptyMembers(pieces, id);
    forall i | 0 <= i < |pieces| ensures pieces[i] == id <==> Padded(t, Split(raw)[i], id) {
      TrimSpaceMeans(t, Split(raw)[i], id);
    }
    hide Padded;
  }

  // Parsing recovers any comma-joined list of non-empty, trimmed, comma-free ids.
  lemma TrustedListRoundTrip(t: Table, ids: seq<string>)
    requires CommaFree(ids)
    requires forall i | 0 <= i < |ids| :: Trimmed(t, ids[i])
    ensures TrustedIds(t, Join(ids, ',')) == ids
  {
    if ids == [] {
      EmptyList(t);
    } else {
      SplitOfJoin(ids);
      forall i | 0 <= i < |ids| ensures TrimSpace(t, ids[i]) == ids[i] { TrimOfTrimmed(t, ids[i]); }
      assert Trims(t, ids) == ids;
      NonEmptyUntouched(ids);
    }
  }

  ghost predicate Trimmed(t: Table, id: string) {
    id != "" && !t.space(id[0]) && !t.space(id[|id| - 1])
  }

  lemma TrimOfTrimmed(t: Table, id: string)
    requires Trimmed(t, id)
    ensures TrimSpace(t, id) == id
  {
    assert id == [] + id + [];
    TrimIsUnique(t.space, id, [], id, []);
  }

  lemma {:induction false} NonEmptyUntouched(ids: seq<string>)
    requires "" !in ids
    ensures NonEmpty(ids) == ids
  {
    if ids != [] {
      NonEmptyUntouched(ids[..|ids| - 1]);
    }
  }

  // ---- The Hydra client's side ----

  datatype OAuth2Client = OAuth2Client(clientId: Option<string>, clientName: Option<string>)

  datatype OAuthClientInfo = OAuthClientInfo(id: string, name: string, trusted: bool)

  // A Go map[string]bool read: a missing key gives false.
  predicate Flagged(trusted: map<string, bool>, id: string) {
    id in trusted && trusted[id]
  }

  class Client {
    var trusted: map<string, bool>

    constructor (trustedClientIDs: seq<string>)
      ensures forall id :: Flagged(trusted, id) <==> id in trustedClientIDs
    {
      var m: map<string, bool> := map[];
      for i := 0 to |trustedClientIDs|
        invariant forall id :: Flagged(m, id) <==> id in trustedClientIDs[..i]
      {
        m := m[trustedClientIDs[i] := true];
        assert trustedClientIDs[..i + 1] == trustedClientIDs[..i] + [trustedClientIDs[i]];
      }
      assert trustedClientIDs[..|trustedClientIDs|] == trustedClientIDs;
      trusted := m;
    }

    method ClientInfoFromValue(cl: OAuth2Client) returns (info: OAuthClientInfo)
      ensures info == InfoOf(trusted, Some(cl))
      ensures info.id == (if cl.clientId.Some? then cl.clientId.value else "")
      ensures info.name == (if cl.clientName.Some? then cl.clientName.value else "")
      ensures info.trusted <==> info.id in trusted && trusted[info.id]
    {
      info := OAuthClientInfo("", "", false);
      if cl.clientId.Some? {
        info := info.(id := cl.clientId.value);
      }
      if cl.clientName.Some? {
        info := info.(name := cl.clientName.value);
      }
      info := info.(trusted := Flagged(trusted, info.id));
    }

    method ClientInfoFromPtr(cl: Option<OAuth2Client>) returns (info: OAuthClientInfo)
      ensures info == InfoOf(trusted, cl)
      ensures cl == None ==> info == OAuthClientInfo("", "", false)
      ensures cl.Some? ==>
        && info.id == (if cl.value.clientId.Some? then cl.value.clientId.value else "")
        && info.name == (if cl.value.clientName.Some? then cl.value.clientName.value else "")
        && (info.trusted <==> info.id in trusted && trusted[info.id])
    {
      if cl == None {
        return OAuthClientInfo("", "", false);
      }
      info := ClientInfoFromValue(cl.value);
    }
  }

  function OrEmpty(s: Option<string>): string {
    if s.Some? then s.value else ""
  }

  function InfoOf(trusted: map<string, bool>, cl: Option<OAuth2Client>): OAuthClientInfo {
    match cl
    case None => OAuthClientInfo("", "", false)
    case Some(c) => OAuthClientInfo(OrEmpty(c.clientId), OrEmpty(c.clientName), Flagged(trusted, OrEmpty(c.clientId)))
  }

  // For every environment value and every client: trusted means carrying an id that
  // is one of the trimmed comma-separated pieces; a client without an id never is.
  lemma TrustedIffListed(t: Table, raw: string, trusted: map<string, bool>, cl: Option<OAuth2Client>)
    requires forall id :: Flagged(trusted, id) <==> id in TrustedIds(t, raw)
    ensures InfoOf(trusted, cl).trusted <==>
      cl.Some? && cl.value.clientId.Some? && Listed(t, Split(raw), cl.value.clientId.value)
  {
    TrustedIdsAreListed(t, raw, "");
    if cl.Some? {
      TrustedIdsAreListed(t, raw, OrEmpty(cl.value.clientId));
    }
  }

  // Start-up as wired: read the variable, then build the client from it.
  method TrustCheck(t: Table, raw: string, cl: Option<OAuth2Client>) returns (isTrusted: bool)
    ensures isTrusted <==> cl.Some? && cl.value.clientId.Some? && cl.value.clientId.value in TrustedIds(t, raw)
  {
    var ids := LoadTrustedClientIDs(t, raw);
    var client := new Client(ids);
    var info := client.ClientInfoFromPtr(cl);
    isTrusted := info.trusted;
    TrustedIdsAreListed(t, raw, "");
  }
}
