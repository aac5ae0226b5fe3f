/** The route table of the second filter chain: sign-in, token refresh and the
    documentation are public, everything under "/api" needs a token, "/usuarios"
    and "/ongs" are closed, and there is no anyRequest() entry. */
module ConfigRoutes {

  import opened Wrappers
  import opened RoutePolicy

  const Public: Entry :=
    Entry(None, [Under(Lits(["auth", "signin"])), Under(Lits(["auth", "refresh"])),
                 Under(Lits(["swagger-ui"])), Under(Lits(["v3", "api-docs"]))], PermitAll)

  const Api: Entry := Entry(None, [Under(Lits(["api"]))], Authenticated)

  const Usuarios: Entry := Entry(None, [Exact(Lits(["usuarios"]))], DenyAll)

  const Ongs: Entry := Entry(None, [Exact(Lits(["ongs"]))], DenyAll)

  const Table: seq<Entry> := [Public, Api, Usuarios, Ongs]

  predicate IsPublic(path: seq<string>) {
    || Below(path, ["auth", "signin"]) || Below(path, ["auth", "refresh"])
    || Below(path, ["swagger-ui"]) || Below(path, ["v3", "api-docs"])
  }

  /** The decision this chain reaches for a request and a caller. */
  function AccessFor(r: Request, p: Principal): Decision {
    Authorize(Table, r, p)
  }

  /** Each entry matches exactly the paths its matchers name. */
  lemma EntriesMatch(r: Request)
    ensures EntryMatches(Public, r) <==> IsPublic(r.path)
    ensures EntryMatches(Api, r) <==> Below(r.path, ["api"])
    ensures EntryMatches(Usuarios, r) <==> r.path == ["usuarios"]
    ensures EntryMatches(Ongs, r) <==> r.path == ["ongs"]
  {
    PublicEntryMatches(r);
    LitsMatch(["api"], true, r.path);
    LitsMatch(["usuarios"], false, r.path);
    LitsMatch(["ongs"], false, r.path);
  }

  /** The first entry matches exactly the sign-in, refresh and documentation paths. */
  lemma PublicEntryMatches(r: Request)
    ensures EntryMatches(Public, r) <==> IsPublic(r.path)
  {
    LitsMatch(["auth", "signin"], true, r.path);
    LitsMatch(["auth", "refresh"], true, r.path);
    LitsMatch(["swagger-ui"], true, r.path);
    LitsMatch(["v3", "api-docs"], true, r.path);
    var ps := Public.patterns;
    assert IsPublic(r.path) <==> exists q :: q in ps && PatternMatches(q, r.path) by {
      assert ps == [ps[0], ps[1], ps[2], ps[3]];
    }
  }

  /** Sign-in, refresh and the documentation are open to every method and caller;
      the entry that permits them comes first, so no later entry can block them. */
  lemma PublicPathsArePublic(r: Request, p: Principal)
    requires IsPublic(r.path)
    ensures Decide(Table, r) == Some(PermitAll)
    ensures AccessFor(r, p) == Permit
  {
    EntriesMatch(r);
    FirstMatchWins(Table, r, 0);
  }

  /** Any path under "/api" needs a caller with a token, whatever its role. */
  lemma ApiNeedsAuthentication(r: Request, p: Principal)
    requires Below(r.path, ["api"])
    ensures AccessFor(r, p) == if p.LoggedIn? then Permit else Unauthenticated
  {
    EntriesMatch(r);
    assert !IsPublic(r.path) by {
      assert r.path[0] == "api";
    }
    FirstMatchWins(Table, r, 1);
  }

  /** "/usuarios" and "/ongs" are refused to every caller, with or without a token. */
  lemma UsuariosAndOngsAreClosed(r: Request, p: Principal)
    requires r.path == ["usuarios"] || r.path == ["ongs"]
    ensures AccessFor(r, p) == if p.Anonymous? then Unauthenticated else AccessDenied
  {
    EntriesMatch(r);
    if r.path == ["usuarios"] {
      FirstMatchWins(Table, r, 2);
    } else {
      FirstMatchWins(Table, r, 3);
    }
  }

  /** With no anyRequest() entry, a request outside the four matchers is refused
      to every caller. */
  lemma UnlistedIsClosed(r: Request, p: Principal)
    requires !IsPublic(r.path) && !Below(r.path, ["api"])
    requires r.path != ["usuarios"] && r.path != ["ongs"]
    ensures Decide(Table, r) == None
    ensures AccessFor(r, p) != Permit
  {
    EntriesMatch(r);
  }
}
