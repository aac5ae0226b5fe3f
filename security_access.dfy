/** What the route table of the JWT filter chain means for each kind of caller:
    every statement here is about the decision the whole table reaches. */
module SecurityAccess {

  import opened Wrappers
  import opened Roles
  import opened RoutePolicy
  import opened SecurityRoutes

  /** Swagger, api-docs and webjars paths are public for every method and caller. */
  lemma DocumentationIsPublic(r: Request, p: Principal)
    requires IsDocumentation(r.path)
    ensures AccessFor(r, p) == Permit
  {
    DocsRule(r);
  }

  /** A request that no listed entry matches falls through to
      anyRequest().permitAll() and is let through for every caller. */
  lemma UnlistedIsOpen(r: Request, p: Principal)
    requires MatchesNone(Public, r) && MatchesNone(Administradores, r)
    requires MatchesNone(Usuarios, r) && MatchesNone(Ongs, r)
    requires MatchesNone(Animais, r) && MatchesNone(Adocoes, r)
    ensures AccessFor(r, p) == Permit
  {
    UnlistedRule(r);
  }

  /** Every method on "/api/v1/administradores" and below requires ADMIN: a caller
      without a token is sent to authenticate, a caller with another role is denied. */
  lemma AdministradoresAreAdminOnly(r: Request, p: Principal)
    requires Below(r.path, ["api", "v1", "administradores"])
    ensures AccessFor(r, p) == Gate({ADMIN}, p)
  {
    AdministradoresRule(r);
    RoleGate(Table, r, p, {ADMIN});
  }

  /** GET "/api/v1/usuarios", the listing, is for ADMIN only. */
  lemma UsuarioListingIsAdminOnly(p: Principal)
    ensures AccessFor(Request(GET, ["api", "v1", "usuarios"]), p) == Gate({ADMIN}, p)
  {
    UsuarioListingRule();
    RoleGate(Table, Request(GET, ["api", "v1", "usuarios"]), p, {ADMIN});
  }

  /** GET "/api/v1/usuarios/{nomeUsuario}" accepts USER or ADMIN, and no other caller. */
  lemma UsuarioByNameIsUserOrAdmin(nomeUsuario: string, p: Principal)
    requires nomeUsuario != ""
    ensures AccessFor(Request(GET, ["api", "v1", "usuarios", nomeUsuario]), p) == Gate({USER, ADMIN}, p)
  {
    UsuarioByNameRule(nomeUsuario);
    RoleGate(Table, Request(GET, ["api", "v1", "usuarios", nomeUsuario]), p, {USER, ADMIN});
  }

  /** GET "/api/v1/usuarios/id/adocoes" also fits "{id}/adocoes", which admits USER,
      but "id/{id}" is declared first and decides: only ADMIN passes. */
  lemma IdAdocoesIsShadowed(p: Principal)
    ensures EntryMatches(Usuarios[3], Request(GET, ["api", "v1", "usuarios", "id", "adocoes"]))
    ensures Grants(Usuarios[3].rule, LoggedIn(USER))
    ensures AccessFor(Request(GET, ["api", "v1", "usuarios", "id", "adocoes"]), p) == Gate({ADMIN}, p)
  {
    IdAdocoesRule();
    RoleGate(Table, Request(GET, ["api", "v1", "usuarios", "id", "adocoes"]), p, {ADMIN});
  }

  /** No configured usuario route admits ONG: whichever of them decides a request,
      an ONG caller is denied. */
  lemma OngRefusedOnUsuarioRoutes(r: Request)
    requires Below(r.path, ["api", "v1", "usuarios"])
    requires !MatchesNone(Usuarios, r)
    ensures AccessFor(r, LoggedIn(ONG)) == AccessDenied
  {
    UsuarioRoutesExcludeOng();
    BlockRefuses(Usuarios, AfterUsuarios, r, LoggedIn(ONG));
    ReachesUsuarios(r);
  }

  /** A method-qualified entry serves only its method: no usuario entry is for POST,
      so POST "/api/v1/usuarios" matches nothing listed and is open to anyone. */
  lemma UsuarioPostIsOpen(p: Principal)
    ensures AccessFor(Request(POST, ["api", "v1", "usuarios"]), p) == Permit
  {
    UsuarioPostRule();
  }

  /** A POST, PUT, PATCH or DELETE that one of the animal routes matches is let
      through for ADMIN and ONG callers only. */
  lemma AnimalWritesAreAdminOrOng(r: Request, p: Principal)
    requires Below(r.path, ["api", "v1", "animais"]) && r.verb != GET
    requires !MatchesNone(Animais, r)
    ensures AccessFor(r, p) == Gate({ADMIN, ONG}, p)
  {
    AnimalWriteRule(r);
    RoleGate(Table, r, p, {ADMIN, ONG});
  }

  /** A POST, PUT, PATCH or DELETE that one of the adoption routes matches is let
      through for ADMIN and ONG callers only. */
  lemma AdocaoWritesAreAdminOrOng(r: Request, p: Principal)
    requires Below(r.path, ["api", "v1", "adocoes"]) && r.verb != GET
    requires !MatchesNone(Adocoes, r)
    ensures AccessFor(r, p) == Gate({ADMIN, ONG}, p)
  {
    AdocaoWriteRule(r);
    RoleGate(Table, r, p, {ADMIN, ONG});
  }

  /** Listing the animals, reading one animal by name and reading one adoption are
      open to every role, USER included. */
  lemma ReadsAreOpenToEveryRole(nome: string, id: string, p: Principal)
    requires nome != "" && id != ""
    ensures AccessFor(Request(GET, ["api", "v1", "animais"]), p) == Gate({ADMIN, ONG, USER}, p)
    ensures AccessFor(Request(GET, ["api", "v1", "animais", nome]), p) == Gate({ADMIN, ONG, USER}, p)
    ensures AccessFor(Request(GET, ["api", "v1", "adocoes", id]), p) == Gate({ADMIN, ONG, USER}, p)
  {
    AnimalListingRule();
    RoleGate(Table, Request(GET, ["api", "v1", "animais"]), p, {ADMIN, ONG, USER});
    AnimalByNameRule(nome);
    RoleGate(Table, Request(GET, ["api", "v1", "animais", nome]), p, {ADMIN, ONG, USER});
    AdocaoByIdRule(id);
    RoleGate(Table, Request(GET, ["api", "v1", "adocoes", id]), p, {ADMIN, ONG, USER});
  }
}
