/** The route table of the JWT filter chain: public documentation paths,
    role-gated administrator, usuario, ong, animal and adoption routes, and
    a closing anyRequest().permitAll() that leaves every unlisted route open. */
module SecurityRoutes {

  import opened Wrappers
  import opened Roles
  import opened RoutePolicy

  /** "/api/v1/<resource>" followed by `more`. */
  function Api(resource: string, more: seq<Segment>): seq<Segment> {
    [Lit("api"), Lit("v1"), Lit(resource)] + more
  }

  /** One method-qualified hasAnyRole line below "/api/v1/<resource>". */
  datatype Route = Route(verb: Method, tail: seq<Segment>, roles: set<Role>)

  /** The matcher entry a route stands for. */
  function RouteEntry(resource: string, route: Route): Entry {
    Entry(Some(route.verb), [Exact(Api(resource, route.tail))], HasAnyRole(route.roles))
  }

  /** The entries of a block of routes, in declaration order. */
  function Block(resource: string, routes: seq<Route>): seq<Entry> {
    seq(|routes|, i requires 0 <= i < |routes| => RouteEntry(resource, routes[i]))
  }

  const Public: seq<Entry> := [
    Entry(None, [Under([Lit("v3"), Lit("api-docs")]), Under([Lit("swagger-ui")]),
                 Exact([Lit("swagger-ui.html")]), Under([Lit("webjars")])], PermitAll)
  ]

  const Administradores: seq<Entry> := [
    Entry(None, [Under(Api("administradores", []))], HasAnyRole({ADMIN}))
  ]

  const UsuarioRoutes: seq<Route> := [
    Route(GET, [], {ADMIN}),
    Route(GET, [Var("nomeUsuario")], {USER, ADMIN}),
    Route(GET, [Lit("id"), Var("id")], {ADMIN}),
    Route(GET, [Var("id"), Lit("adocoes")], {USER, ADMIN}),
    Route(PUT, [Var("nomeUsuario")], {USER, ADMIN}),
    Route(PATCH, [Var("nomeUsuario")], {USER, ADMIN}),
    Route(DELETE, [Var("nomeUsuario")], {USER, ADMIN})
  ]

  const OngRoutes: seq<Route> := [
    Route(GET, [], {ADMIN, USER, ONG}),
    Route(GET, [Var("nomeUsuario")], {ADMIN, ONG, USER}),
    Route(GET, [Lit("id"), Var("id")], {ADMIN, ONG}),
    Route(GET, [Var("id"), Lit("adocoes")], {ADMIN, ONG}),
    Route(GET, [Var("nomeUsuario"), Lit("animais")], {ADMIN, ONG, USER}),
    Route(PUT, [Var("nomeUsuario")], {ADMIN, ONG}),
    Route(PATCH, [Var("nomeUsuario")], {ADMIN, ONG}),
    Route(DELETE, [Var("nomeUsuario")], {ADMIN, ONG})
  ]

  const AnimalRoutes: seq<Route> := [
    Route(GET, [], {ADMIN, ONG, USER}),
    Route(GET, [Lit("id"), Var("id")], {ADMIN}),
    Route(GET, [Var("nome")], {ADMIN, ONG, USER}),
    Route(POST, [Lit("registro")], {ADMIN, ONG}),
    Route(PUT, [Var("nome")], {ADMIN, ONG}),
    Route(PATCH, [Var("nome")], {ADMIN, ONG}),
    Route(DELETE, [Var("nome")], {ADMIN, ONG})
  ]

  const AdocaoRoutes: seq<Route> := [
    Route(GET, [], {ADMIN}),
    Route(GET, [Var("id")], {ADMIN, ONG, USER}),
    Route(POST, [Lit("registro")], {ADMIN, ONG}),
    Route(PUT, [Var("id")], {ADMIN, ONG}),
    Route(PATCH, [Var("id")], {ADMIN, ONG}),
    Route(DELETE, [Var("id")], {ADMIN, ONG})
  ]

  const Usuarios: seq<Entry> := Block("usuarios", UsuarioRoutes)
  const Ongs: seq<Entry> := Block("ongs", OngRoutes)
  const Animais: seq<Entry> := Block("animais", AnimalRoutes)
  const Adocoes: seq<Entry> := Block("adocoes", AdocaoRoutes)

  /** anyRequest(): the empty pattern with a trailing double star matches every path. */
  const AnyRequest: seq<Entry> := [Entry(None, [Under([])], PermitAll)]

  const Table: seq<Entry> :=
    Public + (Administradores + (Usuarios + (Ongs + (Animais + (Adocoes + AnyRequest)))))

  /** The decision the filter chain reaches for a request and a caller. */
  function AccessFor(r: Request, p: Principal): Decision {
    Authorize(Table, r, p)
  }

  /** Every pattern of every entry in `block` begins with "/api/v1/<resource>". */
  predicate ForResource(block: seq<Entry>, resource: string) {
    forall i, p :: 0 <= i < |block| && p in block[i].patterns ==>
      3 <= |p.segments| && p.segments[..3] == [Lit("api"), Lit("v1"), Lit(resource)]
  }

  /** A block for one resource matches no request aimed at another resource. */
  lemma MissesOtherResource(block: seq<Entry>, resource: string, r: Request)
    requires ForResource(block, resource)
    requires 3 <= |r.path| && r.path[2] != resource
    ensures MatchesNone(block, r)
  {
    forall i | 0 <= i < |block| ensures !EntryMatches(block[i], r) {
      forall p | p in block[i].patterns ensures !PatternMatches(p, r.path) {
        assert p.segments[..3][2] == Lit(resource);
      }
    }
  }

  /** The same for a block of routes. */
  lemma BlockMissesOtherResource(resource: string, routes: seq<Route>, r: Request)
    requires 3 <= |r.path| && r.path[2] != resource
    ensures MatchesNone(Block(resource, routes), r)
  {
    var b := Block(resource, routes);
    forall i | 0 <= i < |b| ensures !EntryMatches(b[i], r) {
      assert b[i].patterns == [Exact(Api(resource, routes[i].tail))];
      assert Api(resource, routes[i].tail)[2] == Lit(resource);
    }
  }

  /** The documentation patterns match nothing that starts with "api". */
  lemma DocsMissApi(r: Request)
    requires 1 <= |r.path| && r.path[0] == "api"
    ensures MatchesNone(Public, r)
  {
    forall p | p in Public[0].patterns ensures !PatternMatches(p, r.path) {
      assert p.segments[0] != Lit("api");
    }
  }

  /** A request that no listed entry matches falls through to anyRequest().permitAll(). */
  lemma UnlistedRule(r: Request)
    requires MatchesNone(Public, r) && MatchesNone(Administradores, r)
    requires MatchesNone(Usuarios, r) && MatchesNone(Ongs, r)
    requires MatchesNone(Animais, r) && MatchesNone(Adocoes, r)
    ensures Decide(Table, r) == Some(PermitAll)
  {
    assert EntryMatches(AnyRequest[0], r) by {
      assert PatternMatches(Under([]), r.path);
    }
    FirstMatchWins(AnyRequest, r, 0);
    DecideAppend(Adocoes, AnyRequest, r);
    DecideAppend(Animais, Adocoes + AnyRequest, r);
    DecideAppend(Ongs, Animais + (Adocoes + AnyRequest), r);
    DecideAppend(Usuarios, AfterUsuarios, r);
    DecideAppend(Administradores, Usuarios + AfterUsuarios, r);
    DecideAppend(Public, Administradores + (Usuarios + AfterUsuarios), r);
  }

  /** The documentation entry comes first and decides for every path it lists. */
  lemma DocsRule(r: Request)
    requires IsDocumentation(r.path)
    ensures Decide(Table, r) == Some(PermitAll)
  {
    var docs := Public[0].patterns;
    assert exists q :: q in docs && PatternMatches(q, r.path) by {
      if Below(r.path, ["v3", "api-docs"]) {
        assert PatternMatches(docs[0], r.path);
      } else if Below(r.path, ["swagger-ui"]) {
        assert PatternMatches(docs[1], r.path);
      } else if r.path == ["swagger-ui.html"] {
        assert PatternMatches(docs[2], r.path);
      } else {
        assert PatternMatches(docs[3], r.path);
      }
    }
    assert Table[0] == Public[0];
    FirstMatchWins(Table, r, 0);
  }

  /** The paths of the Swagger UI, the OpenAPI description and the webjars. */
  predicate IsDocumentation(path: seq<string>) {
    || Below(path, ["v3", "api-docs"]) || Below(path, ["swagger-ui"])
    || path == ["swagger-ui.html"] || Below(path, ["webjars"])
  }

  const AfterUsuarios: seq<Entry> := Ongs + (Animais + (Adocoes + AnyRequest))

  /** Requests below "/api/v1/<resource>" for one of the role-gated resources
      skip the documentation and administrator entries and every earlier block. */
  lemma ReachesUsuarios(r: Request)
    requires Below(r.path, ["api", "v1", "usuarios"])
    ensures Decide(Table, r) == Decide(Usuarios + AfterUsuarios, r)
  {
    assert r.path[0] == "api" && r.path[2] == "usuarios";
    DocsMissApi(r);
    DecideAppend(Public, Administradores + (Usuarios + AfterUsuarios), r);
    MissesOtherResource(Administradores, "administradores", r);
    DecideAppend(Administradores, Usuarios + AfterUsuarios, r);
  }

  lemma ReachesAnimais(r: Request)
    requires Below(r.path, ["api", "v1", "animais"])
    ensures Decide(Table, r) == Decide(Animais + (Adocoes + AnyRequest), r)
  {
    assert r.path[0] == "api" && r.path[2] == "animais";
    ReachesAnimaisShape(r);
  }

  lemma ReachesAdocoes(r: Request)
    requires Below(r.path, ["api", "v1", "adocoes"])
    ensures Decide(Table, r) == Decide(Adocoes + AnyRequest, r)
  {
    assert r.path[0] == "api" && r.path[2] == "adocoes";
    ReachesAnimaisShape(r);
    BlockMissesOtherResource("animais", AnimalRoutes, r);
    DecideAppend(Animais, Adocoes + AnyRequest, r);
  }

  lemma ReachesAnimaisShape(r: Request)
    requires 3 <= |r.path| && r.path[0] == "api" && r.path[2] != "administradores"
    requires r.path[2] != "usuarios" && r.path[2] != "ongs"
    ensures Decide(Table, r) == Decide(Animais + (Adocoes + AnyRequest), r)
  {
    DocsMissApi(r);
    DecideAppend(Public, Administradores + (Usuarios + AfterUsuarios), r);
    MissesOtherResource(Administradores, "administradores", r);
    DecideAppend(Administradores, Usuarios + AfterUsuarios, r);
    BlockMissesOtherResource("usuarios", UsuarioRoutes, r);
    DecideAppend(Usuarios, AfterUsuarios, r);
    BlockMissesOtherResource("ongs", OngRoutes, r);
    DecideAppend(Ongs, Animais + (Adocoes + AnyRequest), r);
  }

  /** Within a block, the k-th route decides when it matches and no earlier route does. */
  lemma RouteDecides(resource: string, routes: seq<Route>, k: int, rest: seq<Entry>, r: Request)
    requires 0 <= k < |routes|
    requires r.verb == routes[k].verb && PatternMatches(Exact(Api(resource, routes[k].tail)), r.path)
    requires forall j :: 0 <= j < k ==>
      routes[j].verb != r.verb || !PatternMatches(Exact(Api(resource, routes[j].tail)), r.path)
    ensures Decide(Block(resource, routes) + rest, r) == Some(HasAnyRole(routes[k].roles))
  {
    var t := Block(resource, routes) + rest;
    assert EntryMatches(t[k], r) by {
      assert t[k].patterns == [Exact(Api(resource, routes[k].tail))];
    }
    forall j | 0 <= j < k ensures !EntryMatches(t[j], r) {
      assert t[j].patterns == [Exact(Api(resource, routes[j].tail))];
    }
    FirstMatchWins(t, r, k);
  }

  lemma AdministradoresRule(r: Request)
    requires Below(r.path, ["api", "v1", "administradores"])
    ensures Decide(Table, r) == Some(HasAnyRole({ADMIN}))
  {
    var after := Administradores + (Usuarios + AfterUsuarios);
    assert EntryMatches(after[0], r) by {
      assert after[0] == Administradores[0];
      ApiSubtreeMatches("administradores", r.path);
    }
    FirstMatchWins(after, r, 0);
    assert r.path[0] == "api";
    DocsMissApi(r);
    DecideAppend(Public, after, r);
  }

  /** "/api/v1/<resource>" with a trailing double star matches every path below it. */
  lemma ApiSubtreeMatches(resource: string, path: seq<string>)
    requires Below(path, ["api", "v1", resource])
    ensures PatternMatches(Under(Api(resource, [])), path)
  {
    assert path[0] == path[..3][0] && path[1] == path[..3][1] && path[2] == path[..3][2];
  }

  /** No route of a block serves the request's method on its path. */
  lemma NoRouteFor(resource: string, routes: seq<Route>, r: Request)
    requires forall j :: 0 <= j < |routes| ==>
      routes[j].verb != r.verb || !PatternMatches(Exact(Api(resource, routes[j].tail)), r.path)
    ensures MatchesNone(Block(resource, routes), r)
  {
    var b := Block(resource, routes);
    forall j | 0 <= j < |b| ensures !EntryMatches(b[j], r) {
      assert b[j].patterns == [Exact(Api(resource, routes[j].tail))];
    }
  }

  lemma UsuarioListingRule()
    ensures Decide(Table, Request(GET, ["api", "v1", "usuarios"])) == Some(HasAnyRole({ADMIN}))
  {
    var r := Request(GET, ["api", "v1", "usuarios"]);
    assert UsuarioRoutes[0].roles == {ADMIN};
    ExactMatches("usuarios", [], []);
    assert r.path == ["api", "v1", "usuarios"] + [];
    RouteDecides("usuarios", UsuarioRoutes, 0, AfterUsuarios, r);
    ReachesUsuarios(r);
  }

  /** Below "/api/v1/usuarios", the k-th usuario route decides when it is the first to match. */
  lemma UsuarioRouteDecides(k: int, r: Request)
    requires Below(r.path, ["api", "v1", "usuarios"])
    requires 0 <= k < |UsuarioRoutes|
    requires r.verb == UsuarioRoutes[k].verb
    requires PatternMatches(Exact(Api("usuarios", UsuarioRoutes[k].tail)), r.path)
    requires forall j :: 0 <= j < k ==>
      UsuarioRoutes[j].verb != r.verb || !PatternMatches(Exact(Api("usuarios", UsuarioRoutes[j].tail)), r.path)
    ensures Decide(Table, r) == Some(HasAnyRole(UsuarioRoutes[k].roles))
  {
    RouteDecides("usuarios", UsuarioRoutes, k, AfterUsuarios, r);
    ReachesUsuarios(r);
  }

  lemma UsuarioByNameRule(nomeUsuario: string)
    requires nomeUsuario != ""
    ensures Decide(Table, Request(GET, ["api", "v1", "usuarios", nomeUsuario])) == Some(HasAnyRole({USER, ADMIN}))
  {
    var r := Request(GET, ["api", "v1", "usuarios", nomeUsuario]);
    assert UsuarioRoutes[1].roles == {USER, ADMIN};
    ExactMatches("usuarios", [Var("nomeUsuario")], [nomeUsuario]);
    assert r.path == ["api", "v1", "usuarios"] + [nomeUsuario];
    assert |Api("usuarios", UsuarioRoutes[0].tail)| == 3;
    UsuarioRouteDecides(1, r);
  }

  /** "/api/v1/usuarios/id/adocoes" fits both "id/{id}" and "{id}/adocoes"; the first decides. */
  lemma IdAdocoesRule()
    ensures EntryMatches(Usuarios[3], Request(GET, ["api", "v1", "usuarios", "id", "adocoes"]))
    ensures Usuarios[3].rule == HasAnyRole({USER, ADMIN})
    ensures Decide(Table, Request(GET, ["api", "v1", "usuarios", "id", "adocoes"])) == Some(HasAnyRole({ADMIN}))
  {
    var r := Request(GET, ["api", "v1", "usuarios", "id", "adocoes"]);
    assert UsuarioRoutes[2].roles == {ADMIN};
    assert r.path == ["api", "v1", "usuarios"] + ["id", "adocoes"];
    ExactMatches("usuarios", [Var("id"), Lit("adocoes")], ["id", "adocoes"]);
    assert Usuarios[3].patterns[0] == Exact(Api("usuarios", [Var("id"), Lit("adocoes")]));
    ExactMatches("usuarios", [Lit("id"), Var("id")], ["id", "adocoes"]);
    assert |Api("usuarios", UsuarioRoutes[0].tail)| == 3;
    assert |Api("usuarios", UsuarioRoutes[1].tail)| == 4;
    UsuarioRouteDecides(2, r);
  }

  /** No usuario route lists ONG among its roles. */
  lemma UsuarioRoutesExcludeOng()
    ensures forall i :: 0 <= i < |Usuarios| ==> !Grants(Usuarios[i].rule, LoggedIn(ONG))
  {
    forall i | 0 <= i < |Usuarios| ensures !Grants(Usuarios[i].rule, LoggedIn(ONG)) {
      assert Usuarios[i].rule == HasAnyRole(UsuarioRoutes[i].roles);
      assert ONG !in UsuarioRoutes[i].roles;
    }
  }

  /** No usuario entry is for POST, so POST "/api/v1/usuarios" matches nothing listed. */
  lemma UsuarioPostRule()
    ensures Decide(Table, Request(POST, ["api", "v1", "usuarios"])) == Some(PermitAll)
  {
    var r := Request(POST, ["api", "v1", "usuarios"]);
    DocsMissApi(r);
    MissesOtherResource(Administradores, "administradores", r);
    NoRouteFor("usuarios", UsuarioRoutes, r);
    BlockMissesOtherResource("ongs", OngRoutes, r);
    BlockMissesOtherResource("animais", AnimalRoutes, r);
    BlockMissesOtherResource("adocoes", AdocaoRoutes, r);
    UnlistedRule(r);
  }

  /** "/api/v1/<resource>" followed by segments that fit `tail` one by one. */
  lemma ExactMatches(resource: string, tail: seq<Segment>, rest: seq<string>)
    requires |tail| == |rest|
    requires forall i :: 0 <= i < |tail| ==> SegmentMatches(tail[i], rest[i])
    ensures PatternMatches(Exact(Api(resource, tail)), ["api", "v1", resource] + rest)
  {
    var segs := Api(resource, tail);
    var path := ["api", "v1", resource] + rest;
    forall i | 0 <= i < |segs| ensures SegmentMatches(segs[i], path[i]) {
      if i >= 3 {
        assert segs[i] == tail[i - 3] && path[i] == rest[i - 3];
      }
    }
  }

  /** When every route of a block for the request's method carries the same roles,
      whichever of them matches first decides with those roles. */
  lemma BlockDecidesWith(resource: string, routes: seq<Route>, rest: seq<Entry>, r: Request, roles: set<Role>)
    requires !MatchesNone(Block(resource, routes), r)
    requires forall i :: 0 <= i < |routes| && routes[i].verb == r.verb ==> routes[i].roles == roles
    ensures Decide(Block(resource, routes) + rest, r) == Some(HasAnyRole(roles))
  {
    var b := Block(resource, routes);
    DecideAppend(b, rest, r);
    var i :| FirstMatchAt(b, r, i) && Decide(b, r).value == b[i].rule;
    assert b[i].verb == Some(routes[i].verb);
  }

  /** Every animal route other than a GET is for ADMIN or ONG. */
  lemma AnimalWriteRoutes()
    ensures forall i :: 0 <= i < |AnimalRoutes| && AnimalRoutes[i].verb != GET ==>
      AnimalRoutes[i].roles == {ADMIN, ONG}
  {
  }

  /** Every adoption route other than a GET is for ADMIN or ONG. */
  lemma AdocaoWriteRoutes()
    ensures forall i :: 0 <= i < |AdocaoRoutes| && AdocaoRoutes[i].verb != GET ==>
      AdocaoRoutes[i].roles == {ADMIN, ONG}
  {
  }

  lemma AnimalWriteRule(r: Request)
    requires Below(r.path, ["api", "v1", "animais"]) && r.verb != GET
    requires !MatchesNone(Animais, r)
    ensures Decide(Table, r) == Some(HasAnyRole({ADMIN, ONG}))
  {
    AnimalWriteRoutes();
    BlockDecidesWith("animais", AnimalRoutes, Adocoes + AnyRequest, r, {ADMIN, ONG});
    ReachesAnimais(r);
  }

  lemma AdocaoWriteRule(r: Request)
    requires Below(r.path, ["api", "v1", "adocoes"]) && r.verb != GET
    requires !MatchesNone(Adocoes, r)
    ensures Decide(Table, r) == Some(HasAnyRole({ADMIN, ONG}))
  {
    AdocaoWriteRoutes();
    BlockDecidesWith("adocoes", AdocaoRoutes, AnyRequest, r, {ADMIN, ONG});
    ReachesAdocoes(r);
  }

  /** The animal write routes do match their requests: registering an animal and
      changing or removing one by name. */
  lemma AnimalWritesAreListed(nome: string, verb: Method)
    requires nome != ""
    requires verb == PUT || verb == PATCH || verb == DELETE
    ensures EntryMatches(Animais[3], Request(POST, ["api", "v1", "animais", "registro"]))
    ensures !MatchesNone(Animais, Request(verb, ["api", "v1", "animais", nome]))
  {
    ExactMatches("animais", [Lit("registro")], ["registro"]);
    assert Animais[3].patterns[0] == Exact(Api("animais", [Lit("registro")]));
    assert ["api", "v1", "animais", "registro"] == ["api", "v1", "animais"] + ["registro"];
    ExactMatches("animais", [Var("nome")], [nome]);
    assert ["api", "v1", "animais", nome] == ["api", "v1", "animais"] + [nome];
    var k := if verb == PUT then 4 else if verb == PATCH then 5 else 6;
    assert Animais[k].patterns[0] == Exact(Api("animais", [Var("nome")]));
    assert EntryMatches(Animais[k], Request(verb, ["api", "v1", "animais", nome]));
  }

  lemma AnimalListingRule()
    ensures Decide(Table, Request(GET, ["api", "v1", "animais"])) == Some(HasAnyRole({ADMIN, ONG, USER}))
  {
    var r := Request(GET, ["api", "v1", "animais"]);
    assert AnimalRoutes[0].roles == {ADMIN, ONG, USER};
    ExactMatches("animais", [], []);
    assert r.path == ["api", "v1", "animais"] + [];
    RouteDecides("animais", AnimalRoutes, 0, Adocoes + AnyRequest, r);
    ReachesAnimais(r);
  }

  lemma AnimalByNameRule(nome: string)
    requires nome != ""
    ensures Decide(Table, Request(GET, ["api", "v1", "animais", nome])) == Some(HasAnyRole({ADMIN, ONG, USER}))
  {
    var r := Request(GET, ["api", "v1", "animais", nome]);
    assert AnimalRoutes[2].roles == {ADMIN, ONG, USER};
    ExactMatches("animais", [Var("nome")], [nome]);
    assert r.path == ["api", "v1", "animais"] + [nome];
    assert |Api("animais", AnimalRoutes[0].tail)| == 3;
    assert |Api("animais", AnimalRoutes[1].tail)| == 5;
    RouteDecides("animais", AnimalRoutes, 2, Adocoes + AnyRequest, r);
    ReachesAnimais(r);
  }

  lemma AdocaoByIdRule(id: string)
    requires id != ""
    ensures Decide(Table, Request(GET, ["api", "v1", "adocoes", id])) == Some(HasAnyRole({ADMIN, ONG, USER}))
  {
    var r := Request(GET, ["api", "v1", "adocoes", id]);
    assert AdocaoRoutes[1].roles == {ADMIN, ONG, USER};
    ExactMatches("adocoes", [Var("id")], [id]);
    assert r.path == ["api", "v1", "adocoes"] + [id];
    assert |Api("adocoes", AdocaoRoutes[0].tail)| == 3;
    RouteDecides("adocoes", AdocaoRoutes, 1, AnyRequest, r);
    ReachesAdocoes(r);
  }
}
