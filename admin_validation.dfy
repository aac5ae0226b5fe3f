/** The uniqueness checks run before an administrator is created or updated:
    e-mail, user name and cell phone must not already belong to a stored
    administrator. */
module AdminValidation {

  import opened Wrappers
  import opened Text
  import opened JsonValues
  import opened ExceptionHandling
  import opened Validation

  /** The stored columns the checks look at. */
  datatype AdminRow = AdminRow(nomeUsuario: string, email: string, cell: string)

  /** The three checked values of an administrator about to be stored. */
  datatype AdminFields = AdminFields(email: string, nomeUsuario: string, cell: string)

  const NoData: string := "Não há dados"
  const EmailInUse: string := "E-mail já está em uso"
  const NomeUsuarioInUse: string := "Nome de Usuário já está em uso"
  const CellInUse: string := "Cell já está em uso"
  const EmailInUseByOther: string := "E-mail já está em uso por outro administrador"
  const NomeUsuarioInUseByOther: string := "Nome de usuário já está em uso por outro administrador"
  const CellInUseByOther: string := "Celular já está em uso por outro administrador"

  function FindByEmail(rows: seq<AdminRow>, email: string): Option<AdminRow> {
    FindFirst(rows, (a: AdminRow) => a.email == email)
  }

  function FindByNomeUsuario(rows: seq<AdminRow>, nomeUsuario: string): Option<AdminRow> {
    FindFirst(rows, (a: AdminRow) => a.nomeUsuario == nomeUsuario)
  }

  function FindByCell(rows: seq<AdminRow>, cell: string): Option<AdminRow> {
    FindFirst(rows, (a: AdminRow) => a.cell == cell)
  }

  function ExistsAdministradorWithEmail(rows: seq<AdminRow>, email: string): (b: bool)
    ensures b <==> exists i :: 0 <= i < |rows| && rows[i].email == email
  {
    FindByEmail(rows, email).Some?
  }

  function ExistsAdministradorWithNomeUsuario(rows: seq<AdminRow>, nomeUsuario: string): (b: bool)
    ensures b <==> exists i :: 0 <= i < |rows| && rows[i].nomeUsuario == nomeUsuario
  {
    FindByNomeUsuario(rows, nomeUsuario).Some?
  }

  function ExistsAdministradorWithCell(rows: seq<AdminRow>, cell: string): (b: bool)
    ensures b <==> exists i :: 0 <= i < |rows| && rows[i].cell == cell
  {
    FindByCell(rows, cell).Some?
  }

  /** The guard clauses of validate and validateUpdate, in the order they run. */
  function Conflicts(rows: seq<AdminRow>, f: AdminFields): seq<Outcome<Exception>> {
    [ Guard(ExistsAdministradorWithEmail(rows, ToLower(f.email)), IllegalState(EmailInUse)),
      Guard(ExistsAdministradorWithNomeUsuario(rows, f.nomeUsuario), IllegalState(NomeUsuarioInUse)),
      Guard(ExistsAdministradorWithCell(rows, f.cell), IllegalState(CellInUse)) ]
  }

  /** validateUpdate: the lower-cased e-mail, the user name and the cell are looked
      up in that order, and the first one found throws its message. */
  function ValidateUpdate(rows: seq<AdminRow>, entity: AdminFields): (o: Outcome<Exception>)
    ensures o == FirstFailure(Conflicts(rows, entity))
  {
    var cs := Conflicts(rows, entity);
    FirstOfThree(cs[0], cs[1], cs[2]);
    assert cs == [cs[0], cs[1], cs[2]];
    if ExistsAdministradorWithEmail(rows, ToLower(entity.email)) then Fail(IllegalState(EmailInUse))
    else if ExistsAdministradorWithNomeUsuario(rows, entity.nomeUsuario) then Fail(IllegalState(NomeUsuarioInUse))
    else if ExistsAdministradorWithCell(rows, entity.cell) then Fail(IllegalState(CellInUse))
    else Pass
  }

  /** validate: a missing body is refused first, then the checks of validateUpdate. */
  function Validate(rows: seq<AdminRow>, admin: Option<AdminFields>): (o: Outcome<Exception>)
    ensures admin.None? ==> o == Fail(RequiredObjectIsNull(NoData))
    ensures admin.Some? ==> o == FirstFailure(Conflicts(rows, admin.value))
  {
    if admin.None? then Fail(RequiredObjectIsNull(NoData))
    else ValidateUpdate(rows, admin.value)
  }

  /** No stored administrator holds any of the three values. */
  predicate Fresh(rows: seq<AdminRow>, f: AdminFields) {
    forall i :: 0 <= i < |rows| ==>
      && rows[i].email != ToLower(f.email)
      && rows[i].nomeUsuario != f.nomeUsuario
      && rows[i].cell != f.cell
  }

  /** Validation passes exactly when none of the three values is taken; a refusal is
      a conflict (409), and a missing body is answered with 400. */
  lemma ValidateOutcome(rows: seq<AdminRow>, admin: Option<AdminFields>)
    ensures admin.Some? ==> (Validate(rows, admin).Pass? <==> Fresh(rows, admin.value))
    ensures admin.Some? && Validate(rows, admin).Fail? ==>
      Validate(rows, admin).error.IllegalState? && Handle(Validate(rows, admin).error).status == Conflict
    ensures admin.None? ==> Handle(Validate(rows, admin).error) == Response(BadRequest, [NoData])
  {
    if admin.Some? {
      var cs := Conflicts(rows, admin.value);
      if Validate(rows, admin).Fail? {
        var i :| FirstFailAt(cs, i) && cs[i] == Validate(rows, admin);
        assert cs[i].error.IllegalState?;
      }
    }
  }

  /** validateUpdate has no self-exemption either: an administrator re-saved with its
      own stored user name is refused. */
  lemma StoredNomeUsuarioConflicts(rows: seq<AdminRow>, k: int, entity: AdminFields)
    requires 0 <= k < |rows| && entity.nomeUsuario == rows[k].nomeUsuario
    ensures ValidateUpdate(rows, entity).Fail?
  {
    assert ExistsAdministradorWithNomeUsuario(rows, entity.nomeUsuario);
  }

  /** Every e-mail, user name and cell is held by at most one stored administrator. */
  predicate Unique(rows: seq<AdminRow>) {
    forall i, j :: 0 <= i < |rows| && 0 <= j < |rows| && i != j ==>
      && rows[i].email != rows[j].email
      && rows[i].nomeUsuario != rows[j].nomeUsuario
      && rows[i].cell != rows[j].cell
  }

  /** A value held by the administrator with the given user name is not a conflict. */
  function Mine(nomeUsuario: string): AdminRow -> bool {
    (a: AdminRow) => a.nomeUsuario == nomeUsuario
  }

  /** The guards of validatePartialUpdate, in order, for the administrator named
      `nomeUsuario`. */
  function PartialGuards(rows: seq<AdminRow>, nomeUsuario: string, updates: map<string, Value>): seq<Outcome<Exception>> {
    [ KeyGuard(updates, "email", true, (v: string) => FindByEmail(rows, v), Mine(nomeUsuario), IllegalState(EmailInUseByOther)),
      KeyGuard(updates, "nomeUsuario", false, (v: string) => FindByNomeUsuario(rows, v), Mine(nomeUsuario), IllegalState(NomeUsuarioInUseByOther)),
      KeyGuard(updates, "cell", false, (v: string) => FindByCell(rows, v), Mine(nomeUsuario), IllegalState(CellInUseByOther)) ]
  }

  /** validatePartialUpdate: e-mail, user name and cell, when present in the map, are
      looked up (the e-mail lower-cased), and a holder whose user name is not the
      given one throws; the first guard that throws decides. */
  function ValidatePartialUpdate(rows: seq<AdminRow>, nomeUsuario: string, updates: map<string, Value>): (o: Outcome<Exception>)
    ensures o.Pass? <==> forall i :: 0 <= i < 3 ==> PartialGuards(rows, nomeUsuario, updates)[i].Pass?
    ensures o.Fail? ==> exists i :: FirstFailAt(PartialGuards(rows, nomeUsuario, updates), i) && PartialGuards(rows, nomeUsuario, updates)[i] == o
  {
    FirstFailure(PartialGuards(rows, nomeUsuario, updates))
  }

  /** A map naming none of the three keys is never refused. */
  lemma UnrelatedUpdatesPass(rows: seq<AdminRow>, nomeUsuario: string, updates: map<string, Value>)
    requires "email" !in updates && "nomeUsuario" !in updates && "cell" !in updates
    ensures ValidatePartialUpdate(rows, nomeUsuario, updates) == Pass
  {
    assert forall i :: 0 <= i < 3 ==> PartialGuards(rows, nomeUsuario, updates)[i].Pass?;
  }

  /** The exemption is by user name: renaming an administrator to a user name another
      administrator holds is refused, while keeping one's own user name is not. */
  lemma PartialRenameChecksOthers(rows: seq<AdminRow>, nomeUsuario: string, updates: map<string, Value>, k: int)
    requires "email" !in updates && "nomeUsuario" in updates && updates["nomeUsuario"].Str?
    requires 0 <= k < |rows| && rows[k].nomeUsuario == updates["nomeUsuario"].s
    ensures ValidatePartialUpdate(rows, nomeUsuario, updates).Fail? <==>
      (updates["nomeUsuario"].s != nomeUsuario ||
       KeyGuard(updates, "cell", false, (v: string) => FindByCell(rows, v), Mine(nomeUsuario), IllegalState(CellInUseByOther)).Fail?)
    ensures updates["nomeUsuario"].s != nomeUsuario ==>
      ValidatePartialUpdate(rows, nomeUsuario, updates) == Fail(IllegalState(NomeUsuarioInUseByOther))
  {
    var gs := PartialGuards(rows, nomeUsuario, updates);
    var h := FindByNomeUsuario(rows, updates["nomeUsuario"].s);
    assert h.Some? && h.value.nomeUsuario == updates["nomeUsuario"].s by {
      assert !(forall i :: 0 <= i < |rows| ==> !(rows[i].nomeUsuario == updates["nomeUsuario"].s));
    }
    assert gs[0] == Pass;
    FirstOfThree(gs[0], gs[1], gs[2]);
    assert gs == [gs[0], gs[1], gs[2]];
  }

  /** The administrator's own values are exempt: if every present key is a string no
      other administrator holds, the partial update is accepted. */
  lemma PartialOwnValuesPass(rows: seq<AdminRow>, nomeUsuario: string, updates: map<string, Value>)
    requires Unique(rows)
    requires forall key :: key in updates && key in {"email", "nomeUsuario", "cell"} ==> updates[key].Str?
    requires forall i :: 0 <= i < |rows| && rows[i].nomeUsuario != nomeUsuario ==>
      && ("email" in updates ==> rows[i].email != ToLower(updates["email"].s))
      && ("nomeUsuario" in updates ==> rows[i].nomeUsuario != updates["nomeUsuario"].s)
      && ("cell" in updates ==> rows[i].cell != updates["cell"].s)
    ensures ValidatePartialUpdate(rows, nomeUsuario, updates) == Pass
  {
    var gs := PartialGuards(rows, nomeUsuario, updates);
    if "email" in updates {
      var h := FindByEmail(rows, ToLower(updates["email"].s));
      assert h.Some? ==> h.value.nomeUsuario == nomeUsuario;
    }
    if "nomeUsuario" in updates {
      var h := FindByNomeUsuario(rows, updates["nomeUsuario"].s);
      assert h.Some? ==> h.value.nomeUsuario == nomeUsuario;
    }
    if "cell" in updates {
      var h := FindByCell(rows, updates["cell"].s);
      assert h.Some? ==> h.value.nomeUsuario == nomeUsuario;
    }
    assert forall i :: 0 <= i < 3 ==> gs[i].Pass?;
  }
}
