/** The uniqueness checks run before an ong is created or updated: e-mail,
    CNPJ, cell phone and user name must not already belong to a stored ong. */
module OngValidation {

  import opened Wrappers
  import opened Text
  import opened JsonValues
  import opened ExceptionHandling
  import opened Validation

  /** The stored columns the checks look at. */
  datatype OngRow = OngRow(id: int, email: string, cnpj: string, cell: string, nomeUsuario: string)

  /** The four checked values of an ong about to be stored. */
  datatype OngFields = OngFields(email: string, cnpj: string, cell: string, nomeUsuario: string)

  const EmptyJson: string := "JSON vazio"
  const EmailInUse: string := "E-mail já está em uso"
  const CnpjInUse: string := "CNPJ já está em uso"
  const CellInUse: string := "Celular já está em uso"
  const NomeUsuarioInUse: string := "Nome Usuário já está em uso"
  const EmailInUseByOther: string := "E-mail já está em uso por outra ong"
  const CnpjInUseByOther: string := "CNPJ já está em uso por outra ong"
  const CellInUseByOther: string := "Celular já está em uso por outra ong"
  const NomeUsuarioInUseByOther: string := "Nome de usuário já está em uso por outra ong"

  function FindByEmail(rows: seq<OngRow>, email: string): Option<OngRow> {
    FindFirst(rows, (o: OngRow) => o.email == email)
  }

  function FindByCnpj(rows: seq<OngRow>, cnpj: string): Option<OngRow> {
    FindFirst(rows, (o: OngRow) => o.cnpj == cnpj)
  }

  function FindByCell(rows: seq<OngRow>, cell: string): Option<OngRow> {
    FindFirst(rows, (o: OngRow) => o.cell == cell)
  }

  function FindByNomeUsuario(rows: seq<OngRow>, nomeUsuario: string): Option<OngRow> {
    FindFirst(rows, (o: OngRow) => o.nomeUsuario == nomeUsuario)
  }

  function ExistsOngWithEmail(rows: seq<OngRow>, email: string): (b: bool)
    ensures b <==> exists i :: 0 <= i < |rows| && rows[i].email == email
  {
    FindByEmail(rows, email).Some?
  }

  function ExistsOngWithCnpj(rows: seq<OngRow>, cnpj: string): (b: bool)
    ensures b <==> exists i :: 0 <= i < |rows| && rows[i].cnpj == cnpj
  {
    FindByCnpj(rows, cnpj).Some?
  }

  function ExistsOngWithCell(rows: seq<OngRow>, cell: string): (b: bool)
    ensures b <==> exists i :: 0 <= i < |rows| && rows[i].cell == cell
  {
    FindByCell(rows, cell).Some?
  }

  function ExistsOngWithNomeUsuario(rows: seq<OngRow>, nomeUsuario: string): (b: bool)
    ensures b <==> exists i :: 0 <= i < |rows| && rows[i].nomeUsuario == nomeUsuario
  {
    FindByNomeUsuario(rows, nomeUsuario).Some?
  }

  /** The guard clauses of validate and validateUpdate, in the order they run. */
  function Conflicts(rows: seq<OngRow>, f: OngFields): seq<Outcome<Exception>> {
    [ Guard(ExistsOngWithEmail(rows, ToLower(f.email)), IllegalState(EmailInUse)),
      Guard(ExistsOngWithCnpj(rows, f.cnpj), IllegalState(CnpjInUse)),
      Guard(ExistsOngWithCell(rows, f.cell), IllegalState(CellInUse)),
      Guard(ExistsOngWithNomeUsuario(rows, f.nomeUsuario), IllegalState(NomeUsuarioInUse)) ]
  }

  /** validateUpdate: the lower-cased e-mail, the CNPJ, the cell and the user name
      are looked up in that order, and the first one found throws its message. */
  function ValidateUpdate(rows: seq<OngRow>, entity: OngFields): (o: Outcome<Exception>)
    ensures o == FirstFailure(Conflicts(rows, entity))
  {
    var cs := Conflicts(rows, entity);
    FirstOfFour(cs[0], cs[1], cs[2], cs[3]);
    assert cs == [cs[0], cs[1], cs[2], cs[3]];
    if ExistsOngWithEmail(rows, ToLower(entity.email)) then Fail(IllegalState(EmailInUse))
    else if ExistsOngWithCnpj(rows, entity.cnpj) then Fail(IllegalState(CnpjInUse))
    else if ExistsOngWithCell(rows, entity.cell) then Fail(IllegalState(CellInUse))
    else if ExistsOngWithNomeUsuario(rows, entity.nomeUsuario) then Fail(IllegalState(NomeUsuarioInUse))
    else Pass
  }

  /** validate: a missing body is refused first, then the checks of validateUpdate. */
  function Validate(rows: seq<OngRow>, ong: Option<OngFields>): (o: Outcome<Exception>)
    ensures ong.None? ==> o == Fail(RequiredObjectIsNull(EmptyJson))
    ensures ong.Some? ==> o == FirstFailure(Conflicts(rows, ong.value))
  {
    if ong.None? then Fail(RequiredObjectIsNull(EmptyJson))
    else ValidateUpdate(rows, ong.value)
  }

  /** No stored ong holds any of the four values. */
  predicate Fresh(rows: seq<OngRow>, f: OngFields) {
    forall i :: 0 <= i < |rows| ==>
      && rows[i].email != ToLower(f.email)
      && rows[i].cnpj != f.cnpj
      && rows[i].cell != f.cell
      && rows[i].nomeUsuario != f.nomeUsuario
  }

  /** Validation passes exactly when none of the four values is taken; when it
      fails, it fails with a conflict, which the advice answers with 409, and a
      missing body is answered with 400. */
  lemma ValidateOutcome(rows: seq<OngRow>, ong: Option<OngFields>)
    ensures ong.Some? ==> (Validate(rows, ong).Pass? <==> Fresh(rows, ong.value))
    ensures ong.Some? && Validate(rows, ong).Fail? ==>
      Validate(rows, ong).error.IllegalState? && Handle(Validate(rows, ong).error).status == Conflict
    ensures ong.None? ==> Handle(Validate(rows, ong).error) == Response(BadRequest, [EmptyJson])
  {
    if ong.Some? {
      var cs := Conflicts(rows, ong.value);
      if Validate(rows, ong).Fail? {
        var i :| FirstFailAt(cs, i) && cs[i] == Validate(rows, ong);
        assert cs[i].error.IllegalState?;
      }
    }
  }

  /** As written, validateUpdate has no self-exemption: a record carrying the CNPJ
      of a stored ong (every update keeps the ong's own CNPJ) is always refused. */
  lemma StoredCnpjAlwaysConflicts(rows: seq<OngRow>, k: int, entity: OngFields)
    requires 0 <= k < |rows| && entity.cnpj == rows[k].cnpj
    ensures ValidateUpdate(rows, entity).Fail?
    ensures Handle(ValidateUpdate(rows, entity).error).status == Conflict
  {
    assert ExistsOngWithCnpj(rows, entity.cnpj);
  }

  /** Every id, e-mail, CNPJ, cell and user name is held by at most one stored ong,
      as the table's unique columns guarantee. */
  predicate Unique(rows: seq<OngRow>) {
    forall i, j :: 0 <= i < |rows| && 0 <= j < |rows| && i != j ==>
      && rows[i].id != rows[j].id
      && rows[i].email != rows[j].email
      && rows[i].cnpj != rows[j].cnpj
      && rows[i].cell != rows[j].cell
      && rows[i].nomeUsuario != rows[j].nomeUsuario
  }

  /** A value held by the ong with the given id is not a conflict. */
  function Mine(id: int): OngRow -> bool {
    (o: OngRow) => o.id == id
  }

  /** The guards of the corrected update check: a value is refused only when the ong
      found holding it has another id. */
  function UpdateGuards(rows: seq<OngRow>, id: int, entity: OngFields): seq<Outcome<Exception>> {
    [ Guard(var h := FindByEmail(rows, ToLower(entity.email)); h.Some? && h.value.id != id, IllegalState(EmailInUse)),
      Guard(var h := FindByCnpj(rows, entity.cnpj); h.Some? && h.value.id != id, IllegalState(CnpjInUse)),
      Guard(var h := FindByCell(rows, entity.cell); h.Some? && h.value.id != id, IllegalState(CellInUse)),
      Guard(var h := FindByNomeUsuario(rows, entity.nomeUsuario); h.Some? && h.value.id != id, IllegalState(NomeUsuarioInUse)) ]
  }

  /** The update check with the ong's own values exempted, as validatePartialUpdate
      already does: a value is refused only when another ong holds it. */
  function ValidateUpdateOf(rows: seq<OngRow>, id: int, entity: OngFields): (o: Outcome<Exception>)
    ensures o.Fail? ==> o.error.IllegalState?
  {
    FirstFailure(UpdateGuards(rows, id, entity))
  }

  /** No other ong holds any of the four values. */
  predicate FreeOf(rows: seq<OngRow>, id: int, entity: OngFields) {
    forall i :: 0 <= i < |rows| && rows[i].id != id ==>
      && rows[i].email != ToLower(entity.email)
      && rows[i].cnpj != entity.cnpj
      && rows[i].cell != entity.cell
      && rows[i].nomeUsuario != entity.nomeUsuario
  }

  /** With the exemption, an ong whose values are its own or free passes, and a value
      held by another ong is still refused. */
  lemma ValidateUpdateOfExemptsOwnValues(rows: seq<OngRow>, id: int, entity: OngFields)
    requires Unique(rows)
    ensures ValidateUpdateOf(rows, id, entity).Pass? <==> FreeOf(rows, id, entity)
  {
    if FreeOf(rows, id, entity) {
      FreeValuesPass(rows, id, entity);
    } else {
      var i :| 0 <= i < |rows| && rows[i].id != id && !(
        && rows[i].email != ToLower(entity.email)
        && rows[i].cnpj != entity.cnpj
        && rows[i].cell != entity.cell
        && rows[i].nomeUsuario != entity.nomeUsuario);
      OtherHolderRefused(rows, id, entity, i);
    }
  }

  /** A holder found for a value free of other ongs is the ong itself. */
  lemma FreeValuesPass(rows: seq<OngRow>, id: int, entity: OngFields)
    requires FreeOf(rows, id, entity)
    ensures ValidateUpdateOf(rows, id, entity) == Pass
  {
    var gs := UpdateGuards(rows, id, entity);
    var h0 := FindByEmail(rows, ToLower(entity.email));
    if h0.Some? { var j :| 0 <= j < |rows| && rows[j] == h0.value; }
    var h1 := FindByCnpj(rows, entity.cnpj);
    if h1.Some? { var j :| 0 <= j < |rows| && rows[j] == h1.value; }
    var h2 := FindByCell(rows, entity.cell);
    if h2.Some? { var j :| 0 <= j < |rows| && rows[j] == h2.value; }
    var h3 := FindByNomeUsuario(rows, entity.nomeUsuario);
    if h3.Some? { var j :| 0 <= j < |rows| && rows[j] == h3.value; }
    assert forall k :: 0 <= k < |gs| ==> gs[k].Pass?;
  }

  /** A value held by another ong is found on that ong, since no two ongs share it. */
  lemma OtherHolderRefused(rows: seq<OngRow>, id: int, entity: OngFields, i: int)
    requires Unique(rows) && 0 <= i < |rows| && rows[i].id != id
    requires || rows[i].email == ToLower(entity.email) || rows[i].cnpj == entity.cnpj
             || rows[i].cell == entity.cell || rows[i].nomeUsuario == entity.nomeUsuario
    ensures ValidateUpdateOf(rows, id, entity).Fail?
  {
    var gs := UpdateGuards(rows, id, entity);
    if rows[i].email == ToLower(entity.email) {
      var h := FindByEmail(rows, ToLower(entity.email));
      var j :| 0 <= j < |rows| && rows[j] == h.value;
      assert !gs[0].Pass?;
    } else if rows[i].cnpj == entity.cnpj {
      var h := FindByCnpj(rows, entity.cnpj);
      var j :| 0 <= j < |rows| && rows[j] == h.value;
      assert !gs[1].Pass?;
    } else if rows[i].cell == entity.cell {
      var h := FindByCell(rows, entity.cell);
      var j :| 0 <= j < |rows| && rows[j] == h.value;
      assert !gs[2].Pass?;
    } else {
      var h := FindByNomeUsuario(rows, entity.nomeUsuario);
      var j :| 0 <= j < |rows| && rows[j] == h.value;
      assert !gs[3].Pass?;
    }
  }

  /** The guards of validatePartialUpdate, in order, for the ong with the given id. */
  function PartialGuards(rows: seq<OngRow>, id: int, updates: map<string, Value>): seq<Outcome<Exception>> {
    [ KeyGuard(updates, "email", true, (v: string) => FindByEmail(rows, v), Mine(id), IllegalState(EmailInUseByOther)),
      KeyGuard(updates, "cnpj", false, (v: string) => FindByCnpj(rows, v), Mine(id), IllegalState(CnpjInUseByOther)),
      KeyGuard(updates, "cell", false, (v: string) => FindByCell(rows, v), Mine(id), IllegalState(CellInUseByOther)),
      KeyGuard(updates, "nomeUsuario", false, (v: string) => FindByNomeUsuario(rows, v), Mine(id), IllegalState(NomeUsuarioInUseByOther)) ]
  }

  /** validatePartialUpdate: each of e-mail, CNPJ, cell and user name, when present in
      the map, is looked up (the e-mail lower-cased), and a holder other than the ong
      with the given id throws; the first guard that throws decides. */
  function ValidatePartialUpdate(rows: seq<OngRow>, id: int, updates: map<string, Value>): (o: Outcome<Exception>)
    ensures o.Pass? <==> forall i :: 0 <= i < 4 ==> PartialGuards(rows, id, updates)[i].Pass?
    ensures o.Fail? ==> exists i :: FirstFailAt(PartialGuards(rows, id, updates), i) && PartialGuards(rows, id, updates)[i] == o
  {
    FirstFailure(PartialGuards(rows, id, updates))
  }

  /** A map naming none of the four keys is never refused. */
  lemma UnrelatedUpdatesPass(rows: seq<OngRow>, id: int, updates: map<string, Value>)
    requires "email" !in updates && "cnpj" !in updates && "cell" !in updates && "nomeUsuario" !in updates
    ensures ValidatePartialUpdate(rows, id, updates) == Pass
  {
    assert forall i :: 0 <= i < 4 ==> PartialGuards(rows, id, updates)[i].Pass?;
  }

  /** A new e-mail that another ong holds, compared lower-cased, is refused with the
      partial-update message, whatever else the map holds. */
  lemma PartialEmailOfOtherRefused(rows: seq<OngRow>, id: int, updates: map<string, Value>, k: int)
    requires Unique(rows)
    requires "email" in updates && updates["email"].Str?
    requires 0 <= k < |rows| && rows[k].email == ToLower(updates["email"].s) && rows[k].id != id
    ensures ValidatePartialUpdate(rows, id, updates) == Fail(IllegalState(EmailInUseByOther))
  {
    var h := FindByEmail(rows, ToLower(updates["email"].s));
    assert h.Some? && h.value == rows[k] by {
      assert !(forall i :: 0 <= i < |rows| ==> !(rows[i].email == ToLower(updates["email"].s)));
    }
    assert FirstFailAt(PartialGuards(rows, id, updates), 0);
  }

  /** The ong's own values are exempt: if every present key is a string that no other
      ong holds, the partial update is accepted. */
  lemma PartialOwnValuesPass(rows: seq<OngRow>, id: int, updates: map<string, Value>)
    requires Unique(rows)
    requires forall key :: key in updates && key in {"email", "cnpj", "cell", "nomeUsuario"} ==> updates[key].Str?
    requires forall i :: 0 <= i < |rows| && rows[i].id != id ==>
      && ("email" in updates ==> rows[i].email != ToLower(updates["email"].s))
      && ("cnpj" in updates ==> rows[i].cnpj != updates["cnpj"].s)
      && ("cell" in updates ==> rows[i].cell != updates["cell"].s)
      && ("nomeUsuario" in updates ==> rows[i].nomeUsuario != updates["nomeUsuario"].s)
    ensures ValidatePartialUpdate(rows, id, updates) == Pass
  {
    var gs := PartialGuards(rows, id, updates);
    if "email" in updates {
      var h := FindByEmail(rows, ToLower(updates["email"].s));
      assert h.Some? ==> h.value.id == id;
    }
    if "cnpj" in updates {
      var h := FindByCnpj(rows, updates["cnpj"].s);
      assert h.Some? ==> h.value.id == id;
    }
    if "cell" in updates {
      var h := FindByCell(rows, updates["cell"].s);
      assert h.Some? ==> h.value.id == id;
    }
    if "nomeUsuario" in updates {
      var h := FindByNomeUsuario(rows, updates["nomeUsuario"].s);
      assert h.Some? ==> h.value.id == id;
    }
    assert forall i :: 0 <= i < 4 ==> gs[i].Pass?;
  }
}
