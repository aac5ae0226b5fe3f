/** The ong account service: registration fills in and checks the address, runs
    the uniqueness checks and derives the stored record; update overwrites the
    editable fields of the loaded entity; a partial update sets the fields a
    JSON map names, merging a nested address or links object into the stored
    one. The postal-code lookup, the address check and bean validation are not
    part of this model and enter as functions. */
module OngAccounts {

  import opened Wrappers
  import opened Text
  import opened Roles
  import opened JsonValues
  import opened ExceptionHandling
  import opened FieldUpdates
  import opened Contact
  import opened OngValidation
  import opened Validation

  /** A stored ong. E-mail, user name, cell and CNPJ are the unique columns. */
  datatype OngRecord = OngRecord(
    id: int, nome: Nullable, nomeUsuario: string, fotoPerfil: Nullable, email: string, senha: Nullable,
    cell: string, responsavel: Nullable, descricao: Nullable, cnpj: string, role: Option<Role>,
    endereco: Option<Endereco>, site: Option<Site>)

  /** A registration request; the CNPJ value object is given by its text. */
  datatype OngDto = OngDto(
    nome: Nullable, nomeUsuario: string, fotoPerfil: Nullable, email: string, senha: string, cell: string,
    responsavel: Nullable, descricao: Nullable, cnpj: string, endereco: Option<Endereco>, site: Option<Site>)

  /** The body of a full update: every editable field, the CNPJ excepted. */
  datatype OngUpdate = OngUpdate(
    nome: Nullable, nomeUsuario: string, fotoPerfil: Nullable, email: string, senha: string,
    endereco: Option<Endereco>, cell: string, responsavel: Nullable, descricao: Nullable, site: Option<Site>)

  const NotFoundOnUpdate: string := "Ong não encontrado."
  const NotFoundOnPartialUpdate: string := "Ong não encontrada."

  /** The columns the uniqueness checks read. */
  function RowOf(o: OngRecord): OngRow {
    OngRow(o.id, o.email, o.cnpj, o.cell, o.nomeUsuario)
  }

  function RowsOf(rows: seq<OngRecord>): (rs: seq<OngRow>)
    ensures |rs| == |rows|
    ensures forall i :: 0 <= i < |rows| ==> rs[i] == RowOf(rows[i])
  {
    seq(|rows|, i requires 0 <= i < |rows| => RowOf(rows[i]))
  }

  /** The four checked values of a stored record. */
  function FieldsOf(o: OngRecord): OngFields {
    OngFields(o.email, o.cnpj, o.cell, o.nomeUsuario)
  }

  /** create: the address is completed from its postal code and checked, then the
      uniqueness checks run on the request; only then is the record derived, with
      the lower-cased e-mail, the CNPJ text, role ONG and the encoded password. */
  function Registered(rows: seq<OngRecord>, fill: Option<Endereco> -> Option<Endereco>,
                      addressCheck: Option<Endereco> -> Outcome<Exception>, encode: string -> string,
                      dto: OngDto, id: int): (r: Result<OngRecord, Exception>)
    ensures addressCheck(fill(dto.endereco)).Fail? ==> r == Failure(addressCheck(fill(dto.endereco)).error)
    ensures addressCheck(fill(dto.endereco)).Pass? ==>
      var check := Validate(RowsOf(rows), Some(OngFields(dto.email, dto.cnpj, dto.cell, dto.nomeUsuario)));
      (r.Success? <==> check.Pass?) && (check.Fail? ==> r == Failure(check.error))
    ensures r.Success? ==> r.value.role == Some(ONG) && r.value.email == ToLower(dto.email) && r.value.id == id
    ensures r.Success? ==>
      && r.value.senha == Some(encode(dto.senha))
      && r.value.cnpj == dto.cnpj
      && r.value.endereco == fill(dto.endereco)
    ensures r.Success? ==>
      && r.value.nome == dto.nome && r.value.nomeUsuario == dto.nomeUsuario && r.value.fotoPerfil == dto.fotoPerfil
      && r.value.cell == dto.cell && r.value.responsavel == dto.responsavel && r.value.descricao == dto.descricao
      && r.value.site == dto.site
  {
    var endereco := fill(dto.endereco);
    if addressCheck(endereco).Fail? then Failure(addressCheck(endereco).error)
    else
      var check := Validate(RowsOf(rows), Some(OngFields(dto.email, dto.cnpj, dto.cell, dto.nomeUsuario)));
      if check.Fail? then Failure(check.error)
      else Success(OngRecord(id, dto.nome, dto.nomeUsuario, dto.fotoPerfil, ToLower(dto.email), Some(encode(dto.senha)),
                             dto.cell, dto.responsavel, dto.descricao, dto.cnpj, Some(ONG), endereco, dto.site))
  }

  /** Once the address is accepted, a registration succeeds exactly when no stored ong
      holds the request's e-mail (in lower case), CNPJ, cell or user name, and
      otherwise fails with the conflict of the first value in use. */
  lemma RegisteredIffFresh(rows: seq<OngRecord>, fill: Option<Endereco> -> Option<Endereco>,
                           addressCheck: Option<Endereco> -> Outcome<Exception>, encode: string -> string,
                           dto: OngDto, id: int)
    requires addressCheck(fill(dto.endereco)).Pass?
    ensures var r := Registered(rows, fill, addressCheck, encode, dto, id);
      && (r.Success? <==> Fresh(RowsOf(rows), OngFields(dto.email, dto.cnpj, dto.cell, dto.nomeUsuario)))
      && (r.Failure? ==> r.error.IllegalState? && Handle(r.error).status == Conflict)
  {
    ValidateOutcome(RowsOf(rows), Some(OngFields(dto.email, dto.cnpj, dto.cell, dto.nomeUsuario)));
  }

  /** Registration keeps the stored ongs unique: a new record that passed the checks
      (and got an unused id) clashes with no stored ong on any unique column. */
  lemma RegisteredKeepsUnique(rows: seq<OngRecord>, fill: Option<Endereco> -> Option<Endereco>,
                              addressCheck: Option<Endereco> -> Outcome<Exception>, encode: string -> string,
                              dto: OngDto, id: int)
    requires Unique(RowsOf(rows))
    requires forall i :: 0 <= i < |rows| ==> rows[i].id != id
    requires Registered(rows, fill, addressCheck, encode, dto, id).Success?
    ensures Unique(RowsOf(rows + [Registered(rows, fill, addressCheck, encode, dto, id).value]))
  {
    ValidateOutcome(RowsOf(rows), Some(OngFields(dto.email, dto.cnpj, dto.cell, dto.nomeUsuario)));
    var o := Registered(rows, fill, addressCheck, encode, dto, id).value;
    var rs := RowsOf(rows + [o]);
    assert forall i :: 0 <= i < |rows| ==> rs[i] == RowsOf(rows)[i];
  }

  /** update's setters: every field of the body, the e-mail lower-cased and the
      password encoded; id, CNPJ and role stay. */
  function Updated(stored: OngRecord, upd: OngUpdate, encode: string -> string): OngRecord {
    stored.(nome := upd.nome, nomeUsuario := upd.nomeUsuario, fotoPerfil := upd.fotoPerfil,
            email := ToLower(upd.email), senha := Some(encode(upd.senha)), endereco := upd.endereco,
            cell := upd.cell, responsavel := upd.responsavel, descricao := upd.descricao, site := upd.site)
  }

  /** As written, update always fails: the loaded ong keeps its CNPJ, and the CNPJ
      check of validateUpdate finds that very ong. */
  lemma UpdateAlwaysConflicts(rows: seq<OngRecord>, k: int, upd: OngUpdate, encode: string -> string)
    requires 0 <= k < |rows|
    ensures ValidateUpdate(RowsOf(rows), FieldsOf(Updated(rows[k], upd, encode))).Fail?
  {
    StoredCnpjAlwaysConflicts(RowsOf(rows), k, FieldsOf(Updated(rows[k], upd, encode)));
  }

  /** With the ong's own id exempted, the same update is accepted whenever no other
      ong holds the new e-mail, cell or user name. */
  lemma CorrectedUpdateAccepts(rows: seq<OngRecord>, k: int, upd: OngUpdate, encode: string -> string)
    requires Unique(RowsOf(rows)) && 0 <= k < |rows|
    requires forall i :: 0 <= i < |rows| && i != k ==>
      rows[i].email != ToLower(upd.email) && rows[i].cell != upd.cell && rows[i].nomeUsuario != upd.nomeUsuario
    ensures ValidateUpdateOf(RowsOf(rows), rows[k].id, FieldsOf(Updated(rows[k], upd, encode))) == Pass
  {
    var rs := RowsOf(rows);
    var f := FieldsOf(Updated(rows[k], upd, encode));
    ToLowerIdempotent(upd.email);
    ValidateUpdateOfExemptsOwnValues(rs, rows[k].id, f);
    forall i | 0 <= i < |rs| && rs[i].id != rows[k].id
      ensures rs[i].email != ToLower(f.email) && rs[i].cnpj != f.cnpj && rs[i].cell != f.cell && rs[i].nomeUsuario != f.nomeUsuario
    {
      assert i != k;
    }
  }

  /** The nullable text fields a partial update can reach by name, and the four
      unique columns, which cannot hold null. */
  const TextFields: set<string> := {"nome", "fotoPerfil", "senha", "responsavel", "descricao"}
  const ColumnFields: set<string> := {"nomeUsuario", "email", "cell", "cnpj"}

  function SetText(r: OngRecord, name: string, t: Nullable): OngRecord
    requires name in TextFields
  {
    if name == "nome" then r.(nome := t)
    else if name == "fotoPerfil" then r.(fotoPerfil := t)
    else if name == "senha" then r.(senha := t)
    else if name == "responsavel" then r.(responsavel := t)
    else r.(descricao := t)
  }

  function SetColumn(r: OngRecord, name: string, t: string): OngRecord
    requires name in ColumnFields
  {
    if name == "nomeUsuario" then r.(nomeUsuario := t)
    else if name == "email" then r.(email := t)
    else if name == "cell" then r.(cell := t)
    else r.(cnpj := t)
  }

  /** The address after an "endereco" entry holding an object: the converted object
      itself when the ong has none, otherwise the field-by-field merge. */
  function NewEndereco(stored: Option<Endereco>, update: Endereco): (e: Endereco)
    ensures stored.None? ==> e == update
    ensures stored.Some? ==> e == MergeEndereco(stored.value, update)
  {
    if stored.None? then update else MergeEndereco(stored.value, update)
  }

  function NewSite(stored: Option<Site>, update: Site): (s: Site)
    ensures stored.None? ==> s == update
    ensures stored.Some? ==> s == MergeSite(stored.value, update)
  {
    if stored.None? then update else MergeSite(stored.value, update)
  }

  /** One entry of a partial update. A key naming no field is ignored. "endereco" and
      "site" holding an object are merged; any other value goes through the
      conversion to the field's type (null clears the object). A null for one of
      the four unique columns never gets here, since validatePartialUpdate has
      already thrown on it; it is refused the same way. */
  function Patch(r: OngRecord, name: string, v: Value): Result<OngRecord, Exception> {
    if name == "endereco" then
      match v
      case Obj(m) =>
        (match ToEndereco(m)
         case Some(e) => Success(r.(endereco := Some(NewEndereco(r.endereco, e))))
         case None => Failure(ConversionFailed))
      case Null => Success(r.(endereco := None))
      case Str(_) => Failure(ConversionFailed)
    else if name == "site" then
      match v
      case Obj(m) =>
        (match ToSite(m)
         case Some(s) => Success(r.(site := Some(NewSite(r.site, s))))
         case None => Failure(ConversionFailed))
      case Null => Success(r.(site := None))
      case Str(_) => Failure(ConversionFailed)
    else if name == "role" then
      match ToRole(v)
      case Success(role) => Success(r.(role := role))
      case Failure(e) => Failure(e)
    else if name in TextFields then
      match ToText(v)
      case Success(t) => Success(SetText(r, name, t))
      case Failure(e) => Failure(e)
    else if name in ColumnFields then
      match ToText(Lowered(name, v))
      case Success(Some(t)) => Success(SetColumn(r, name, t))
      case Success(None) => Failure(NullValue)
      case Failure(e) => Failure(e)
    else Success(r)
  }

  /** The entries applied in the map's iteration order; the first failure stops. */
  function PatchAll(r: OngRecord, updates: map<string, Value>, order: seq<string>): Result<OngRecord, Exception>
    requires forall i :: 0 <= i < |order| ==> order[i] in updates
  {
    ApplyAll(Patch, r, updates, order)
  }

  /** The address a partial update leaves: an "endereco" object is merged into the
      stored address (or becomes it when there is none), and without an "endereco"
      entry the address is untouched, whatever else the map sets. */
  lemma {:induction false} PatchedEndereco(r: OngRecord, updates: map<string, Value>, order: seq<string>)
    requires forall i :: 0 <= i < |order| ==> order[i] in updates
    requires forall i, j :: 0 <= i < j < |order| ==> order[i] != order[j]
    requires PatchAll(r, updates, order).Success?
    ensures "endereco" !in order ==> PatchAll(r, updates, order).value.endereco == r.endereco
    ensures "endereco" in order && updates["endereco"].Obj? ==> ToEndereco(updates["endereco"].fields).Some?
    ensures "endereco" in order && updates["endereco"].Obj? ==>
      PatchAll(r, updates, order).value.endereco == Some(NewEndereco(r.endereco, ToEndereco(updates["endereco"].fields).value))
  {
    if |order| > 0 {
      var n := |order| - 1;
      PatchedEndereco(r, updates, order[..n]);
      if order[n] == "endereco" {
        assert "endereco" !in order[..n];
      } else {
        assert "endereco" in order ==> "endereco" in order[..n];
      }
    }
  }

  /** A partial update: the entries applied, then bean validation; any violation
      throws with all messages and nothing is kept. */
  function PartialOutcome(stored: OngRecord, updates: map<string, Value>, order: seq<string>,
                          violations: OngRecord -> seq<string>): (o: Result<OngRecord, Exception>)
    requires forall i :: 0 <= i < |order| ==> order[i] in updates
    ensures o.Success? ==> PatchAll(stored, updates, order) == o && violations(o.value) == []
    ensures PatchAll(stored, updates, order).Success? && violations(PatchAll(stored, updates, order).value) == [] ==>
      o == PatchAll(stored, updates, order)
    ensures PatchAll(stored, updates, order).Failure? ==> o == PatchAll(stored, updates, order)
    ensures PatchAll(stored, updates, order).Success? && violations(PatchAll(stored, updates, order).value) != [] ==>
      o == Failure(ViolationError(violations(PatchAll(stored, updates, order).value)))
  {
    match PatchAll(stored, updates, order)
    case Failure(e) => Failure(e)
    case Success(r) => if violations(r) == [] then Success(r) else Failure(ViolationError(violations(r)))
  }

  /** findByNomeUsuario: the position of the ong with that user name. */
  function IndexOfNome(rows: seq<OngRecord>, nomeUsuario: string): (i: Option<nat>)
    ensures i.None? <==> forall j :: 0 <= j < |rows| ==> rows[j].nomeUsuario != nomeUsuario
    ensures i.Some? ==> i.value < |rows| && rows[i.value].nomeUsuario == nomeUsuario
  {
    if |rows| == 0 then None
    else if rows[0].nomeUsuario == nomeUsuario then Some(0)
    else match IndexOfNome(rows[1..], nomeUsuario)
      case None => None
      case Some(k) => Some(k + 1)
  }

  /** The JPA entity of an ong; its address and links are objects of their own. */
  class Ong {
    var id: int
    var nome: Nullable
    var nomeUsuario: string
    var fotoPerfil: Nullable
    var email: string
    var senha: Nullable
    var cell: string
    var responsavel: Nullable
    var descricao: Nullable
    var cnpj: string
    var role: Option<Role>
    var endereco: EnderecoVO?
    var site: SiteVO?

    function Value(): OngRecord
      reads this, endereco, site
    {
      OngRecord(id, nome, nomeUsuario, fotoPerfil, email, senha, cell, responsavel, descricao, cnpj, role,
                if endereco == null then None else Some(endereco.Value()),
                if site == null then None else Some(site.Value()))
    }

    constructor(r: OngRecord)
      ensures Value() == r
      ensures endereco != null ==> fresh(endereco)
      ensures site != null ==> fresh(site)
    {
      id, nome, nomeUsuario, fotoPerfil, email, senha := r.id, r.nome, r.nomeUsuario, r.fotoPerfil, r.email, r.senha;
      cell, responsavel, descricao, cnpj, role := r.cell, r.responsavel, r.descricao, r.cnpj, r.role;
      if r.endereco.None? {
        endereco := null;
      } else {
        endereco := new EnderecoVO(r.endereco.value);
      }
      if r.site.None? {
        site := null;
      } else {
        site := new SiteVO(r.site.value);
      }
    }

    /** One entry of the map: findField by name, then either the in-place merge of a
        nested object or convertValue and setField. */
    method SetField(name: string, v: Value) returns (err: Option<Exception>)
      modifies this, endereco, site
      ensures Patch(old(Value()), name, v).Success? ==> err.None? && Value() == Patch(old(Value()), name, v).value
      ensures Patch(old(Value()), name, v).Failure? ==> err == Some(Patch(old(Value()), name, v).error) && Value() == old(Value())
      ensures endereco != null ==> endereco == old(endereco) || fresh(endereco)
      ensures site != null ==> site == old(site) || fresh(site)
    {
      if name == "endereco" {
        err := SetEndereco(v);
      } else if name == "site" {
        err := SetSite(v);
      } else {
        err := SetScalar(name, v);
      }
    }

    /** The entries of the map, one at a time in its iteration order; the first
        failure stops the loop and is returned. */
    method SetFields(updates: map<string, Value>, order: seq<string>) returns (err: Option<Exception>)
      requires forall i :: 0 <= i < |order| ==> order[i] in updates
      modifies this, endereco, site
      ensures PatchAll(old(Value()), updates, order).Success? ==>
        err.None? && Value() == PatchAll(old(Value()), updates, order).value
      ensures PatchAll(old(Value()), updates, order).Failure? ==>
        err == Some(PatchAll(old(Value()), updates, order).error)
    {
      ghost var stored := Value();
      var k := 0;
      while k < |order|
        invariant 0 <= k <= |order|
        invariant endereco != null ==> endereco == old(endereco) || fresh(endereco)
        invariant site != null ==> site == old(site) || fresh(site)
        invariant PatchAll(stored, updates, order[..k]) == Success(Value())
      {
        assert order[..k + 1][..k] == order[..k];
        err := SetField(order[k], updates[order[k]]);
        if err.Some? {
          assert PatchAll(stored, updates, order[..k + 1]).Failure?;
          ApplyFailureSticks(Patch, stored, updates, order, k + 1);
          return;
        }
        k := k + 1;
      }
      assert order[..k] == order;
      err := None;
    }

    /** An "endereco" entry: an object is converted and merged into the stored address
        (or becomes it), null clears it. */
    method SetEndereco(v: Value) returns (err: Option<Exception>)
      modifies this, endereco
      ensures Patch(old(Value()), "endereco", v).Success? ==> err.None? && Value() == Patch(old(Value()), "endereco", v).value
      ensures Patch(old(Value()), "endereco", v).Failure? ==> err == Some(Patch(old(Value()), "endereco", v).error) && Value() == old(Value())
      ensures endereco != null ==> endereco == old(endereco) || fresh(endereco)
      ensures site == old(site)
    {
      err := None;
      match v {
        case Obj(m) =>
          var e := ToEndereco(m);
          if e.None? {
            err := Some(ConversionFailed);
          } else if endereco == null {
            endereco := new EnderecoVO(e.value);
          } else {
            endereco.MergeFrom(e.value);
          }
        case Null => endereco := null;
        case Str(_) => err := Some(ConversionFailed);
      }
    }

    /** A "site" entry, in the same way. */
    method SetSite(v: Value) returns (err: Option<Exception>)
      modifies this, site
      ensures Patch(old(Value()), "site", v).Success? ==> err.None? && Value() == Patch(old(Value()), "site", v).value
      ensures Patch(old(Value()), "site", v).Failure? ==> err == Some(Patch(old(Value()), "site", v).error) && Value() == old(Value())
      ensures site != null ==> site == old(site) || fresh(site)
      ensures endereco == old(endereco)
    {
      err := None;
      match v {
        case Obj(m) =>
          var s := ToSite(m);
          if s.None? {
            err := Some(ConversionFailed);
          } else if site == null {
            site := new SiteVO(s.value);
          } else {
            site.MergeFrom(s.value);
          }
        case Null => site := null;
        case Str(_) => err := Some(ConversionFailed);
      }
    }

    /** Any other entry: the role, a text field or a unique column is converted and
        set; an unknown key changes nothing. */
    method SetScalar(name: string, v: Value) returns (err: Option<Exception>)
      requires name != "endereco" && name != "site"
      modifies this
      ensures Patch(old(Value()), name, v).Success? ==> err.None? && Value() == Patch(old(Value()), name, v).value
      ensures Patch(old(Value()), name, v).Failure? ==> err == Some(Patch(old(Value()), name, v).error) && Value() == old(Value())
      ensures endereco == old(endereco) && site == old(site)
    {
      err := None;
      if name == "role" {
        var c := ToRole(v);
        if c.Failure? { err := Some(c.error); } else { role := c.value; }
      } else if name in TextFields {
        var c := ToText(v);
        if c.Failure? {
          err := Some(c.error);
        } else {
          SetTextField(name, c.value);
        }
      } else if name in ColumnFields {
        var c := ToText(Lowered(name, v));
        if c.Failure? {
          err := Some(c.error);
        } else if c.value.None? {
          err := Some(NullValue);
        } else {
          SetColumnField(name, c.value.value);
        }
      }
    }

    /** setField on one of the nullable text fields. */
    method SetTextField(name: string, t: Nullable)
      requires name in TextFields
      modifies this
      ensures Value() == SetText(old(Value()), name, t)
      ensures endereco == old(endereco) && site == old(site)
    {
      if name == "nome" {
        nome := t;
      } else if name == "fotoPerfil" {
        fotoPerfil := t;
      } else if name == "senha" {
        senha := t;
      } else if name == "responsavel" {
        responsavel := t;
      } else {
        descricao := t;
      }
    }

    /** setField on one of the unique columns. */
    method SetColumnField(name: string, t: string)
      requires name in ColumnFields
      modifies this
      ensures Value() == SetColumn(old(Value()), name, t)
      ensures endereco == old(endereco) && site == old(site)
    {
      if name == "nomeUsuario" {
        nomeUsuario := t;
      } else if name == "email" {
        email := t;
      } else if name == "cell" {
        cell := t;
      } else {
        cnpj := t;
      }
    }

    /** update's setters, applied to the loaded entity: new address and links objects
        replace the stored ones. */
    method ApplyUpdate(u: OngUpdate, encode: string -> string)
      modifies this
      ensures Value() == Updated(old(Value()), u, encode)
    {
      SetNames(u.nome, u.nomeUsuario, u.fotoPerfil);
      SetLogin(ToLower(u.email), Some(encode(u.senha)));
      SetContact(u.cell, u.responsavel, u.descricao);
      ReplaceEndereco(u.endereco);
      ReplaceSite(u.site);
    }

    /** The name setters of update. */
    method SetNames(nome: Nullable, nomeUsuario: string, fotoPerfil: Nullable)
      modifies this
      ensures Value() == old(Value()).(nome := nome, nomeUsuario := nomeUsuario, fotoPerfil := fotoPerfil)
    {
      this.nome, this.nomeUsuario, this.fotoPerfil := nome, nomeUsuario, fotoPerfil;
    }

    /** The e-mail and password setters of update. */
    method SetLogin(email: string, senha: Nullable)
      modifies this
      ensures Value() == old(Value()).(email := email, senha := senha)
    {
      this.email, this.senha := email, senha;
    }

    /** The cell, person in charge and description setters of update. */
    method SetContact(cell: string, responsavel: Nullable, descricao: Nullable)
      modifies this
      ensures Value() == old(Value()).(cell := cell, responsavel := responsavel, descricao := descricao)
    {
      this.cell, this.responsavel, this.descricao := cell, responsavel, descricao;
    }

    /** setEndereco with a new object, or null. */
    method ReplaceEndereco(e: Option<Endereco>)
      modifies this
      ensures Value() == old(Value()).(endereco := e)
    {
      if e.None? {
        endereco := null;
      } else {
        endereco := new EnderecoVO(e.value);
      }
    }

    /** setSite with a new object, or null. */
    method ReplaceSite(s: Option<Site>)
      modifies this
      ensures Value() == old(Value()).(site := s)
    {
      if s.None? {
        site := null;
      } else {
        site := new SiteVO(s.value);
      }
    }
  }

  /** The ong table. */
  class OngRepository {
    var rows: seq<OngRecord>

    constructor(rows: seq<OngRecord>)
      ensures this.rows == rows
    {
      this.rows := rows;
    }

    /** findByNomeUsuario: a fresh entity for the matching row, or null. */
    method FindByNomeUsuario(nomeUsuario: string) returns (o: Ong?, i: nat)
      ensures o == null <==> IndexOfNome(rows, nomeUsuario).None?
      ensures o != null ==> fresh(o) && IndexOfNome(rows, nomeUsuario) == Some(i) && o.Value() == rows[i]
      ensures o != null && o.endereco != null ==> fresh(o.endereco)
      ensures o != null && o.site != null ==> fresh(o.site)
    {
      i := 0;
      o := null;
      var found := IndexOfNome(rows, nomeUsuario);
      if found.Some? {
        i := found.value;
        o := new Ong(rows[i]);
      }
    }

    /** save of a loaded entity: its row now holds the entity's fields. */
    method Save(i: nat, r: OngRecord)
      requires i < |rows|
      modifies this
      ensures rows == old(rows)[i := r]
    {
      rows := rows[i := r];
    }

    /** save of a new entity. */
    method Insert(r: OngRecord)
      modifies this
      ensures rows == old(rows) + [r]
    {
      rows := rows + [r];
    }
  }

  class OngService {
    const repo: OngRepository
    const encode: string -> string
    /** The postal-code lookup that completes an address. */
    const fill: Option<Endereco> -> Option<Endereco>
    /** The check that the completed address has every required field. */
    const addressCheck: Option<Endereco> -> Outcome<Exception>
    /** Bean validation of the resulting record: the messages of its violations. */
    const violations: OngRecord -> seq<string>

    constructor(repo: OngRepository, encode: string -> string, fill: Option<Endereco> -> Option<Endereco>,
                addressCheck: Option<Endereco> -> Outcome<Exception>, violations: OngRecord -> seq<string>)
      ensures this.repo == repo && this.encode == encode && this.fill == fill
      ensures this.addressCheck == addressCheck && this.violations == violations
    {
      this.repo, this.encode, this.fill := repo, encode, fill;
      this.addressCheck, this.violations := addressCheck, violations;
    }

    /** create: derive the record as Registered does and save it as a new row. */
    method Create(dto: OngDto, id: int) returns (r: Result<OngRecord, Exception>)
      modifies repo
      ensures r == Registered(old(repo.rows), fill, addressCheck, encode, dto, id)
      ensures r.Success? ==> repo.rows == old(repo.rows) + [r.value]
      ensures r.Failure? ==> repo.rows == old(repo.rows)
    {
      r := Registered(repo.rows, fill, addressCheck, encode, dto, id);
      if r.Success? {
        repo.Insert(r.value);
      }
    }

    /** update: refuse a missing body, load the ong by user name, set every editable
        field, run the update check and save. The check exempts the ong's own values
        (ValidateUpdateOf); validateUpdate as written refuses every update, see
        UpdateAlwaysConflicts. */
    method Update(upd: Option<OngUpdate>, nomeUsuario: string) returns (r: Result<OngRecord, Exception>)
      modifies repo
      ensures upd.None? ==> r == Failure(RequiredObjectIsNull(NullObjectMessage)) && repo.rows == old(repo.rows)
      ensures upd.Some? && IndexOfNome(old(repo.rows), nomeUsuario).None? ==>
        r == Failure(ResourceNotFound(NotFoundOnUpdate)) && repo.rows == old(repo.rows)
      ensures upd.Some? && IndexOfNome(old(repo.rows), nomeUsuario).Some? ==>
        var i := IndexOfNome(old(repo.rows), nomeUsuario).value;
        var u := Updated(old(repo.rows)[i], upd.value, encode);
        match ValidateUpdateOf(RowsOf(old(repo.rows)), old(repo.rows)[i].id, FieldsOf(u))
        case Fail(e) => r == Failure(e) && repo.rows == old(repo.rows)
        case Pass => r == Success(u) && repo.rows == old(repo.rows)[i := u]
    {
      if upd.None? {
        return Failure(RequiredObjectIsNull(NullObjectMessage));
      }
      var entity, i := repo.FindByNomeUsuario(nomeUsuario);
      if entity == null {
        return Failure(ResourceNotFound(NotFoundOnUpdate));
      }
      entity.ApplyUpdate(upd.value, encode);
      var check := ValidateUpdateOf(RowsOf(repo.rows), entity.id, FieldsOf(entity.Value()));
      if check.Fail? {
        return Failure(check.error);
      }
      repo.Save(i, entity.Value());
      r := Success(entity.Value());
    }

    /** partialUpdate: load the ong, run validatePartialUpdate with its id, apply each
        entry in the map's iteration order, run bean validation, and save only if all
        of it succeeded. */
    method PartialUpdate(nomeUsuario: string, updates: map<string, Value>, order: seq<string>)
      returns (r: Result<OngRecord, Exception>)
      requires IsOrderOf(order, updates)
      modifies repo
      ensures IndexOfNome(old(repo.rows), nomeUsuario).None? ==>
        r == Failure(ResourceNotFound(NotFoundOnPartialUpdate)) && repo.rows == old(repo.rows)
      ensures IndexOfNome(old(repo.rows), nomeUsuario).Some? ==>
        var i := IndexOfNome(old(repo.rows), nomeUsuario).value;
        match ValidatePartialUpdate(RowsOf(old(repo.rows)), old(repo.rows)[i].id, updates)
        case Fail(e) => r == Failure(e) && repo.rows == old(repo.rows)
        case Pass =>
          && r == PartialOutcome(old(repo.rows)[i], updates, order, violations)
          && (r.Success? ==> repo.rows == old(repo.rows)[i := r.value])
          && (r.Failure? ==> repo.rows == old(repo.rows))
    {
      var entity, i := repo.FindByNomeUsuario(nomeUsuario);
      if entity == null {
        return Failure(ResourceNotFound(NotFoundOnPartialUpdate));
      }
      var check := ValidatePartialUpdate(RowsOf(repo.rows), entity.id, updates);
      if check.Fail? {
        return Failure(check.error);
      }
      var err := entity.SetFields(updates, order);
      if err.Some? {
        return Failure(err.value);
      }
      var vs := violations(entity.Value());
      if vs != [] {
        return Failure(ViolationError(vs));
      }
      repo.Save(i, entity.Value());
      r := Success(entity.Value());
    }
  }
}
