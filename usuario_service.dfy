/** The user account service: registration derives the stored record from the
    request, update overwrites the editable fields of the loaded entity, and a
    partial update sets the fields a JSON map names, one entry at a time. The
    user validator and bean validation are not part of this model and enter as
    functions. */
module UsuarioAccounts {

  import opened Wrappers
  import opened Text
  import opened Roles
  import opened JsonValues
  import opened ExceptionHandling
  import opened FieldUpdates
  import opened Login
  import opened PasswordEncoding
  import opened PasswordMigration

  /** A stored user. */
  datatype UsuarioRecord = UsuarioRecord(
    id: int, nome: Nullable, nomeUsuario: Nullable, fotoPerfil: Nullable, email: Nullable,
    senha: Nullable, cell: Nullable, cpf: Nullable, role: Option<Role>)

  /** A registration request; the CPF value object is given by its text. */
  datatype Registro = Registro(
    nome: Nullable, nomeUsuario: Nullable, fotoPerfil: Nullable, cell: Nullable,
    email: string, password: string, cpf: string)

  /** The body of a full update. */
  datatype UsuarioUpdate = UsuarioUpdate(
    nome: Nullable, nomeUsuario: Nullable, fotoPerfil: Nullable, email: string, senha: string, cell: Nullable)

  const NotFoundMessage: string := "Usuário não encontrado."

  /** create: nothing is derived unless validation passes; the stored record has the
      lower-cased e-mail, the CPF text, role USER and the encoded password, and
      takes the other fields from the request. */
  function Registered(validation: Outcome<Exception>, encode: string -> string, reg: Registro, id: int): (r: Result<UsuarioRecord, Exception>)
    ensures validation.Fail? ==> r == Failure(validation.error)
    ensures validation.Pass? ==> r.Success? && r.value.role == Some(USER) && r.value.id == id
    ensures validation.Pass? ==>
      && r.value.email == Some(ToLower(reg.email))
      && r.value.senha == Some(encode(reg.password))
      && r.value.cpf == Some(reg.cpf)
    ensures validation.Pass? ==>
      && r.value.nome == reg.nome && r.value.nomeUsuario == reg.nomeUsuario
      && r.value.fotoPerfil == reg.fotoPerfil && r.value.cell == reg.cell
  {
    if validation.Fail? then Failure(validation.error)
    else Success(UsuarioRecord(id, reg.nome, reg.nomeUsuario, reg.fotoPerfil, Some(ToLower(reg.email)),
                               Some(encode(reg.password)), reg.cell, Some(reg.cpf), Some(USER)))
  }

  /** A registered user signs in with the e-mail in any letter case: the normalised
      identifier is the stored e-mail, which is the account's user name. */
  lemma RegisteredEmailSignsIn(validation: Outcome<Exception>, encode: string -> string, reg: Registro, id: int, typed: string)
    requires validation.Pass?
    requires '@' in typed && ToLower(typed) == ToLower(reg.email)
    ensures Registered(validation, encode, reg, id).value.email == Some(NormalizeIdentifier(typed))
  {
  }

  /** With the delegating encoder the stored password is a tagged PBKDF2 hash, never
      the plain text: it carries the "pbkdf2" id, matches the registered password
      exactly when PBKDF2 accepts it, and lacks the prefix the start-up pass skips. */
  lemma RegisteredPasswordIsTagged(validation: Outcome<Exception>, pbkdf2: Encoder, reg: Registro, id: int)
    requires validation.Pass?
    ensures var senha := Registered(validation, DelegatingEncode(pbkdf2), reg, id).value.senha.value;
      && ExtractId(senha) == Some(IdForEncode)
      && Matches(pbkdf2, reg.password, senha) == pbkdf2.matches(reg.password, pbkdf2.encode(reg.password))
      && NeedsEncoding(BcryptTag, senha)
  {
    EncodeIsTagged(pbkdf2, reg.password);
    MatchesOwnHash(pbkdf2, reg.password);
    EncodeIsNotBcrypt(pbkdf2, reg.password);
  }

  /** update's setters: nome, user name, photo and cell as given, the lower-cased
      e-mail and the encoded password. */
  function Updated(stored: UsuarioRecord, upd: UsuarioUpdate, encode: string -> string): UsuarioRecord {
    stored.(nome := upd.nome, nomeUsuario := upd.nomeUsuario, fotoPerfil := upd.fotoPerfil,
            email := Some(ToLower(upd.email)), senha := Some(encode(upd.senha)), cell := upd.cell)
  }

  /** An update keeps the user's id, CPF and role, and repeating it stores the same
      record again in every field but the password: the real encoder salts each
      hash, so only the password's fresh encoding is promised, not its value. */
  lemma UpdatedKeepsIdentity(stored: UsuarioRecord, upd: UsuarioUpdate, encode: string -> string)
    ensures Updated(stored, upd, encode).id == stored.id
    ensures Updated(stored, upd, encode).cpf == stored.cpf
    ensures Updated(stored, upd, encode).role == stored.role
    ensures Updated(Updated(stored, upd, encode), upd, encode).(senha := None) == Updated(stored, upd, encode).(senha := None)
    ensures HasNoUpper(Updated(stored, upd, encode).email.value)
  {
  }

  /** The fields a partial update can reach by name. */
  const TextFields: set<string> := {"nome", "nomeUsuario", "fotoPerfil", "email", "senha", "cell", "cpf"}

  function SetText(r: UsuarioRecord, name: string, t: Nullable): UsuarioRecord
    requires name in TextFields
  {
    if name == "nome" then r.(nome := t)
    else if name == "nomeUsuario" then r.(nomeUsuario := t)
    else if name == "fotoPerfil" then r.(fotoPerfil := t)
    else if name == "email" then r.(email := t)
    else if name == "senha" then r.(senha := t)
    else if name == "cell" then r.(cell := t)
    else r.(cpf := t)
  }

  /** One entry of a partial update: a key naming no field is ignored; otherwise the
      value (lower-cased for "email") is converted to the field's type and set. */
  function Patch(r: UsuarioRecord, name: string, v: Value): Result<UsuarioRecord, Exception> {
    if name == "role" then
      match ToRole(v)
      case Success(role) => Success(r.(role := role))
      case Failure(e) => Failure(e)
    else if name in TextFields then
      match ToText(Lowered(name, v))
      case Success(t) => Success(SetText(r, name, t))
      case Failure(e) => Failure(e)
    else Success(r)
  }

  /** The entries of the map applied in its iteration order; the first conversion
      that fails stops the update. */
  function PatchAll(r: UsuarioRecord, updates: map<string, Value>, order: seq<string>): Result<UsuarioRecord, Exception>
    requires forall i :: 0 <= i < |order| ==> order[i] in updates
  {
    ApplyAll(Patch, r, updates, order)
  }

  /** A map none of whose keys names a field leaves the user as it is. */
  lemma {:induction false} UnknownKeysAreIgnored(r: UsuarioRecord, updates: map<string, Value>, order: seq<string>)
    requires forall i :: 0 <= i < |order| ==> order[i] in updates && order[i] !in TextFields && order[i] != "role"
    ensures PatchAll(r, updates, order) == Success(r)
  {
    if |order| > 0 {
      UnknownKeysAreIgnored(r, updates, order[..|order| - 1]);
    }
  }

  /** The e-mail a partial update leaves: the lower-cased string of the "email" entry,
      null for a null entry, and the stored e-mail when there is no such entry. */
  lemma {:induction false} PatchedEmail(r: UsuarioRecord, updates: map<string, Value>, order: seq<string>)
    requires forall i :: 0 <= i < |order| ==> order[i] in updates
    requires forall i, j :: 0 <= i < j < |order| ==> order[i] != order[j]
    requires PatchAll(r, updates, order).Success?
    ensures "email" !in order ==> PatchAll(r, updates, order).value.email == r.email
    ensures "email" in order && updates["email"].Str? ==>
      PatchAll(r, updates, order).value.email == Some(ToLower(updates["email"].s))
    ensures "email" in order && updates["email"].Null? ==> PatchAll(r, updates, order).value.email == None
  {
    if |order| > 0 {
      var n := |order| - 1;
      PatchedEmail(r, updates, order[..n]);
      if order[n] == "email" {
        assert "email" !in order[..n];
      } else {
        assert "email" in order ==> "email" in order[..n];
      }
    }
  }

  /** A partial update: the entries applied, then bean validation; any violation
      throws with all messages and nothing is kept. */
  function PartialOutcome(stored: UsuarioRecord, updates: map<string, Value>, order: seq<string>,
                          violations: UsuarioRecord -> seq<string>): (o: Result<UsuarioRecord, Exception>)
    requires forall i :: 0 <= i < |order| ==> order[i] in updates
    ensures o.Success? ==> PatchAll(stored, updates, order) == o && violations(o.value) == []
    ensures PatchAll(stored, updates, order).Success? && violations(PatchAll(stored, updates, order).value) == [] ==>
      o == PatchAll(stored, updates, order)
    ensures PatchAll(stored, updates, order).Failure? ==> o == PatchAll(stored, updates, order)
    ensures PatchAll(stored, updates, order).Success? && violations(PatchAll(stored, updates, order).value) != [] ==>
      o == Failure(ViolationError(violations(PatchAll(stored, updates, order).value)))
  {
    match PatchAll(stored, updates, order)
    case Failure(e) => Failure(e)
    case Success(r) => if violations(r) == [] then Success(r) else Failure(ViolationError(violations(r)))
  }

  /** findByNomeUsuario: the position of the user with that user name. */
  function IndexOfNome(rows: seq<UsuarioRecord>, nomeUsuario: string): (i: Option<nat>)
    ensures i.None? <==> forall j :: 0 <= j < |rows| ==> rows[j].nomeUsuario != Some(nomeUsuario)
    ensures i.Some? ==> i.value < |rows| && rows[i.value].nomeUsuario == Some(nomeUsuario)
  {
    if |rows| == 0 then None
    else if rows[0].nomeUsuario == Some(nomeUsuario) then Some(0)
    else match IndexOfNome(rows[1..], nomeUsuario)
      case None => None
      case Some(k) => Some(k + 1)
  }

  /** The JPA entity of a user, loaded from a record and changed field by field. */
  class Usuario {
    var id: int
    var nome: Nullable
    var nomeUsuario: Nullable
    var fotoPerfil: Nullable
    var email: Nullable
    var senha: Nullable
    var cell: Nullable
    var cpf: Nullable
    var role: Option<Role>

    function Value(): UsuarioRecord
      reads this
    {
      UsuarioRecord(id, nome, nomeUsuario, fotoPerfil, email, senha, cell, cpf, role)
    }

    constructor(r: UsuarioRecord)
      ensures Value() == r
    {
      id, nome, nomeUsuario, fotoPerfil, email := r.id, r.nome, r.nomeUsuario, r.fotoPerfil, r.email;
      senha, cell, cpf, role := r.senha, r.cell, r.cpf, r.role;
    }

    /** findField by name, then convertValue and setField; a key naming no field
        changes nothing. */
    method SetField(name: string, v: Value) returns (err: Option<Exception>)
      modifies this
      ensures Patch(old(Value()), name, v).Success? ==> err.None? && Value() == Patch(old(Value()), name, v).value
      ensures Patch(old(Value()), name, v).Failure? ==> err == Some(Patch(old(Value()), name, v).error) && Value() == old(Value())
    {
      err := None;
      if name == "role" {
        var c := ToRole(v);
        if c.Failure? { err := Some(c.error); } else { role := c.value; }
      } else if name in TextFields {
        var c := ToText(Lowered(name, v));
        if c.Failure? {
          err := Some(c.error);
        } else if name == "nome" {
          nome := c.value;
        } else if name == "nomeUsuario" {
          nomeUsuario := c.value;
        } else if name == "fotoPerfil" {
          fotoPerfil := c.value;
        } else if name == "email" {
          email := c.value;
        } else if name == "senha" {
          senha := c.value;
        } else if name == "cell" {
          cell := c.value;
        } else {
          cpf := c.value;
        }
      }
    }
  }

  /** The user table. */
  class UsuarioRepository {
    var rows: seq<UsuarioRecord>

    constructor(rows: seq<UsuarioRecord>)
      ensures this.rows == rows
    {
      this.rows := rows;
    }

    /** findByNomeUsuario: a fresh entity for the matching row, or null. */
    method FindByNomeUsuario(nomeUsuario: string) returns (u: Usuario?, i: nat)
      ensures u == null <==> IndexOfNome(rows, nomeUsuario).None?
      ensures u != null ==> fresh(u) && IndexOfNome(rows, nomeUsuario) == Some(i) && u.Value() == rows[i]
    {
      i := 0;
      u := null;
      var found := IndexOfNome(rows, nomeUsuario);
      if found.Some? {
        i := found.value;
        u := new Usuario(rows[i]);
      }
    }

    /** save of a loaded entity: its row now holds the entity's fields. */
    method Save(i: nat, r: UsuarioRecord)
      requires i < |rows|
      modifies this
      ensures rows == old(rows)[i := r]
    {
      rows := rows[i := r];
    }

    /** save of a new entity. */
    method Insert(r: UsuarioRecord)
      modifies this
      ensures rows == old(rows) + [r]
    {
      rows := rows + [r];
    }
  }

  class UsuarioService {
    const repo: UsuarioRepository
    const encode: string -> string
    /** The user validator's checks, given the stored rows. */
    const validate: (seq<UsuarioRecord>, Registro) -> Outcome<Exception>
    const validateUpdate: (seq<UsuarioRecord>, UsuarioRecord) -> Outcome<Exception>
    const validatePartialUpdate: (seq<UsuarioRecord>, string, map<string, Value>) -> Outcome<Exception>
    /** Bean validation of the resulting record: the messages of its violations. */
    const violations: UsuarioRecord -> seq<string>

    constructor(repo: UsuarioRepository, encode: string -> string,
                validate: (seq<UsuarioRecord>, Registro) -> Outcome<Exception>,
                validateUpdate: (seq<UsuarioRecord>, UsuarioRecord) -> Outcome<Exception>,
                validatePartialUpdate: (seq<UsuarioRecord>, string, map<string, Value>) -> Outcome<Exception>,
                violations: UsuarioRecord -> seq<string>)
      ensures this.repo == repo && this.encode == encode && this.validate == validate
      ensures this.validateUpdate == validateUpdate && this.validatePartialUpdate == validatePartialUpdate
      ensures this.violations == violations
    {
      this.repo, this.encode, this.validate := repo, encode, validate;
      this.validateUpdate, this.validatePartialUpdate, this.violations := validateUpdate, validatePartialUpdate, violations;
    }

    /** create: validate, derive the record and save it as a new row. */
    method Create(reg: Registro, id: int) returns (r: Result<UsuarioRecord, Exception>)
      modifies repo
      ensures r == Registered(validate(old(repo.rows), reg), encode, reg, id)
      ensures r.Success? ==> repo.rows == old(repo.rows) + [r.value]
      ensures r.Failure? ==> repo.rows == old(repo.rows)
    {
      r := Registered(validate(repo.rows, reg), encode, reg, id);
      if r.Success? {
        repo.Insert(r.value);
      }
    }

    /** update: load the user by user name, set the editable fields, validate, save. */
    method Update(upd: UsuarioUpdate, nomeUsuario: string) returns (r: Result<UsuarioRecord, Exception>)
      modifies repo
      ensures IndexOfNome(old(repo.rows), nomeUsuario).None? ==>
        r == Failure(ResourceNotFound(NotFoundMessage)) && repo.rows == old(repo.rows)
      ensures IndexOfNome(old(repo.rows), nomeUsuario).Some? ==>
        var i := IndexOfNome(old(repo.rows), nomeUsuario).value;
        var u := Updated(old(repo.rows)[i], upd, encode);
        match validateUpdate(old(repo.rows), u)
        case Fail(e) => r == Failure(e) && repo.rows == old(repo.rows)
        case Pass => r == Success(u) && repo.rows == old(repo.rows)[i := u]
    {
      var entity, i := repo.FindByNomeUsuario(nomeUsuario);
      if entity == null {
        return Failure(ResourceNotFound(NotFoundMessage));
      }
      entity.nome := upd.nome;
      entity.nomeUsuario := upd.nomeUsuario;
      entity.fotoPerfil := upd.fotoPerfil;
      entity.email := Some(ToLower(upd.email));
      entity.senha := Some(encode(upd.senha));
      entity.cell := upd.cell;
      var check := validateUpdate(repo.rows, entity.Value());
      if check.Fail? {
        return Failure(check.error);
      }
      repo.Save(i, entity.Value());
      r := Success(entity.Value());
    }

    /** partialUpdate: load the user, run the partial-update validator, set each named
        field in the map's iteration order, run bean validation, and save only if all
        of it succeeded. */
    method PartialUpdate(nomeUsuario: string, updates: map<string, Value>, order: seq<string>)
      returns (r: Result<UsuarioRecord, Exception>)
      requires IsOrderOf(order, updates)
      modifies repo
      ensures IndexOfNome(old(repo.rows), nomeUsuario).None? ==>
        r == Failure(ResourceNotFound(NotFoundMessage)) && repo.rows == old(repo.rows)
      ensures IndexOfNome(old(repo.rows), nomeUsuario).Some? ==>
        var i := IndexOfNome(old(repo.rows), nomeUsuario).value;
        match validatePartialUpdate(old(repo.rows), nomeUsuario, updates)
        case Fail(e) => r == Failure(e) && repo.rows == old(repo.rows)
        case Pass =>
          && r == PartialOutcome(old(repo.rows)[i], updates, order, violations)
          && (r.Success? ==> repo.rows == old(repo.rows)[i := r.value])
          && (r.Failure? ==> repo.rows == old(repo.rows))
    {
      var entity, i := repo.FindByNomeUsuario(nomeUsuario);
      if entity == null {
        return Failure(ResourceNotFound(NotFoundMessage));
      }
      var check := validatePartialUpdate(repo.rows, nomeUsuario, updates);
      if check.Fail? {
        return Failure(check.error);
      }
      ghost var stored := entity.Value();
      var k := 0;
      while k < |order|
        invariant 0 <= k <= |order|
        invariant repo.rows == old(repo.rows)
        invariant PatchAll(stored, updates, order[..k]) == Success(entity.Value())
      {
        assert order[..k + 1][..k] == order[..k];
        var err := entity.SetField(order[k], updates[order[k]]);
        if err.Some? {
          assert PatchAll(stored, updates, order[..k + 1]).Failure?;
          ApplyFailureSticks(Patch, stored, updates, order, k + 1);
          return Failure(err.value);
        }
        k := k + 1;
      }
      assert order[..k] == order;
      var vs := violations(entity.Value());
      if vs != [] {
        return Failure(ViolationError(vs));
      }
      repo.Save(i, entity.Value());
      r := Success(entity.Value());
    }
  }
}
