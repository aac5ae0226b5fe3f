/** The start-up pass that re-encodes stored passwords: the usuario, ong and
    administrador tables are read, then every password that does not start with
    the skip tag is replaced by its encoding and the record saved, table by table. */
module PasswordMigration {

  import opened Text
  import opened PasswordEncoding

  datatype Kind = Usuarios | Ongs | Administradores

  /** One repository save: which table, which record, and the password it now holds. */
  datatype Saved = Saved(kind: Kind, index: nat, senha: string)

  /** The prefix that marks a password the pass leaves alone. */
  const BcryptTag: string := "{bcrypt}"

  predicate NeedsEncoding(tag: string, senha: string) {
    !StartsWith(senha, tag)
  }

  /** The password a record holds after the pass. */
  function Migrated(tag: string, encode: string -> string, senha: string): string {
    if NeedsEncoding(tag, senha) then encode(senha) else senha
  }

  /** A whole table after the pass. */
  function MigrateAll(tag: string, encode: string -> string, rows: seq<string>): (m: seq<string>)
    ensures |m| == |rows|
    ensures forall i :: 0 <= i < |rows| ==> m[i] == Migrated(tag, encode, rows[i])
  {
    seq(|rows|, i requires 0 <= i < |rows| => Migrated(tag, encode, rows[i]))
  }

  /** The positions of the records the pass re-encodes: exactly those without the
      tag, each once, in increasing order. */
  function Pending(tag: string, rows: seq<string>): (ps: seq<nat>)
    ensures forall j :: 0 <= j < |ps| ==> ps[j] < |rows| && NeedsEncoding(tag, rows[ps[j]])
    ensures forall i :: 0 <= i < |rows| && NeedsEncoding(tag, rows[i]) ==> i in ps
    ensures forall j, k :: 0 <= j < k < |ps| ==> ps[j] < ps[k]
  {
    if |rows| == 0 then []
    else
      var n := |rows| - 1;
      var front := Pending(tag, rows[..n]);
      assert forall j :: 0 <= j < |front| ==> rows[..n][front[j]] == rows[front[j]];
      if NeedsEncoding(tag, rows[n]) then front + [n] else front
  }

  /** The saves the pass makes on one table, in order. */
  function SavesFor(kind: Kind, tag: string, encode: string -> string, rows: seq<string>): seq<Saved> {
    if |rows| == 0 then []
    else
      var n := |rows| - 1;
      SavesFor(kind, tag, encode, rows[..n]) +
        if NeedsEncoding(tag, rows[n]) then [Saved(kind, n, encode(rows[n]))] else []
  }

  /** The pass saves each pending record exactly once, in table order, with its
      encoded password; so the number of saves is the number of untagged records. */
  lemma {:induction false} SavesArePending(kind: Kind, tag: string, encode: string -> string, rows: seq<string>)
    ensures |SavesFor(kind, tag, encode, rows)| == |Pending(tag, rows)|
    ensures forall j :: 0 <= j < |Pending(tag, rows)| ==>
      SavesFor(kind, tag, encode, rows)[j] == Saved(kind, Pending(tag, rows)[j], encode(rows[Pending(tag, rows)[j]]))
  {
    if |rows| > 0 {
      var n := |rows| - 1;
      SavesArePending(kind, tag, encode, rows[..n]);
      var front := Pending(tag, rows[..n]);
      assert forall j :: 0 <= j < |front| ==> rows[..n][front[j]] == rows[front[j]];
    }
  }

  /** A second pass saves nothing exactly when every password the first pass wrote
      carries the tag. */
  lemma RerunSavesNothingIff(kind: Kind, tag: string, encode: string -> string, rows: seq<string>)
    ensures SavesFor(kind, tag, encode, MigrateAll(tag, encode, rows)) == [] <==>
      forall i :: 0 <= i < |rows| && NeedsEncoding(tag, rows[i]) ==> !NeedsEncoding(tag, encode(rows[i]))
  {
    var m := MigrateAll(tag, encode, rows);
    SavesArePending(kind, tag, encode, m);
    if Pending(tag, m) != [] {
      var i := Pending(tag, m)[0];
      assert NeedsEncoding(tag, m[i]);
    }
    forall i | 0 <= i < |rows| && NeedsEncoding(tag, rows[i]) && NeedsEncoding(tag, encode(rows[i]))
      ensures i in Pending(tag, m)
    {
      assert m[i] == encode(rows[i]);
    }
  }

  /** Extending the processed prefix by one record changes that record alone and
      adds its save, if any, at the end. */
  lemma MigrateStep(kind: Kind, tag: string, encode: string -> string, rows: seq<string>, i: nat)
    requires i < |rows|
    ensures MigrateAll(tag, encode, rows[..i + 1]) + rows[i + 1..]
      == (MigrateAll(tag, encode, rows[..i]) + rows[i..])[i := Migrated(tag, encode, rows[i])]
    ensures !NeedsEncoding(tag, rows[i]) ==>
      MigrateAll(tag, encode, rows[..i + 1]) + rows[i + 1..] == MigrateAll(tag, encode, rows[..i]) + rows[i..]
    ensures SavesFor(kind, tag, encode, rows[..i + 1]) == SavesFor(kind, tag, encode, rows[..i]) +
      if NeedsEncoding(tag, rows[i]) then [Saved(kind, i, encode(rows[i]))] else []
  {
    assert rows[..i + 1][..i] == rows[..i];
  }

  /** Pending depends only on which records lack the tag. */
  lemma {:induction false} PendingFollowsTags(tag: string, a: seq<string>, b: seq<string>)
    requires |a| == |b|
    requires forall i :: 0 <= i < |a| ==> (NeedsEncoding(tag, a[i]) <==> NeedsEncoding(tag, b[i]))
    ensures Pending(tag, a) == Pending(tag, b)
  {
    if |a| > 0 {
      var n := |a| - 1;
      PendingFollowsTags(tag, a[..n], b[..n]);
    }
  }

  /** The delegating encoder as the runner sees it. */
  function DelegatingEncode(pbkdf2: Encoder): string -> string {
    s => Encode(pbkdf2, s)
  }

  /** As written, the pass skips "{bcrypt}" but the encoder writes "{pbkdf2}": every
      record it re-encoded is pending again on the next start, and after two starts
      holds the encoding of its own earlier hash. */
  lemma RerunRehashes(pbkdf2: Encoder, rows: seq<string>)
    ensures Pending(BcryptTag, MigrateAll(BcryptTag, DelegatingEncode(pbkdf2), rows)) == Pending(BcryptTag, rows)
    ensures forall i :: 0 <= i < |rows| && NeedsEncoding(BcryptTag, rows[i]) ==>
      MigrateAll(BcryptTag, DelegatingEncode(pbkdf2), MigrateAll(BcryptTag, DelegatingEncode(pbkdf2), rows))[i]
        == Encode(pbkdf2, Encode(pbkdf2, rows[i]))
  {
    var enc := DelegatingEncode(pbkdf2);
    var m := MigrateAll(BcryptTag, enc, rows);
    forall i | 0 <= i < |rows| ensures NeedsEncoding(BcryptTag, m[i]) <==> NeedsEncoding(BcryptTag, rows[i]) {
      if NeedsEncoding(BcryptTag, rows[i]) {
        EncodeIsNotBcrypt(pbkdf2, rows[i]);
      }
    }
    PendingFollowsTags(BcryptTag, m, rows);
  }

  /** The tag the configured encoder actually writes. */
  const Pbkdf2Tag: string := "{" + IdForEncode + "}"

  /** Skipping the encoder's own tag makes the pass idempotent: a second start finds
      nothing to re-encode and leaves every table as the first start left it. */
  lemma TaggedRerunIsNoOp(kind: Kind, pbkdf2: Encoder, rows: seq<string>)
    ensures SavesFor(kind, Pbkdf2Tag, DelegatingEncode(pbkdf2), MigrateAll(Pbkdf2Tag, DelegatingEncode(pbkdf2), rows)) == []
    ensures MigrateAll(Pbkdf2Tag, DelegatingEncode(pbkdf2), MigrateAll(Pbkdf2Tag, DelegatingEncode(pbkdf2), rows))
      == MigrateAll(Pbkdf2Tag, DelegatingEncode(pbkdf2), rows)
  {
    var enc := DelegatingEncode(pbkdf2);
    forall i | 0 <= i < |rows| && NeedsEncoding(Pbkdf2Tag, rows[i]) ensures !NeedsEncoding(Pbkdf2Tag, enc(rows[i])) {
      assert enc(rows[i])[..|Pbkdf2Tag|] == Pbkdf2Tag;
    }
    RerunSavesNothingIff(kind, Pbkdf2Tag, enc, rows);
  }

  /** The stored rows of the three repositories, and the log of their saves. */
  class Database {
    var usuarios: seq<string>
    var ongs: seq<string>
    var administradores: seq<string>
    var saves: seq<Saved>

    constructor(usuarios: seq<string>, ongs: seq<string>, administradores: seq<string>)
      ensures this.usuarios == usuarios && this.ongs == ongs && this.administradores == administradores
      ensures saves == []
    {
      this.usuarios := usuarios;
      this.ongs := ongs;
      this.administradores := administradores;
      saves := [];
    }

    function Rows(kind: Kind): seq<string>
      reads this
    {
      match kind
      case Usuarios => usuarios
      case Ongs => ongs
      case Administradores => administradores
    }

    /** findAll(): the current rows of one repository. */
    method FindAll(kind: Kind) returns (rows: seq<string>)
      ensures rows == Rows(kind)
    {
      rows := Rows(kind);
    }

    /** save(entity): store the record's new password and log the save. */
    method Save(kind: Kind, index: nat, senha: string)
      requires index < |Rows(kind)|
      modifies this
      ensures Rows(kind) == old(Rows(kind))[index := senha]
      ensures kind != Usuarios ==> usuarios == old(usuarios)
      ensures kind != Ongs ==> ongs == old(ongs)
      ensures kind != Administradores ==> administradores == old(administradores)
      ensures saves == old(saves) + [Saved(kind, index, senha)]
    {
      match kind {
        case Usuarios => usuarios := usuarios[index := senha];
        case Ongs => ongs := ongs[index := senha];
        case Administradores => administradores := administradores[index := senha];
      }
      saves := saves + [Saved(kind, index, senha)];
    }
  }

  class PasswordEncoderRunner {
    const db: Database
    const encode: string -> string
    /** The prefix of the passwords the pass leaves alone: BcryptTag as written,
        Pbkdf2Tag for the pass that skips what the configured encoder writes. */
    const skip: string

    constructor(db: Database, encode: string -> string, skip: string)
      ensures this.db == db && this.encode == encode && this.skip == skip
    {
      this.db := db;
      this.encode := encode;
      this.skip := skip;
    }

    /** Reads the three tables first, then re-encodes usuarios, ongs and
        administradores in that order, saving every record it changes. */
    method Run()
      modifies db
      ensures db.usuarios == MigrateAll(skip, encode, old(db.usuarios))
      ensures db.ongs == MigrateAll(skip, encode, old(db.ongs))
      ensures db.administradores == MigrateAll(skip, encode, old(db.administradores))
      ensures db.saves == old(db.saves)
        + SavesFor(Usuarios, skip, encode, old(db.usuarios))
        + SavesFor(Ongs, skip, encode, old(db.ongs))
        + SavesFor(Administradores, skip, encode, old(db.administradores))
    {
      var usuarios := db.FindAll(Usuarios);
      var ongs := db.FindAll(Ongs);
      var administradores := db.FindAll(Administradores);
      MigrateRows(Usuarios, usuarios);
      MigrateRows(Ongs, ongs);
      MigrateRows(Administradores, administradores);
    }

    /** One pass of the loop: a record without the tag is re-encoded and saved. */
    method MigrateRow(kind: Kind, rows: seq<string>, i: nat, ghost before: seq<Saved>)
      requires i < |rows|
      requires db.Rows(kind) == MigrateAll(skip, encode, rows[..i]) + rows[i..]
      requires db.saves == before + SavesFor(kind, skip, encode, rows[..i])
      modifies db
      ensures db.Rows(kind) == MigrateAll(skip, encode, rows[..i + 1]) + rows[i + 1..]
      ensures kind != Usuarios ==> db.usuarios == old(db.usuarios)
      ensures kind != Ongs ==> db.ongs == old(db.ongs)
      ensures kind != Administradores ==> db.administradores == old(db.administradores)
      ensures db.saves == before + SavesFor(kind, skip, encode, rows[..i + 1])
    {
      MigrateStep(kind, skip, encode, rows, i);
      if NeedsEncoding(skip, rows[i]) {
        var encoded := encode(rows[i]);
        db.Save(kind, i, encoded);
      }
    }

    /** One of the three loops. */
    method MigrateRows(kind: Kind, rows: seq<string>)
      requires rows == db.Rows(kind)
      modifies db
      ensures db.Rows(kind) == MigrateAll(skip, encode, rows)
      ensures kind != Usuarios ==> db.usuarios == old(db.usuarios)
      ensures kind != Ongs ==> db.ongs == old(db.ongs)
      ensures kind != Administradores ==> db.administradores == old(db.administradores)
      ensures db.saves == old(db.saves) + SavesFor(kind, skip, encode, rows)
    {
      var i := 0;
      assert rows[..0] == [] && rows[0..] == rows;
      while i < |rows|
        invariant 0 <= i <= |rows|
        invariant db.Rows(kind) == MigrateAll(skip, encode, rows[..i]) + rows[i..]
        invariant kind != Usuarios ==> db.usuarios == old(db.usuarios)
        invariant kind != Ongs ==> db.ongs == old(db.ongs)
        invariant kind != Administradores ==> db.administradores == old(db.administradores)
        invariant db.saves == old(db.saves) + SavesFor(kind, skip, encode, rows[..i])
      {
        MigrateRow(kind, rows, i, old(db.saves));
        i := i + 1;
      }
      assert rows[..i] == rows && rows[i..] == [];
    }
  }
}
