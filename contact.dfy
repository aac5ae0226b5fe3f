/** An ong's address and its links, as nested value objects that a partial
    update either replaces or merges field by field: a field the update carries
    overwrites, a field it leaves null keeps the stored value. */
module Contact {

  import opened Wrappers
  import opened JsonValues

  datatype Endereco = Endereco(logradouro: Nullable, numero: Nullable, complemento: Nullable, bairro: Nullable,
                               cidade: Nullable, estado: Nullable, cep: Nullable)

  datatype Site = Site(site: Nullable, instagram: Nullable, facebook: Nullable, tiktok: Nullable,
                       youtube: Nullable, whatsapp: Nullable, x: Nullable, linkedin: Nullable)

  /** The update's value when it is not null, the stored one otherwise. */
  function Over(stored: Nullable, update: Nullable): (r: Nullable)
    ensures update.Some? ==> r == update
    ensures update.None? ==> r == stored
  {
    if update.Some? then update else stored
  }

  /** The address field a JSON key names; keys outside EnderecoKeys read as null. */
  function EnderecoField(e: Endereco, key: string): Nullable {
    match key
    case "logradouro" => e.logradouro
    case "numero" => e.numero
    case "complemento" => e.complemento
    case "bairro" => e.bairro
    case "cidade" => e.cidade
    case "estado" => e.estado
    case "cep" => e.cep
    case _ => None
  }

  /** The link field a JSON key names; keys outside SiteKeys read as null. */
  function SiteField(s: Site, key: string): Nullable {
    match key
    case "site" => s.site
    case "instagram" => s.instagram
    case "facebook" => s.facebook
    case "tiktok" => s.tiktok
    case "youtube" => s.youtube
    case "whatsapp" => s.whatsapp
    case "x" => s.x
    case "linkedin" => s.linkedin
    case _ => None
  }

  /** The keys name every field: two addresses that agree on each key are equal,
      so the per-key contracts below fix the whole value. */
  lemma EnderecoFieldsDetermine(a: Endereco, b: Endereco)
    requires forall k :: k in EnderecoKeys ==> EnderecoField(a, k) == EnderecoField(b, k)
    ensures a == b
  {
    assert EnderecoField(a, "logradouro") == EnderecoField(b, "logradouro");
    assert EnderecoField(a, "numero") == EnderecoField(b, "numero");
    assert EnderecoField(a, "complemento") == EnderecoField(b, "complemento");
    assert EnderecoField(a, "bairro") == EnderecoField(b, "bairro");
    assert EnderecoField(a, "cidade") == EnderecoField(b, "cidade");
    assert EnderecoField(a, "estado") == EnderecoField(b, "estado");
    assert EnderecoField(a, "cep") == EnderecoField(b, "cep");
  }

  /** The same for the links. */
  lemma SiteFieldsDetermine(a: Site, b: Site)
    requires forall k :: k in SiteKeys ==> SiteField(a, k) == SiteField(b, k)
    ensures a == b
  {
    assert SiteField(a, "site") == SiteField(b, "site");
    assert SiteField(a, "instagram") == SiteField(b, "instagram");
    assert SiteField(a, "facebook") == SiteField(b, "facebook");
    assert SiteField(a, "tiktok") == SiteField(b, "tiktok");
    assert SiteField(a, "youtube") == SiteField(b, "youtube");
    assert SiteField(a, "whatsapp") == SiteField(b, "whatsapp");
    assert SiteField(a, "x") == SiteField(b, "x");
    assert SiteField(a, "linkedin") == SiteField(b, "linkedin");
  }

  /** Each field of the merge is the update's value when that is not null and the
      stored one otherwise. */
  function MergeEndereco(stored: Endereco, update: Endereco): (r: Endereco)
    ensures forall k {:trigger EnderecoField(r, k)} :: k in EnderecoKeys ==> EnderecoField(r, k) == Over(EnderecoField(stored, k), EnderecoField(update, k))
  {
    Endereco(Over(stored.logradouro, update.logradouro), Over(stored.numero, update.numero),
             Over(stored.complemento, update.complemento), Over(stored.bairro, update.bairro),
             Over(stored.cidade, update.cidade), Over(stored.estado, update.estado),
             Over(stored.cep, update.cep))
  }

  function MergeSite(stored: Site, update: Site): (r: Site)
    ensures forall k {:trigger SiteField(r, k)} :: k in SiteKeys ==> SiteField(r, k) == Over(SiteField(stored, k), SiteField(update, k))
  {
    Site(Over(stored.site, update.site), Over(stored.instagram, update.instagram),
         Over(stored.facebook, update.facebook), Over(stored.tiktok, update.tiktok),
         Over(stored.youtube, update.youtube), Over(stored.whatsapp, update.whatsapp),
         Over(stored.x, update.x), Over(stored.linkedin, update.linkedin))
  }

  const NoEndereco: Endereco := Endereco(None, None, None, None, None, None, None)
  const NoSite: Site := Site(None, None, None, None, None, None, None, None)

  /** Merging an update whose fields are all null leaves the stored address as it
      is; merging the same update twice is merging it once; an update with every
      field set replaces the stored address; and a stored address with every field
      null takes the update as it stands. */
  lemma MergeEnderecoLaws(stored: Endereco, update: Endereco)
    ensures MergeEndereco(stored, NoEndereco) == stored
    ensures MergeEndereco(MergeEndereco(stored, update), update) == MergeEndereco(stored, update)
    ensures MergeEndereco(NoEndereco, update) == update
    ensures (update.logradouro.Some? && update.numero.Some? && update.complemento.Some? && update.bairro.Some?
             && update.cidade.Some? && update.estado.Some? && update.cep.Some?) ==>
      MergeEndereco(stored, update) == update
  {
  }

  /** The same laws for the eight link fields. */
  lemma MergeSiteLaws(stored: Site, update: Site)
    ensures MergeSite(stored, NoSite) == stored
    ensures MergeSite(MergeSite(stored, update), update) == MergeSite(stored, update)
    ensures MergeSite(NoSite, update) == update
    ensures (update.site.Some? && update.instagram.Some? && update.facebook.Some? && update.tiktok.Some?
             && update.youtube.Some? && update.whatsapp.Some? && update.x.Some? && update.linkedin.Some?) ==>
      MergeSite(stored, update) == update
  {
  }

  /** A JSON object's value for one key; a missing key reads as null. */
  function Field(m: map<string, Nullable>, key: string): Nullable {
    if key in m then m[key] else None
  }

  const EnderecoKeys: set<string> := {"logradouro", "numero", "complemento", "bairro", "cidade", "estado", "cep"}
  const SiteKeys: set<string> := {"site", "instagram", "facebook", "tiktok", "youtube", "whatsapp", "x", "linkedin"}

  /** `convertValue(map, EnderecoVO.class)`: an unknown key makes the conversion fail. */
  function ToEndereco(m: map<string, Nullable>): (r: Option<Endereco>)
    ensures r.Some? <==> m.Keys <= EnderecoKeys
    ensures r.Some? ==> forall k {:trigger EnderecoField(r.value, k)} :: k in EnderecoKeys ==> EnderecoField(r.value, k) == Field(m, k)
  {
    if m.Keys <= EnderecoKeys then
      Some(Endereco(Field(m, "logradouro"), Field(m, "numero"), Field(m, "complemento"), Field(m, "bairro"),
                    Field(m, "cidade"), Field(m, "estado"), Field(m, "cep")))
    else None
  }

  /** `convertValue(map, SiteVO.class)`. */
  function ToSite(m: map<string, Nullable>): (r: Option<Site>)
    ensures r.Some? <==> m.Keys <= SiteKeys
    ensures r.Some? ==> forall k {:trigger SiteField(r.value, k)} :: k in SiteKeys ==> SiteField(r.value, k) == Field(m, k)
  {
    if m.Keys <= SiteKeys then
      Some(Site(Field(m, "site"), Field(m, "instagram"), Field(m, "facebook"), Field(m, "tiktok"),
                Field(m, "youtube"), Field(m, "whatsapp"), Field(m, "x"), Field(m, "linkedin")))
    else None
  }

  /** Merging a converted object overwrites each field the object names with a
      non-null value and keeps every other field (one it omits or sets to null). */
  lemma MergeConvertedEndereco(stored: Endereco, m: map<string, Nullable>)
    requires m.Keys <= EnderecoKeys
    ensures ToEndereco(m).Some?
    ensures forall k :: k in EnderecoKeys ==>
      EnderecoField(MergeEndereco(stored, ToEndereco(m).value), k)
        == if k in m && m[k].Some? then m[k] else EnderecoField(stored, k)
  {
    var e := ToEndereco(m).value;
    forall k | k in EnderecoKeys
      ensures EnderecoField(MergeEndereco(stored, e), k) == if k in m && m[k].Some? then m[k] else EnderecoField(stored, k)
    {
      assert EnderecoField(e, k) == Field(m, k);
    }
  }

  /** The same for a converted links object. */
  lemma MergeConvertedSite(stored: Site, m: map<string, Nullable>)
    requires m.Keys <= SiteKeys
    ensures ToSite(m).Some?
    ensures forall k :: k in SiteKeys ==>
      SiteField(MergeSite(stored, ToSite(m).value), k)
        == if k in m && m[k].Some? then m[k] else SiteField(stored, k)
  {
    var t := ToSite(m).value;
    forall k | k in SiteKeys
      ensures SiteField(MergeSite(stored, t), k) == if k in m && m[k].Some? then m[k] else SiteField(stored, k)
    {
      assert SiteField(t, k) == Field(m, k);
    }
  }

  /** The mutable address object of an ong. */
  class EnderecoVO {
    var logradouro: Nullable
    var numero: Nullable
    var complemento: Nullable
    var bairro: Nullable
    var cidade: Nullable
    var estado: Nullable
    var cep: Nullable

    function Value(): Endereco
      reads this
    {
      Endereco(logradouro, numero, complemento, bairro, cidade, estado, cep)
    }

    constructor(e: Endereco)
      ensures Value() == e
    {
      logradouro, numero, complemento, bairro := e.logradouro, e.numero, e.complemento, e.bairro;
      cidade, estado, cep := e.cidade, e.estado, e.cep;
    }

    /** The field-by-field merge, in place: each non-null field of the update is set. */
    method MergeFrom(update: Endereco)
      modifies this
      ensures Value() == MergeEndereco(old(Value()), update)
    {
      logradouro := Over(logradouro, update.logradouro);
      numero := Over(numero, update.numero);
      complemento := Over(complemento, update.complemento);
      bairro := Over(bairro, update.bairro);
      cidade := Over(cidade, update.cidade);
      estado := Over(estado, update.estado);
      cep := Over(cep, update.cep);
    }
  }

  /** The mutable links object of an ong. */
  class SiteVO {
    var site: Nullable
    var instagram: Nullable
    var facebook: Nullable
    var tiktok: Nullable
    var youtube: Nullable
    var whatsapp: Nullable
    var x: Nullable
    var linkedin: Nullable

    function Value(): Site
      reads this
    {
      Site(site, instagram, facebook, tiktok, youtube, whatsapp, x, linkedin)
    }

    constructor(s: Site)
      ensures Value() == s
    {
      site, instagram, facebook, tiktok := s.site, s.instagram, s.facebook, s.tiktok;
      youtube, whatsapp, x, linkedin := s.youtube, s.whatsapp, s.x, s.linkedin;
    }

    /** The field-by-field merge, in place. */
    method MergeFrom(update: Site)
      modifies this
      ensures Value() == MergeSite(old(Value()), update)
    {
      site := Over(site, update.site);
      instagram := Over(instagram, update.instagram);
      facebook := Over(facebook, update.facebook);
      tiktok := Over(tiktok, update.tiktok);
      youtube := Over(youtube, update.youtube);
      whatsapp := Over(whatsapp, update.whatsapp);
      x := Over(x, update.x);
      linkedin := Over(linkedin, update.linkedin);
    }
  }
}
