/** The password encoder bean of the second configuration: a delegating encoder
    whose only registered encoder is PBKDF2 under the id "pbkdf2". Hashing
    itself is foreign code and is represented by the functions of `Encoder`. */
module PasswordEncoding {

  import opened Wrappers
  import opened Text

  /** A password encoder: `encode` hashes a raw password, `matches(raw, stored)`
      checks a raw password against a stored hash. */
  datatype Encoder = Encoder(encode: string -> string, matches: (string, string) -> bool)

  const IdForEncode: string := "pbkdf2"

  /** The id between a leading '{' and the first '}', if the stored value has one. */
  function ExtractId(stored: string): (id: Option<string>)
    ensures id.None? <==> |stored| == 0 || stored[0] != '{' || '}' !in stored
    ensures id.Some? ==> '}' !in id.value
    ensures id.Some? ==> |id.value| + 2 <= |stored| && stored[..|id.value| + 2] == "{" + id.value + "}"
  {
    if |stored| == 0 || stored[0] != '{' then None
    else
      match IndexOf(stored, '}')
      case None => None
      case Some(end) =>
        assert stored[..end + 1] == stored[..1] + stored[1..end] + [stored[end]];
        Some(stored[1..end])
  }

  /** The hash after the first '}' (the whole value when there is none). */
  function ExtractEncoded(stored: string): (h: string)
    ensures '}' !in stored ==> h == stored
    ensures '}' in stored ==> exists k :: 0 <= k < |stored| && stored == stored[..k] + "}" + h && '}' !in stored[..k]
  {
    match IndexOf(stored, '}')
    case None => stored
    case Some(end) =>
      assert stored == stored[..end] + "}" + stored[end + 1..];
      stored[end + 1..]
  }

  /** The delegating encoder: new hashes are the PBKDF2 hash tagged "{pbkdf2}". */
  function Encode(pbkdf2: Encoder, raw: string): string {
    "{" + IdForEncode + "}" + pbkdf2.encode(raw)
  }

  /** A stored value tagged with a registered id is checked by that encoder on the
      hash after the tag; any other value goes whole to the default encoder for
      matches, which is PBKDF2 as well. */
  function Matches(pbkdf2: Encoder, raw: string, stored: string): bool {
    match ExtractId(stored)
    case Some(id) =>
      if id == IdForEncode then pbkdf2.matches(raw, ExtractEncoded(stored))
      else pbkdf2.matches(raw, stored)
    case None => pbkdf2.matches(raw, stored)
  }

  /** New hashes carry the "pbkdf2" id, whatever PBKDF2 produces. */
  lemma EncodeIsTagged(pbkdf2: Encoder, raw: string)
    ensures ExtractId(Encode(pbkdf2, raw)) == Some(IdForEncode)
    ensures ExtractEncoded(Encode(pbkdf2, raw)) == pbkdf2.encode(raw)
  {
    var s := Encode(pbkdf2, raw);
    assert s[0] == '{' && s[7] == '}';
    assert '}' !in s[..7];
    assert IndexOf(s, '}') == Some(7);
    assert s[1..7] == IdForEncode;
    assert s[8..] == pbkdf2.encode(raw);
  }

  /** Checking a raw password against its own fresh hash is exactly PBKDF2's own check. */
  lemma MatchesOwnHash(pbkdf2: Encoder, raw: string)
    ensures Matches(pbkdf2, raw, Encode(pbkdf2, raw)) == pbkdf2.matches(raw, pbkdf2.encode(raw))
  {
    EncodeIsTagged(pbkdf2, raw);
  }

  /** A stored value without a recognised id is checked by PBKDF2 as it stands. */
  lemma UnrecognisedIdFallsBack(pbkdf2: Encoder, raw: string, stored: string)
    requires ExtractId(stored) != Some(IdForEncode)
    ensures Matches(pbkdf2, raw, stored) == pbkdf2.matches(raw, stored)
  {
  }

  /** New hashes never start with "{bcrypt}". */
  lemma EncodeIsNotBcrypt(pbkdf2: Encoder, raw: string)
    ensures !StartsWith(Encode(pbkdf2, raw), "{bcrypt}")
  {
    assert Encode(pbkdf2, raw)[1] == 'p';
  }
}
