/** Sealing upstream ciphertext into the signature of a thinking block, and opening it again. */
module ThinkingSignature {
  import opened Wrappers
  import opened Utf8
  import opened Base64Url
  import opened Splitting
  import opened ProtocolErrors

  const MAX_SIGNATURE_BYTES: nat := 8 * 1024 * 1024
  const PRODUCT := "csswitch"
  const NAME := "codex-thinking"
  const VERSION := "v1"
  const PREFIX := "csswitch" + "." + "codex-thinking" + "." + "v1"
  const PURPOSE := "codex-reasoning"

  datatype Payload = Payload(
    version: nat, purpose: string, authEpoch: string, accountHash: string,
    itemId: string, toolId: Option<string>, digest: string, content: string)

  datatype VerifiedReasoning = VerifiedReasoning(itemId: string, content: string)

  /** A signer: its keyed tag, the content digest and the JSON form of a payload are whatever they are. */
  datatype ThinkingSigner = ThinkingSigner(
    hmac: string -> seq<Byte>, digest: string -> string,
    toJson: Payload -> seq<Byte>, fromJson: seq<Byte> -> Option<Payload>)
  {
    /** All that is assumed of them: a payload reads back from its JSON form. */
    ghost predicate Lawful() {
      forall p: Payload :: fromJson(toJson(p)) == Some(p)
    }

    function Seal(authEpoch: string, accountHash: string, itemId: string, toolId: Option<string>, content: string)
      : Result<string, ProtocolError>
    {
      var _ :- ValidateIdentity(authEpoch, accountHash, itemId, toolId);
      if ByteLen(content) > MAX_SIGNATURE_BYTES then Err(TooLarge("thinking signature is too large"))
      else
        var payload := Payload(1, PURPOSE, authEpoch, accountHash, itemId, toolId, digest(content), content);
        var signature := Compose(payload);
        if ByteLen(signature) > MAX_SIGNATURE_BYTES then Err(TooLarge("thinking signature is too large"))
        else Ok(signature)
    }

    function Compose(payload: Payload): string {
      var encoded := Encode(toJson(payload));
      PREFIX + "." + encoded + "." + Encode(hmac(PREFIX + "." + encoded))
    }

    function Open(signature: string, authEpoch: string, accountHash: string, toolId: Option<string>)
      : Result<VerifiedReasoning, ProtocolError>
    {
      if ByteLen(signature) > MAX_SIGNATURE_BYTES then Err(TooLarge("thinking signature is too large"))
      else
        var pieces := Split(signature, '.');
        if |pieces| != 5 || pieces[..3] != [PRODUCT, NAME, VERSION] then Err(BadSignature("thinking signature is invalid"))
        else
          match (Decode(pieces[4]), Decode(pieces[3]))
          case (Some(tag), Some(bytes)) =>
            if tag != hmac(PREFIX + "." + pieces[3]) || fromJson(bytes).None? then
              Err(BadSignature("thinking signature is invalid"))
            else
              var p := fromJson(bytes).value;
              if || p.version != 1
                 || p.purpose != PURPOSE
                 || p.authEpoch != authEpoch
                 || p.accountHash != accountHash
                 || p.toolId != toolId
                 || p.digest != digest(p.content)
              then Err(BadSignature("thinking signature context changed"))
              else
                var _ :- ValidateIdentity(p.authEpoch, p.accountHash, p.itemId, p.toolId);
                Ok(VerifiedReasoning(p.itemId, p.content))
          case _ => Err(BadSignature("thinking signature is invalid"))
    }
  }

  function ValidateIdentity(authEpoch: string, accountHash: string, itemId: string, toolId: Option<string>)
    : Result<(), ProtocolError>
  {
    if || ByteLen(authEpoch) != 32
       || ByteLen(accountHash) != 32
       || !IsLowerHex(authEpoch)
       || !IsLowerHex(accountHash)
       || itemId == ""
       || ByteLen(itemId) > 512
       || (toolId.Some? && (toolId.value == "" || ByteLen(toolId.value) > 512))
    then Err(BadSignature("thinking signature identity is invalid"))
    else Ok(())
  }

  predicate IsLowerHex(s: string) {
    forall i | 0 <= i < |s| :: '0' <= s[i] <= '9' || 'a' <= s[i] <= 'f'
  }

  lemma ComposedPieces(signer: ThinkingSigner, p: Payload)
    ensures
      var encoded := Encode(signer.toJson(p));
      Split(signer.Compose(p), '.')
      == [PRODUCT, NAME, VERSION, encoded, Encode(signer.hmac(PREFIX + "." + encoded))]
  {
    var encoded := Encode(signer.toJson(p));
    var tag := Encode(signer.hmac(PREFIX + "." + encoded));
    EncodingHasNoDot(signer.toJson(p));
    EncodingHasNoDot(signer.hmac(PREFIX + "." + encoded));
    JoinedPieces(encoded, tag);
  }

  lemma JoinedPieces(encoded: string, tag: string)
    requires '.' !in encoded && '.' !in tag
    ensures Split(PREFIX + "." + encoded + "." + tag, '.') == [PRODUCT, NAME, VERSION, encoded, tag]
  {
    SplitWhole(tag, '.');
    TwoPieces(encoded, tag);
    PrefixPieces(encoded + "." + tag);
    Regroup(PREFIX + ".", encoded, ".", tag);
    FivePieces(encoded, tag);
  }

  lemma Regroup(a: string, b: string, c: string, d: string)
    ensures a + b + c + d == a + (b + c + d)
  {
  }

  lemma FivePieces(encoded: string, tag: string)
    ensures [PRODUCT, NAME, VERSION] + ([encoded] + [tag]) == [PRODUCT, NAME, VERSION, encoded, tag]
  {
  }

  lemma PrefixPieces(rest: string)
    ensures Split(PREFIX + "." + rest, '.') == [PRODUCT, NAME, VERSION] + Split(rest, '.')
  {
    TwoPieces(VERSION, rest);
    var tail := VERSION + "." + rest;
    TwoPieces(NAME, tail);
    TwoPieces(PRODUCT, NAME + "." + tail);
    assert PREFIX + "." + rest == PRODUCT + "." + (NAME + "." + tail);
  }

  lemma TwoPieces(a: string, b: string)
    requires '.' !in a
    ensures Split(a + "." + b, '.') == [a] + Split(b, '.')
  {
    SplitFirst(a, '.', b);
  }

  /** A sealed signature opens under exactly the identity and tool it was sealed for, and yields what was sealed. */
  lemma SealedOpensOnlyInContext(
      signer: ThinkingSigner, authEpoch: string, accountHash: string, itemId: string, toolId: Option<string>,
      content: string, authEpoch': string, accountHash': string, toolId': Option<string>)
    requires signer.Lawful()
    requires signer.Seal(authEpoch, accountHash, itemId, toolId, content).Ok?
    ensures
      var signature := signer.Seal(authEpoch, accountHash, itemId, toolId, content).value;
      signer.Open(signature, authEpoch', accountHash', toolId')
      == if authEpoch == authEpoch' && accountHash == accountHash' && toolId == toolId'
         then Ok(VerifiedReasoning(itemId, content))
         else Err(BadSignature("thinking signature context changed"))
  {
    var p := Payload(1, PURPOSE, authEpoch, accountHash, itemId, toolId, signer.digest(content), content);
    var encoded := Encode(signer.toJson(p));
    ComposedPieces(signer, p);
    DecodeOfEncode(signer.toJson(p));
    DecodeOfEncode(signer.hmac(PREFIX + "." + encoded));
  }

  /** Whatever opens was composed from the payload it yields under this signer's tag: nothing else is accepted. */
  lemma OpenedWasTagged(
      signer: ThinkingSigner, signature: string, authEpoch: string, accountHash: string, toolId: Option<string>)
    requires signer.Open(signature, authEpoch, accountHash, toolId).Ok?
    ensures
      var pieces := Split(signature, '.');
      && |pieces| == 5
      && pieces[4] == Encode(signer.hmac(PREFIX + "." + pieces[3]))
      && Decode(pieces[3]).Some?
      && signer.fromJson(Decode(pieces[3]).value).Some?
      && signer.fromJson(Decode(pieces[3]).value).value.toolId == toolId
  {
    EncodeOfDecode(Split(signature, '.')[4]);
  }
}
