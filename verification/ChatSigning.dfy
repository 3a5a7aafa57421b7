/** Signing the reasoning of a chat answer, bound to the model and the tool calls of the answer. */
module ChatSigning {
  import opened Wrappers
  import opened Utf8
  import opened Base64Url

  const PREFIX := "csswitch.openai-chat-thinking.v1"
  const PURPOSE := "openai-chat-reasoning-round-trip"
  const MAX_REASONING_BYTES: nat := 1024 * 1024
  const MAX_SIGNATURE_BYTES: nat := 64 * 1024
  const MAX_TOOL_CALLS: nat := 128
  const MAX_TOKEN_BYTES: nat := 256

  /** Control and whitespace characters, as the character classes of the platform have them. */
  type Blank = char -> bool

  datatype ToolBinding = ToolBinding(id: string, name: string, argumentsDigest: string)

  datatype Payload = Payload(version: nat, purpose: string, model: string, digest: string, tools: seq<ToolBinding>)

  function ShortToken(blank: Blank, s: string): bool {
    s != "" && ByteLen(s) <= MAX_TOKEN_BYTES && forall i | 0 <= i < |s| :: !blank(s[i])
  }

  function SplitOnce(s: string, c: char): Option<(string, string)> {
    if s == "" then None
    else if s[0] == c then Some(("", s[1..]))
    else
      match SplitOnce(s[1..], c)
      case None => None
      case Some((a, b)) => Some(([s[0]] + a, b))
  }

  lemma {:induction false} SplitOnceAt(a: string, c: char, b: string)
    requires c !in a
    ensures SplitOnce(a + [c] + b, c) == Some((a, b))
  {
    var s := a + [c] + b;
    if a == "" {
      assert s[1..] == b;
    } else {
      SplitOnceAt(a[1..], c, b);
      assert s[1..] == a[1..] + [c] + b;
      assert [s[0]] + a[1..] == a;
    }
  }

  datatype ReasoningSigner = ReasoningSigner(
    blank: Blank, hmac: string -> seq<Byte>, digest: string -> string,
    toJson: Payload -> seq<Byte>, fromJson: seq<Byte> -> Option<Payload>)
  {
    /** Payloads read back from their JSON form, and neither they nor tags are ever empty. */
    ghost predicate Lawful() {
      && (forall p: Payload :: fromJson(toJson(p)) == Some(p) && toJson(p) != [])
      && (forall s: string :: hmac(s) != [])
    }

    predicate ContextIsValid(model: string, reasoning: string, tools: seq<ToolBinding>) {
      && model != "" && ByteLen(model) <= MAX_TOKEN_BYTES
      && reasoning != "" && ByteLen(reasoning) <= MAX_REASONING_BYTES
      && |tools| <= MAX_TOOL_CALLS
      && forall i | 0 <= i < |tools| :: ShortToken(blank, tools[i].id) && ShortToken(blank, tools[i].name)
    }

    function Compose(p: Payload): string {
      var encoded := Encode(toJson(p));
      (PREFIX + ".") + (encoded + "." + Encode(hmac(PREFIX + "." + encoded)))
    }

    function Seal(model: string, reasoning: string, tools: seq<ToolBinding>): Option<string> {
      if !ContextIsValid(model, reasoning, tools) then None
      else
        var signature := Compose(Payload(1, PURPOSE, model, digest(reasoning), tools));
        if ByteLen(signature) > MAX_SIGNATURE_BYTES then None else Some(signature)
    }

    predicate Verify(signature: string, model: string, reasoning: string, tools: seq<ToolBinding>) {
      var prefix := PREFIX + ".";
      && ContextIsValid(model, reasoning, tools)
      && ByteLen(signature) <= MAX_SIGNATURE_BYTES
      && |prefix| <= |signature| && signature[..|prefix|] == prefix
      && match SplitOnce(signature[|prefix|..], '.')
         case None => false
         case Some((encoded, tag)) =>
           && encoded != "" && tag != "" && '.' !in tag
           && Decode(tag) == Some(hmac(PREFIX + "." + encoded))
           && Decode(encoded).Some? && fromJson(Decode(encoded).value).Some?
           && var p := fromJson(Decode(encoded).value).value;
           && p.version == 1 && p.purpose == PURPOSE && p.model == model
           && p.digest == digest(reasoning) && p.tools == tools
    }
  }

  /** Sealed reasoning verifies in exactly the contexts it was sealed for, up to the digest of the reasoning. */
  lemma SealedVerifiesInContext(
    s: ReasoningSigner, model: string, reasoning: string, tools: seq<ToolBinding>,
    model': string, reasoning': string, tools': seq<ToolBinding>)
    requires s.Lawful() && s.Seal(model, reasoning, tools).Some?
    ensures
      s.Verify(s.Seal(model, reasoning, tools).value, model', reasoning', tools')
      <==> s.ContextIsValid(model', reasoning', tools')
           && model == model' && s.digest(reasoning) == s.digest(reasoning') && tools == tools'
  {
    var p := Payload(1, PURPOSE, model, s.digest(reasoning), tools);
    var encoded := Encode(s.toJson(p));
    var tag := Encode(s.hmac(PREFIX + "." + encoded));
    var prefix, signature := PREFIX + ".", s.Compose(p);
    assert signature[..|prefix|] == prefix && signature[|prefix|..] == encoded + "." + tag;
    EncodingHasNoDot(s.toJson(p));
    EncodingHasNoDot(s.hmac(PREFIX + "." + encoded));
    SplitOnceAt(encoded, '.', tag);
    DecodeOfEncode(s.toJson(p));
    DecodeOfEncode(s.hmac(PREFIX + "." + encoded));
    EncodingIsNotEmpty(s.toJson(p));
    EncodingIsNotEmpty(s.hmac(PREFIX + "." + encoded));
  }

  lemma EncodingIsNotEmpty(b: seq<Byte>)
    requires b != []
    ensures Encode(b) != ""
  {
    DecodeOfEncode(b);
  }
}
