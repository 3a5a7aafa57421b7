/** What a thinking signature is made for, and what opens as one. */
module SealTerms {
  import opened Wrappers
  import opened Utf8
  import opened Base64Url
  import opened Splitting
  import opened ThinkingSignature

  const SIZE: nat := 8 * 1024 * 1024

  /** Thirty-two hexadecimal digits in lower case. */
  predicate Digest32(s: string) {
    |s| == 32 && forall i | 0 <= i < |s| :: s[i] in "0123456789abcdef"
  }

  /** An epoch and an account as digests, an item, and a call if there is one. */
  predicate Proper(authEpoch: string, accountHash: string, itemId: string, toolId: Option<string>) {
    && Digest32(authEpoch) && Digest32(accountHash)
    && 0 < ByteLen(itemId) <= 512 && (toolId.Some? ==> 0 < ByteLen(toolId.value) <= 512)
  }

  /** Three fixed words, the encoded payload, and its encoded tag. */
  function Spelled(signer: ThinkingSigner, bytes: seq<Byte>): string {
    var signed := "csswitch.codex-thinking.v1" + "." + Encode(bytes);
    signed + "." + Encode(signer.hmac(signed))
  }

  predicate MadeFor(
      signer: ThinkingSigner, p: Payload, authEpoch: string, accountHash: string, itemId: string, toolId: Option<string>,
      content: string)
  {
    && p.version == 1 && p.purpose == "codex-reasoning"
    && p.authEpoch == authEpoch && p.accountHash == accountHash && p.itemId == itemId && p.toolId == toolId
    && p.digest == signer.digest(content) && p.content == content
  }

  lemma HexDigits(s: string)
    ensures IsLowerHex(s) <==> forall i | 0 <= i < |s| :: s[i] in "0123456789abcdef"
  {
    var hex := "0123456789abcdef";
    forall c: char ensures '0' <= c <= '9' || 'a' <= c <= 'f' <==> c in hex {
      assert hex[0] == '0' && hex[1] == '1' && hex[2] == '2' && hex[3] == '3' && hex[4] == '4' && hex[5] == '5'
             && hex[6] == '6' && hex[7] == '7' && hex[8] == '8' && hex[9] == '9' && hex[10] == 'a' && hex[11] == 'b'
             && hex[12] == 'c' && hex[13] == 'd' && hex[14] == 'e' && hex[15] == 'f';
    }
  }

  lemma {:induction false} HexWidth(s: string)
    requires IsLowerHex(s)
    ensures ByteLen(s) == |s|
  {
    if s != "" {
      assert IsLowerHex(s[1..]) by {
        forall i | 0 <= i < |s[1..]| ensures '0' <= s[1..][i] <= '9' || 'a' <= s[1..][i] <= 'f' {
          assert s[1..][i] == s[i + 1];
        }
      }
      HexWidth(s[1..]);
    }
  }

  lemma DigestIs(s: string)
    ensures Digest32(s) <==> ByteLen(s) == 32 && IsLowerHex(s)
  {
    HexDigits(s);
    if IsLowerHex(s) {
      HexWidth(s);
    }
  }

  lemma Something(s: string)
    ensures s != "" <==> ByteLen(s) > 0
  {
  }

  lemma IdentityIsProper(authEpoch: string, accountHash: string, itemId: string, toolId: Option<string>)
    ensures ValidateIdentity(authEpoch, accountHash, itemId, toolId).Ok? <==> Proper(authEpoch, accountHash, itemId, toolId)
  {
    DigestIs(authEpoch);
    DigestIs(accountHash);
    Something(itemId);
    if toolId.Some? {
      Something(toolId.value);
    }
  }

  /** A signature is made exactly for a proper identity and a content that fit, and says what it was made for. */
  lemma SealedIffProper(
      signer: ThinkingSigner, authEpoch: string, accountHash: string, itemId: string, toolId: Option<string>, content: string)
    ensures
      var seal, p := signer.Seal(authEpoch, accountHash, itemId, toolId, content),
                     Payload(1, "codex-reasoning", authEpoch, accountHash, itemId, toolId, signer.digest(content), content);
      && (seal.Ok? <==> && Proper(authEpoch, accountHash, itemId, toolId) && ByteLen(content) <= SIZE
                        && ByteLen(Spelled(signer, signer.toJson(p))) <= SIZE)
      && (seal.Ok? ==> seal.value == Spelled(signer, signer.toJson(p)))
  {
    IdentityIsProper(authEpoch, accountHash, itemId, toolId);
    var p := Payload(1, PURPOSE, authEpoch, accountHash, itemId, toolId, signer.digest(content), content);
    ComposedIsSpelled(signer, p);
  }

  lemma PrefixIs()
    ensures PREFIX == "csswitch.codex-thinking.v1"
  {
  }

  lemma ComposedIsSpelled(signer: ThinkingSigner, p: Payload)
    ensures signer.Compose(p) == Spelled(signer, signer.toJson(p))
  {
    PrefixIs();
  }

  function Joined(pieces: seq<string>, sep: char): string {
    if pieces == [] then "" else if |pieces| == 1 then pieces[0] else pieces[0] + [sep] + Joined(pieces[1..], sep)
  }

  lemma JoinedFirst(a: string, rest: seq<string>, sep: char)
    requires rest != []
    ensures Joined([a] + rest, sep) == a + [sep] + Joined(rest, sep)
  {
    assert ([a] + rest)[1..] == rest;
  }

  lemma JoinedGrows(x: char, a: string, rest: seq<string>, sep: char)
    ensures Joined([[x] + a] + rest, sep) == [x] + Joined([a] + rest, sep)
  {
    if rest == [] {
      assert [[x] + a] + rest == [[x] + a] && [a] + rest == [a];
    } else {
      JoinedFirst([x] + a, rest, sep);
      JoinedFirst(a, rest, sep);
      assert ([x] + a) + [sep] + Joined(rest, sep) == [x] + (a + [sep] + Joined(rest, sep));
    }
  }

  lemma {:induction false} JoinOfSplit(s: string, sep: char)
    ensures Joined(Split(s, sep), sep) == s
  {
    if s == "" {
      assert Joined([""], sep) == "";
    } else {
      JoinOfSplit(s[1..], sep);
      var rest := Split(s[1..], sep);
      assert [s[0]] + s[1..] == s;
      if s[0] == sep {
        JoinedFirst("", rest, sep);
        assert "" + [sep] + s[1..] == [s[0]] + s[1..];
      } else {
        JoinedGrows(s[0], rest[0], rest[1..], sep);
        assert [rest[0]] + rest[1..] == rest;
      }
    }
  }

  lemma FiveJoined(a: string, b: string, c: string, d: string, e: string)
    ensures Joined([a, b, c, d, e], '.') == a + "." + (b + "." + (c + "." + (d + "." + e)))
  {
    JoinedFirst(d, [e], '.');
    JoinedFirst(c, [d, e], '.');
    JoinedFirst(b, [c, d, e], '.');
    JoinedFirst(a, [b, c, d, e], '.');
    assert [d] + [e] == [d, e] && [c] + [d, e] == [c, d, e];
    assert [b] + [c, d, e] == [b, c, d, e] && [a] + [b, c, d, e] == [a, b, c, d, e];
  }

  /** Five pieces, the first three of them the fixed ones. */
  lemma PiecesSpell(signature: string, pieces: seq<string>)
    requires pieces == Split(signature, '.') && |pieces| == 5 && pieces[..3] == [PRODUCT, NAME, VERSION]
    ensures signature == PREFIX + "." + pieces[3] + "." + pieces[4]
  {
    JoinOfSplit(signature, '.');
    assert pieces[0] == pieces[..3][0] && pieces[1] == pieces[..3][1] && pieces[2] == pieces[..3][2];
    assert pieces == [PRODUCT, NAME, VERSION, pieces[3], pieces[4]];
    FiveJoined(PRODUCT, NAME, VERSION, pieces[3], pieces[4]);
    assert PREFIX + "." + pieces[3] + "." + pieces[4]
        == PRODUCT + "." + (NAME + "." + (VERSION + "." + (pieces[3] + "." + pieces[4])));
  }

  lemma SpelledPieces(signer: ThinkingSigner, bytes: seq<Byte>)
    ensures
      var encoded := Encode(bytes);
      Split(Spelled(signer, bytes), '.') == [PRODUCT, NAME, VERSION, encoded, Encode(signer.hmac(PREFIX + "." + encoded))]
    ensures Decode(Encode(bytes)) == Some(bytes)
    ensures var tag := signer.hmac(PREFIX + "." + Encode(bytes)); Decode(Encode(tag)) == Some(tag)
  {
    var encoded := Encode(bytes);
    var tag := signer.hmac(PREFIX + "." + encoded);
    EncodingHasNoDot(bytes);
    EncodingHasNoDot(tag);
    PrefixIs();
    JoinedPieces(encoded, Encode(tag));
    DecodeOfEncode(bytes);
    DecodeOfEncode(tag);
  }

  /** The bytes a signature spells, if it is one of this signer's. */
  lemma BytesSpelled(
      signer: ThinkingSigner, signature: string, authEpoch: string, accountHash: string, toolId: Option<string>)
    returns (bytes: seq<Byte>)
    requires signer.Open(signature, authEpoch, accountHash, toolId).Ok?
    ensures signature == Spelled(signer, bytes)
  {
    var pieces := Split(signature, '.');
    PiecesSpell(signature, pieces);
    EncodeOfDecode(pieces[3]);
    EncodeOfDecode(pieces[4]);
    bytes := Decode(pieces[3]).value;
    PrefixIs();
  }

  /** What this signer spelled opens exactly if its payload was made for this, properly, and is not too long. */
  lemma SpelledOpens(
      signer: ThinkingSigner, bytes: seq<Byte>, authEpoch: string, accountHash: string, toolId: Option<string>,
      found: VerifiedReasoning)
    ensures
      signer.Open(Spelled(signer, bytes), authEpoch, accountHash, toolId) == Ok(found)
      <==> && ByteLen(Spelled(signer, bytes)) <= SIZE && signer.fromJson(bytes).Some?
           && MadeFor(signer, signer.fromJson(bytes).value, authEpoch, accountHash, found.itemId, toolId, found.content)
           && Proper(authEpoch, accountHash, found.itemId, toolId)
  {
    SpelledPieces(signer, bytes);
    IdentityIsProper(authEpoch, accountHash, found.itemId, toolId);
    var pieces := Split(Spelled(signer, bytes), '.');
    assert pieces[..3] == [PRODUCT, NAME, VERSION];
    if signer.fromJson(bytes).Some? {
      var p := signer.fromJson(bytes).value;
      IdentityIsProper(authEpoch, accountHash, p.itemId, toolId);
    }
  }

  /**
    A signature opens exactly if this signer spelled it, for this epoch, account and call, with an item and content that
    fit; and it yields these.
   */
  lemma OpensIffSpelled(
      signer: ThinkingSigner, signature: string, authEpoch: string, accountHash: string, toolId: Option<string>,
      found: VerifiedReasoning)
    ensures
      signer.Open(signature, authEpoch, accountHash, toolId) == Ok(found)
      <==> exists bytes ::
             && signature == Spelled(signer, bytes) && ByteLen(signature) <= SIZE && signer.fromJson(bytes).Some?
             && MadeFor(signer, signer.fromJson(bytes).value, authEpoch, accountHash, found.itemId, toolId, found.content)
             && Proper(authEpoch, accountHash, found.itemId, toolId)
  {
    if signer.Open(signature, authEpoch, accountHash, toolId) == Ok(found) {
      var bytes := BytesSpelled(signer, signature, authEpoch, accountHash, toolId);
      SpelledOpens(signer, bytes, authEpoch, accountHash, toolId, found);
    }
    forall bytes | signature == Spelled(signer, bytes)
      ensures signer.Open(signature, authEpoch, accountHash, toolId) == Ok(found)
              <==> && ByteLen(signature) <= SIZE && signer.fromJson(bytes).Some?
                   && MadeFor(signer, signer.fromJson(bytes).value, authEpoch, accountHash, found.itemId, toolId, found.content)
                   && Proper(authEpoch, accountHash, found.itemId, toolId)
    {
      SpelledOpens(signer, bytes, authEpoch, accountHash, toolId, found);
    }
  }
}
