/** Signing data together with the time, and taking it apart again
    (src/decorators/signature/SignatureDecoratorUtils.ts). */
module SignedData {
  import opened Results
  import opened Base64
  import Encoding
  import Timestamps
  import C = Connections

  type Verkey = C.Verkey

  datatype SignatureDecorator = SignatureDecorator(signatureType: string, signature: string, signatureData: string, signer: Verkey)

  const SIGNATURE_TYPE := "https://didcomm.org/signature/1.0/ed25519Sha512_single"

  // What the wallet signs with a key, and how data is written as text and read again.
  type Sign = (Bytes, Verkey) -> Bytes
  datatype Codec<!D> = Codec(toBuffer: D -> Bytes, fromBuffer: Bytes -> D)

  datatype Error = InvalidSignature

  ghost predicate Lawful<D(!new)>(codec: Codec<D>, sign: Sign) {
    && (forall d :: AreBytes(codec.toBuffer(d)) && codec.fromBuffer(codec.toBuffer(d)) == d)
    && (forall bs, key :: AreBytes(sign(bs, key)))
  }

  ghost function SignData<D(!new)>(data: D, now: nat, codec: Codec<D>, sign: Sign, signerKey: Verkey): SignatureDecorator
    requires Lawful(codec, sign) && now < Timestamps.TWO_TO_THE_53
  {
    Timestamps.TimestampReads(now);
    var dataBuffer := Timestamps.BigEndian(now) + codec.toBuffer(data);
    SignatureDecorator(SIGNATURE_TYPE, ToBase64URL(sign(dataBuffer, signerKey)), ToBase64URL(dataBuffer), signerKey)
  }

  function UnpackAndVerify<D>(decorator: SignatureDecorator, codec: Codec<D>, sign: Sign): Result<D, Error> {
    var signedData, signature := FromBase64(decorator.signatureData), FromBase64(decorator.signature);
    if signature != sign(signedData, decorator.signer) then Err(InvalidSignature)
    else Ok(codec.fromBuffer(if |signedData| < 8 then [] else signedData[8..]))
  }

  /** What was signed comes back, with the time in front of it. */
  lemma SignedDataReadsBack<D(!new)>(data: D, now: nat, codec: Codec<D>, sign: Sign, signerKey: Verkey)
    requires Lawful(codec, sign) && now < Timestamps.TWO_TO_THE_53
    ensures var decorator := SignData(data, now, codec, sign, signerKey);
            && UnpackAndVerify(decorator, codec, sign) == Ok(data)
            && var signedData := FromBase64(decorator.signatureData);
               && |signedData| >= 8 && Encoding.FromBytes(signedData[..8]) == now && signedData[8..] == codec.toBuffer(data)
               && decorator.signatureType == "https://didcomm.org/signature/1.0/ed25519Sha512_single"
               && decorator.signer == signerKey && FromBase64(decorator.signature) == sign(signedData, signerKey)
  {
    Timestamps.TimestampReads(now);
    var dataBuffer := Timestamps.BigEndian(now) + codec.toBuffer(data);
    URLReadsBack(dataBuffer);
    URLReadsBack(sign(dataBuffer, signerKey));
    assert dataBuffer[8..] == codec.toBuffer(data) && dataBuffer[..8] == Timestamps.BigEndian(now);
  }

  /** A decorator whose text was exchanged after signing is refused, unless it decodes to the same bytes. */
  lemma ExchangedDataRefused<D(!new)>(decorator: SignatureDecorator, data: D, now: nat, codec: Codec<D>, sign: Sign, signerKey: Verkey)
    requires Lawful(codec, sign) && now < Timestamps.TWO_TO_THE_53
    requires forall a, b :: sign(a, signerKey) == sign(b, signerKey) ==> a == b
    requires var made := SignData(data, now, codec, sign, signerKey);
             decorator.signer == signerKey && decorator.signature == made.signature
    ensures UnpackAndVerify(decorator, codec, sign) == if FromBase64(decorator.signatureData) ==
              FromBase64(SignData(data, now, codec, sign, signerKey).signatureData) then Ok(data) else Err(InvalidSignature)
  {
    Timestamps.TimestampReads(now);
    var dataBuffer := Timestamps.BigEndian(now) + codec.toBuffer(data);
    URLReadsBack(dataBuffer);
    URLReadsBack(sign(dataBuffer, signerKey));
    assert dataBuffer[8..] == codec.toBuffer(data);
  }
}
