/**
 The values that travel from responder to caller: artifacts, signed result packages and the
 envelopes that carry them. Signatures are ideal (section 5.1 of RFC 8032): a signature names
 the key and the exact bytes it was made for, and nothing else verifies.
 */
module Results {
  import opened Base64
  import opened Collections

  type Key = string

  /** Hex SHA-256 digests; never the empty string. */
  type Digest = s: string | s != "" witness "0"

  datatype StatusWord = Ok | Error | Unrecognised

  datatype Signature = Signature(key: Key, signedBytes: string)

  /** One entry of a package's artifact list, as declared by whoever built the package. */
  datatype Descriptor = Descriptor(
    artifactId: Option<Id>,
    name: Option<string>,
    mediaType: Option<string>,
    byteSize: Option<int>,
    sha256: Option<string>)

  /** `output` is what the executor returned, `None` for its absence or `null`. */
  datatype ResultPackage = ResultPackage(
    requestId: Id,
    resultVersion: Option<string>,
    responderId: Option<Id>,
    hotlineId: Option<Id>,
    displayCode: Option<string>,
    status: StatusWord,
    output: Option<string>,
    artifacts: seq<Descriptor>,
    errorCode: Option<string>,
    schemaValid: Option<bool>,
    signature: Option<Signature>,
    signatureValid: Option<bool>)

  datatype Attachment = Attachment(
    name: Option<string>,
    mediaType: Option<string>,
    contentBase64: Option<string>,
    byteSize: Option<int>)

  /** What rides the envelope when the bytes went through the platform's artifact channel. */
  datatype ChannelDescriptor = ChannelDescriptor(artifactId: Id, name: Option<string>, mediaType: Option<string>)

  datatype BodyText = Blank | PackageJson(package: ResultPackage) | OtherJson | Unparsable

  datatype Payload = Payload(
    resultPackage: Option<ResultPackage>,
    attachments: Option<seq<Attachment>>,
    descriptors: Option<seq<ChannelDescriptor>>,
    asPackage: Option<ResultPackage>)

  datatype ResultEnvelope = ResultEnvelope(
    messageId: Id,
    to: Id,
    requestId: Option<Id>,
    bodyText: BodyText,
    attachments: Option<seq<Attachment>>,
    descriptors: Option<seq<ChannelDescriptor>>,
    resultPackage: Option<ResultPackage>,
    payload: Option<Payload>)

  function ResultMessageId(env: ResultEnvelope): Id {
    env.messageId
  }

  /** Foreign calls: the digest, and the canonical bytes a package is signed over. */
  datatype Crypto = Crypto(digest: seq<Byte> -> Digest, signingBytes: ResultPackage -> string)

  /** All that is assumed of canonicalisation: the signature itself is not part of what is signed. */
  ghost predicate IgnoresSignature(crypto: Crypto) {
    forall p: ResultPackage, s: Option<Signature> :: crypto.signingBytes(p.(signature := s)) == crypto.signingBytes(p)
  }

  /** A text field that is present and not empty, the only kind the code takes as set. */
  predicate Given(text: Option<string>) {
    text.Some? && text.value != ""
  }

  function Sign(crypto: Crypto, key: Key, p: ResultPackage): ResultPackage {
    p.(signature := Some(Signature(key, crypto.signingBytes(p))))
  }

  predicate SignatureVerifies(crypto: Crypto, key: Key, p: ResultPackage) {
    p.signature == Some(Signature(key, crypto.signingBytes(p)))
  }

  lemma SignVerifies(crypto: Crypto, key: Key, other: Key, p: ResultPackage)
    requires IgnoresSignature(crypto)
    ensures SignatureVerifies(crypto, other, Sign(crypto, key, p)) <==> key == other
  {
  }
}
