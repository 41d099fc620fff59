/**
 The client side of the platform's artifact channel. The platform is nondeterministic: what it
 answers to the i-th upload or download is a parameter, and bytes may arrive altered.
 */
module ArtifactChannel {
  import opened Base64
  import opened Collections
  import opened ResponderTasks
  import opened Results

  datatype UploadAnswer = UploadRefused | Committed(artifactId: Id, mediaType: Option<string>)

  datatype DownloadAnswer = DownloadRefused | Served(checksum: Option<string>, bytes: seq<Byte>)

  // -------------------------------------------------------------------------- uploads

  function Uploaded(artifacts: seq<Artifact>, answers: nat -> UploadAnswer): seq<ChannelDescriptor> {
    if artifacts == [] then [] else
      var i := |artifacts| - 1;
      Uploaded(artifacts[..i], answers) +
      (if answers(i).Committed? then [ChannelDescriptor(answers(i).artifactId, Some(artifacts[i].name), answers(i).mediaType)] else [])
  }

  function NotUploaded(artifacts: seq<Artifact>, answers: nat -> UploadAnswer): seq<string> {
    if artifacts == [] then [] else
      var i := |artifacts| - 1;
      NotUploaded(artifacts[..i], answers) + (if answers(i).Committed? then [] else [artifacts[i].name])
  }

  /** Every artifact is accounted for: committed or reported, never dropped. */
  method UploadExecutionArtifacts(artifacts: seq<Artifact>, answers: nat -> UploadAnswer)
    returns (descriptors: seq<ChannelDescriptor>, failures: seq<string>)
    ensures descriptors == Uploaded(artifacts, answers) && failures == NotUploaded(artifacts, answers)
    ensures |descriptors| + |failures| == |artifacts|
  {
    descriptors, failures := [], [];
    var i := 0;
    while i < |artifacts|
      invariant 0 <= i <= |artifacts|
      invariant descriptors == Uploaded(artifacts[..i], answers)
      invariant failures == NotUploaded(artifacts[..i], answers)
      invariant |descriptors| + |failures| == i
    {
      assert artifacts[..i + 1][..i] == artifacts[..i];
      var answer := answers(i);
      if answer.Committed? {
        descriptors := descriptors + [ChannelDescriptor(answer.artifactId, Some(artifacts[i].name), answer.mediaType)];
      } else {
        failures := failures + [artifacts[i].name];
      }
      i := i + 1;
    }
    assert artifacts[..|artifacts|] == artifacts;
  }

  /** With no failure the i-th descriptor stands for the i-th artifact. */
  lemma {:induction false} CompleteUpload(artifacts: seq<Artifact>, answers: nat -> UploadAnswer)
    ensures |Uploaded(artifacts, answers)| + |NotUploaded(artifacts, answers)| == |artifacts|
    ensures NotUploaded(artifacts, answers) == [] <==> forall i: nat :: i < |artifacts| ==> answers(i).Committed?
    ensures NotUploaded(artifacts, answers) == [] ==> forall i: nat :: i < |artifacts| ==>
              && answers(i).Committed?
              && Uploaded(artifacts, answers)[i] == ChannelDescriptor(answers(i).artifactId, Some(artifacts[i].name), answers(i).mediaType)
  {
    if artifacts != [] {
      CompleteUpload(artifacts[..|artifacts| - 1], answers);
    }
  }

  /** Descriptors ride the envelope only when a channel exists and every upload was committed; otherwise the bytes stay inline. */
  function DescriptorsToSend(artifacts: seq<Artifact>, channel: bool, answers: nat -> UploadAnswer): Option<seq<ChannelDescriptor>> {
    if channel && artifacts != [] && NotUploaded(artifacts, answers) == [] then Some(Uploaded(artifacts, answers)) else None
  }

  // ------------------------------------------------------------------------ downloads

  /** The checksum gate: bytes are handed back only when they hash to the checksum the platform holds. */
  predicate PassesGate(crypto: Crypto, answer: DownloadAnswer) {
    answer.Served? && Given(answer.checksum) && answer.checksum.value == crypto.digest(answer.bytes)
  }

  function FromDownload(d: ChannelDescriptor, bytes: seq<Byte>): Attachment {
    Attachment(Some(if Given(d.name) then d.name.value else d.artifactId), d.mediaType, Some(Encode(bytes)), Some(|bytes|))
  }

  function Resolved(crypto: Crypto, descriptors: seq<ChannelDescriptor>, answers: nat -> DownloadAnswer): seq<Attachment> {
    if descriptors == [] then [] else
      var i := |descriptors| - 1;
      Resolved(crypto, descriptors[..i], answers) +
      (if PassesGate(crypto, answers(i)) then [FromDownload(descriptors[i], answers(i).bytes)] else [])
  }

  method ResolveArtifactDescriptors(crypto: Crypto, descriptors: seq<ChannelDescriptor>, answers: nat -> DownloadAnswer)
    returns (attachments: seq<Attachment>, failures: seq<Id>)
    ensures attachments == Resolved(crypto, descriptors, answers)
    ensures |attachments| + |failures| == |descriptors|
    ensures failures == [] <==> forall i: nat :: i < |descriptors| ==> PassesGate(crypto, answers(i))
  {
    attachments, failures := [], [];
    var i := 0;
    while i < |descriptors|
      invariant 0 <= i <= |descriptors|
      invariant attachments == Resolved(crypto, descriptors[..i], answers)
      invariant |attachments| + |failures| == i
      invariant failures == [] <==> forall k: nat :: k < i ==> PassesGate(crypto, answers(k))
    {
      assert descriptors[..i + 1][..i] == descriptors[..i];
      var answer := answers(i);
      if PassesGate(crypto, answer) {
        attachments := attachments + [FromDownload(descriptors[i], answer.bytes)];
      } else {
        failures := failures + [descriptors[i].artifactId];
      }
      i := i + 1;
    }
    assert descriptors[..|descriptors|] == descriptors;
  }

  /** Whatever the platform serves, every resolved attachment names one of the descriptors and carries gated bytes. */
  lemma {:induction false} ResolvedIsGated(crypto: Crypto, descriptors: seq<ChannelDescriptor>, answers: nat -> DownloadAnswer, a: Attachment)
    returns (i: nat)
    requires a in Resolved(crypto, descriptors, answers)
    ensures i < |descriptors| && PassesGate(crypto, answers(i)) && a == FromDownload(descriptors[i], answers(i).bytes)
    ensures answers(i).Served? && answers(i).checksum == Some(crypto.digest(answers(i).bytes))
    ensures a.contentBase64 == Some(Encode(answers(i).bytes)) && a.byteSize == Some(|answers(i).bytes|) && a.mediaType == descriptors[i].mediaType
    ensures a.name == Some(if descriptors[i].name.Some? && descriptors[i].name.value != "" then descriptors[i].name.value else descriptors[i].artifactId)
  {
    i := |descriptors| - 1;
    if a in Resolved(crypto, descriptors[..i], answers) {
      i := ResolvedIsGated(crypto, descriptors[..i], answers, a);
    }
  }

  /** When every download passes the gate, the attachments are the descriptors' bytes in order. */
  lemma {:induction false} ResolvedAll(crypto: Crypto, descriptors: seq<ChannelDescriptor>, answers: nat -> DownloadAnswer)
    requires forall i: nat :: i < |descriptors| ==> PassesGate(crypto, answers(i))
    ensures |Resolved(crypto, descriptors, answers)| == |descriptors|
    ensures forall i: nat :: i < |descriptors| ==>
              answers(i).Served? && Resolved(crypto, descriptors, answers)[i] == FromDownload(descriptors[i], answers(i).bytes)
  {
    if descriptors != [] {
      ResolvedAll(crypto, descriptors[..|descriptors| - 1], answers);
    }
  }
}
