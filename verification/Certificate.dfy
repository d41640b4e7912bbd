/**
 Certificates: a bundle of the cert step with which a node that catches up checks a block
 someone gave it.
 */
module Certificates {
  import opened AgreementTypes
  import opened Bundles

  datatype Block = Block(round: Round, digest: nat)

  datatype CertificateError = WrongStep | WrongRound | WrongHash | BadBundle(error: BundleError)

  /** A cert quorum of authentic votes for this block. */
  ghost predicate CertificateFor(vf: Verifier, proto: ConsensusParams, c: UnauthenticatedBundle, b: Block) {
    && c.step == CERT && c.round == b.round && c.proposal.blockDigest == b.digest
    && exists vs, es :: Proves(vf, proto, c, vs, es)
  }

  /** No error exactly for a certificate of the block, under the parameters of its round. */
  method Authenticate(vf: Verifier, params: Option<ConsensusParams>, c: UnauthenticatedBundle, b: Block)
    returns (error: Option<CertificateError>)
    ensures error.None? <==> params.Some? && CertificateFor(vf, params.value, c, b)
    ensures error == Some(WrongStep) <==> c.step != CERT
    ensures error == Some(WrongRound) <==> c.step == CERT && c.round != b.round
    ensures error == Some(WrongHash) <==> c.step == CERT && c.round == b.round && c.proposal.blockDigest != b.digest
    ensures error == Some(BadBundle(UnknownVersion)) <==>
            params.None? && c.step == CERT && c.round == b.round && c.proposal.blockDigest == b.digest
  {
    if c.step != CERT {
      return Some(WrongStep);
    }
    if c.round != b.round {
      return Some(WrongRound);
    }
    if c.proposal.blockDigest != b.digest {
      return Some(WrongHash);
    }
    var r := Verify(vf, params, _ => false, c);
    return if r.Ok? then None else Some(BadBundle(r.error));
  }
}
