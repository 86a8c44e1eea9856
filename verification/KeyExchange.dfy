/** The key exchanger as an object with its key buffers (src/LoLaCrypto/LoLaCryptoKeyExchange.h). The curve library is a
    parameter: what its functions return, and whether a call succeeds. */
module KeyExchange {
  import opened Common
  import opened Checksum
  import opened LinkCrypto

  const KEY_CURVE_SIZE: nat := 20
  const COMPRESSED_SIZE: nat := 21

  datatype Curve = Curve(publicOf: seq<byte> -> seq<byte>, compress: seq<byte> -> seq<byte>, decompress: seq<byte> -> seq<byte>,
                         shared: (seq<byte>, seq<byte>) -> seq<byte>)
  {
    /** Sizes, compression that loses nothing of a public key, and the law of the exchange. */
    ghost predicate Sound() {
      && (forall p :: |compress(p)| == COMPRESSED_SIZE)
      && (forall p :: decompress(compress(publicOf(p))) == publicOf(p))
      && (forall a, b :: |shared(a, b)| == KEY_CURVE_SIZE)
      && (forall a, b :: shared(publicOf(a), b) == shared(publicOf(b), a))
    }

    /** What an end with the first private key computes from the compressed public key of the second. */
    function Secret(own: seq<byte>, partner: seq<byte>): seq<byte> {
      shared(decompress(compress(publicOf(partner))), own)
    }
  }

  /** The secret depends on the two key pairs and not on which end computes it. */
  lemma SecretIsOfThePair(curve: Curve, a: seq<byte>, b: seq<byte>, c: seq<byte>, d: seq<byte>)
    requires curve.Sound() && {a, b} == {c, d}
    ensures curve.Secret(a, b) == curve.Secret(c, d)
  {
  }

  method Copy(source: array<byte>, target: array<byte>)
    requires source != target && source.Length == target.Length
    modifies target
    ensures target[..] == source[..]
  {
    for i := 0 to target.Length
      invariant target[..i] == source[..i]
    {
      target[i] := source[i];
    }
  }

  class LoLaCryptoKeyExchanger {
    const curve: Curve
    const partnerPublicKeyCompressed: array<byte>
    const localPublicKeyCompressed: array<byte>
    const privateKey: array<byte>
    const sharedKey: array<byte>
    var pairingStage: PairingStage

    ghost predicate Valid()
      reads this, partnerPublicKeyCompressed, localPublicKeyCompressed, privateKey, sharedKey
    {
      && curve.Sound()
      && partnerPublicKeyCompressed.Length == localPublicKeyCompressed.Length == privateKey.Length == COMPRESSED_SIZE
      && sharedKey.Length == KEY_CURVE_SIZE
      && partnerPublicKeyCompressed !in {localPublicKeyCompressed, privateKey} && localPublicKeyCompressed != privateKey
      && (pairingStage != StageClear ==> localPublicKeyCompressed[..] == curve.compress(curve.publicOf(privateKey[..])))
      && (pairingStage == StageSharedKey ==>
            sharedKey[..] == curve.shared(curve.decompress(partnerPublicKeyCompressed[..]), privateKey[..]))
    }

    constructor (curve: Curve)
      requires curve.Sound()
      ensures Valid() && pairingStage == StageClear && this.curve == curve
      ensures fresh(partnerPublicKeyCompressed) && fresh(localPublicKeyCompressed) && fresh(privateKey) && fresh(sharedKey)
      ensures sharedKey.Length == 20 && partnerPublicKeyCompressed.Length == localPublicKeyCompressed.Length == privateKey.Length == 21
    {
      this.curve := curve;
      partnerPublicKeyCompressed := new byte[COMPRESSED_SIZE];
      localPublicKeyCompressed := new byte[COMPRESSED_SIZE];
      privateKey := new byte[COMPRESSED_SIZE];
      sharedKey := new byte[KEY_CURVE_SIZE];
      pairingStage := StageClear;
    }

    method ClearPartner()
      requires Valid()
      modifies this
      ensures Valid()
      ensures pairingStage == if old(pairingStage) == StagePartnerKey || old(pairingStage) == StageSharedKey then StageLocalKey else old(pairingStage)
    {
      if pairingStage == StagePartnerKey || pairingStage == StageSharedKey {
        pairingStage := StageLocalKey;
      }
    }

    method GetPublicKeyCompressed(keyTarget: array<byte>) returns (ok: bool)
      requires Valid() && keyTarget.Length == COMPRESSED_SIZE && keyTarget !in {partnerPublicKeyCompressed, localPublicKeyCompressed, privateKey}
      modifies keyTarget
      ensures ok <==> pairingStage != StageClear
      ensures keyTarget[..] == if ok then curve.compress(curve.publicOf(privateKey[..])) else old(keyTarget[..])
    {
      if pairingStage == StageClear {
        return false;
      }
      Copy(localPublicKeyCompressed, keyTarget);
      return true;
    }

    method SetPartnerPublicKey(keySource: array<byte>) returns (ok: bool)
      requires Valid() && keySource.Length == COMPRESSED_SIZE && keySource != partnerPublicKeyCompressed
      modifies this, partnerPublicKeyCompressed
      ensures Valid()
      ensures ok <==> old(pairingStage) == StageLocalKey
      ensures pairingStage == if ok then StagePartnerKey else old(pairingStage)
      ensures partnerPublicKeyCompressed[..] == if ok then old(keySource[..]) else old(partnerPublicKeyCompressed[..])
    {
      if pairingStage != StageLocalKey {
        return false;
      }
      Copy(keySource, partnerPublicKeyCompressed);
      pairingStage := StagePartnerKey;
      return true;
    }

    /** generated: what uECC_make_key drew, nothing if it failed. Whatever exchange was going on is forgotten. */
    method GenerateNewKeyPair(generated: Option<seq<byte>>) returns (ok: bool)
      requires Valid() && (generated.Some? ==> |generated.value| == COMPRESSED_SIZE)
      modifies this, privateKey, localPublicKeyCompressed
      ensures Valid() && ok == generated.Some?
      ensures pairingStage == if ok then StageLocalKey else old(pairingStage)
      ensures privateKey[..] == if ok then generated.value else old(privateKey[..])
    {
      if generated.None? {
        return false;
      }
      Fill(privateKey, generated.value);
      Fill(localPublicKeyCompressed, curve.compress(curve.publicOf(generated.value)));
      pairingStage := StageLocalKey;
      return true;
    }

    method Fill(target: array<byte>, bytes: seq<byte>)
      requires |bytes| == target.Length
      modifies target
      ensures target[..] == bytes
    {
      for i := 0 to target.Length
        invariant target[..i] == bytes[..i]
      {
        target[i] := bytes[i];
      }
    }

    /** With the partner's public key in place both ends come to the secret of the two key pairs. */
    method GenerateSharedKey(succeeds: bool) returns (ok: bool)
      requires Valid() && sharedKey !in {partnerPublicKeyCompressed, localPublicKeyCompressed, privateKey}
      modifies this, sharedKey
      ensures Valid()
      ensures ok <==> old(pairingStage) == StageSharedKey || (old(pairingStage) == StagePartnerKey && succeeds)
      ensures pairingStage == if ok then StageSharedKey else old(pairingStage)
      ensures forall partner: seq<byte> :: ok && partnerPublicKeyCompressed[..] == curve.compress(curve.publicOf(partner)) ==>
                sharedKey[..] == curve.Secret(privateKey[..], partner)
    {
      match pairingStage {
        case StagePartnerKey =>
        case StageSharedKey => return true;
        case _ => return false;
      }
      if succeeds {
        Fill(sharedKey, curve.shared(curve.decompress(partnerPublicKeyCompressed[..]), privateKey[..]));
        pairingStage := StageSharedKey;
      }
      return pairingStage == StageSharedKey;
    }
  }

  /** The whole exchange between two ends that have key pairs: both hold the same shared key, the one of their pairs. */
  method Exchange(host: LoLaCryptoKeyExchanger, remote: LoLaCryptoKeyExchanger)
    requires host.Valid() && remote.Valid() && host.curve == remote.curve
    requires host.pairingStage == remote.pairingStage == StageLocalKey
    requires Separate(host, remote)
    modifies host, remote, host.partnerPublicKeyCompressed, remote.partnerPublicKeyCompressed, host.sharedKey, remote.sharedKey
    ensures host.pairingStage == remote.pairingStage == StageSharedKey
    ensures host.sharedKey[..] == remote.sharedKey[..] == old(host.curve.Secret(host.privateKey[..], remote.privateKey[..]))
  {
    var air := new byte[COMPRESSED_SIZE];
    var ok := host.GetPublicKeyCompressed(air);
    ok := remote.SetPartnerPublicKey(air);
    ok := remote.GetPublicKeyCompressed(air);
    ok := host.SetPartnerPublicKey(air);
    ok := host.GenerateSharedKey(true);
    ok := remote.GenerateSharedKey(true);
    SecretIsOfThePair(host.curve, host.privateKey[..], remote.privateKey[..], remote.privateKey[..], host.privateKey[..]);
  }

  /** No buffer of one end is a buffer of the other, and the shared keys are buffers of their own. */
  ghost predicate Separate(host: LoLaCryptoKeyExchanger, remote: LoLaCryptoKeyExchanger)
  {
    var ours := {host.partnerPublicKeyCompressed, host.localPublicKeyCompressed, host.privateKey};
    var theirs := {remote.partnerPublicKeyCompressed, remote.localPublicKeyCompressed, remote.privateKey};
    && host != remote && ours !! theirs && host.sharedKey != remote.sharedKey
    && {host.sharedKey, remote.sharedKey} !! ours + theirs
  }
}
