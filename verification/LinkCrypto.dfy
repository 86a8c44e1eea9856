/** Symbolic key exchange and encoder (src/LoLaCrypto). A public key is the number of its key pair, a shared secret is
    the unordered pair of the two key pairs it was made from, and the IV is what it was hashed from. A packet
    encrypted under one key and IV is readable under the same key and IV only. */
module LinkCrypto {
  import opened Common

  type Secret = set<nat>

  datatype Iv = Iv(session: nat, id1: nat, id2: nat)

  /** The contents of the encoder's key and IV holders; None stands for the zeros that Clear writes. */
  datatype Cipher = Cipher(key: Option<Secret>, iv: Option<Iv>)

  datatype EncoderStage = AllClear | AllReady | FullPower

  datatype Encoder = Encoder(stage: EncoderStage, cipher: Cipher) {
    function Clear(): Encoder {
      Encoder(AllClear, Cipher(None, None))
    }

    function SetIvData(session: nat, id1: nat, id2: nat): Encoder {
      this.(cipher := cipher.(iv := Some(Iv(session, id1, id2))))
    }

    /** The key exchanger's secret is long enough, so the key is always accepted. */
    function SetSecretKey(secret: Secret): Encoder {
      Encoder(AllReady, cipher.(key := Some(secret)))
    }

    function SetEnabled(): (Encoder, bool) {
      if stage.AllClear? then (this, false) else (this.(stage := FullPower), true)
    }

    /** What packets are encrypted under: nothing before full power. */
    function OnAir(): Option<Cipher> {
      if stage.FullPower? then Some(cipher) else None
    }
  }

  datatype PairingStage = StageClear | StageLocalKey | StagePartnerKey | StageSharedKey

  datatype KeyExchanger = KeyExchanger(stage: PairingStage, local: nat, partner: nat, shared: Secret) {
    function ClearPartner(): KeyExchanger {
      if stage.StagePartnerKey? || stage.StageSharedKey? then this.(stage := StageLocalKey) else this
    }

    /** A new pair forgets the partner, at whatever stage of an exchange it comes. */
    function GenerateNewKeyPair(pair: nat, ok: bool): KeyExchanger {
      if ok then this.(local := pair, stage := StageLocalKey) else this
    }

    function SetPartnerPublicKey(pair: nat): (KeyExchanger, bool) {
      if stage.StageLocalKey? then (this.(partner := pair, stage := StagePartnerKey), true) else (this, false)
    }

    function GenerateSharedKey(ok: bool): (KeyExchanger, bool) {
      match stage
      case StagePartnerKey => if ok then (this.(shared := {local, partner}, stage := StageSharedKey), true) else (this, false)
      case StageSharedKey => (this, true)
      case _ => (this, false)
    }
  }
}
