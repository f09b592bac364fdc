/** The X3DH-style first message (ansible_rust_core/src/messenger.rs).

    Primitives are parameters: `Crypto` bundles them and `Laws` states what is assumed of them.
    Randomness (secrets, ephemeral key, nonce) is passed in. `...Spec` functions specify the calls on
    device values; `MessengerDevice` is the object the source mutates. */
module Messenger {
  import opened Wrappers
  import Cursor

  type Bytes = seq<int>
  type U32 = n: int | 0 <= n < 0x1_0000_0000

  const PROTOCOL_VERSION := "signal-mvp-v1"
  const CIPHERTEXT_TYPE := "pre_key_signal_message"
  const ROOT_KEY_INFO := "ansible messenger signal-mvp-v1 root key"
  const AEAD_KEY_INFO := "ansible messenger signal-mvp-v1 aead key"
  const SESSION_STATE_INFO := "ansible messenger signal-mvp-v1 session state"

  datatype PreKey = PreKey(id: U32, publicKey: string, privateKey: string)

  datatype Device = Device(
    did: string, deviceId: string, identityPublic: string, identityPrivate: string,
    signedId: U32, signedPublic: string, signedPrivate: string, signedSignature: string,
    session: Option<SessionState>, oneTime: seq<PreKey>, nextId: U32)

  datatype Bundle = Bundle(did: string, deviceId: string, identityKey: string, signedId: U32,
                           signedKey: string, signature: string, oneTimeId: U32, oneTimeKey: string)

  datatype Envelope = Envelope(
    version: string, kind: string, senderDid: string, senderDeviceId: string, senderIdentity: string,
    recipientDid: string, recipientDeviceId: string, signedId: U32, oneTimeId: U32,
    ephemeral: string, nonce: string, body: string)

  datatype SessionState = SessionState(version: string, role: string, localDid: string, localDeviceId: string,
                                       remoteDid: string, remoteDeviceId: string, rootKey: string)

  datatype Ciphertext = Ciphertext(version: string, kind: string, wire: Bytes, session: SessionState)
  datatype Plaintext = Plaintext(body: Bytes, session: SessionState)

  // ----------------------------------------------------------------------- primitives

  datatype Crypto = Crypto(
    publicOf: Bytes -> Bytes,
    dh: (Bytes, Bytes) -> Bytes,
    hkdf: (Bytes, string) -> Bytes,
    seal: (Bytes, Bytes, string, Bytes) -> Option<Bytes>,
    open: (Bytes, Bytes, string, Bytes) -> Option<Bytes>,
    encode: Bytes -> string, decode: string -> Option<Bytes>,
    pack: Envelope -> Bytes, unpack: Bytes -> Option<Envelope>)

  /** DH commutes; opening undoes sealing; base64 and the JSON envelope decode what they encode. */
  ghost predicate Laws(c: Crypto) {
    && (forall a, b :: c.dh(a, c.publicOf(b)) == c.dh(b, c.publicOf(a)))
    && (forall a :: |a| == 32 ==> |c.publicOf(a)| == 32)
    && (forall k, n, ad, m :: c.seal(k, n, ad, m).Some? ==> c.open(k, n, ad, c.seal(k, n, ad, m).value) == Some(m))
    && (forall b :: c.decode(c.encode(b)) == Some(b))
    && (forall e :: c.unpack(c.pack(e)) == Some(e))
  }

  /** `decode_fixed::<N>`. */
  function DecodeFixed(c: Crypto, text: string, n: nat): Result<Bytes, string> {
    match c.decode(text)
    case None => Err("messenger_base64_decode_failed")
    case Some(b) => if |b| == n then Ok(b) else Err("messenger_key_length_invalid")
  }

  function RootKey(c: Crypto, s1: Bytes, s2: Bytes, s3: Bytes, s4: Bytes): Bytes {
    c.hkdf(s1 + s2 + s3 + s4, ROOT_KEY_INFO)
  }

  function Aad(senderDid: string, senderDevice: string, did: string, device: string, signedId: U32, oneTimeId: U32): string {
    PROTOCOL_VERSION + "|" + CIPHERTEXT_TYPE + "|" + senderDid + "|" + senderDevice + "|" + did + "|" + device
    + "|" + Cursor.Digits(signedId) + "|" + Cursor.Digits(oneTimeId)
  }

  // ------------------------------------------------------------------------- devices

  /** `secret` is a key pair's private half and the two texts are its encodings. */
  ghost predicate KeyPair(c: Crypto, publicText: string, privateText: string, secret: Bytes) {
    |secret| == 32 && privateText == c.encode(secret) && publicText == c.encode(c.publicOf(secret))
  }

  ghost predicate HasKeyPair(c: Crypto, publicText: string, privateText: string) {
    exists secret :: KeyPair(c, publicText, privateText, secret)
  }

  /** Live one-time ids are distinct and below the counter. */
  ghost predicate IdsFresh(d: Device) {
    && (forall i, j :: 0 <= i < j < |d.oneTime| ==> d.oneTime[i].id != d.oneTime[j].id)
    && (forall k <- d.oneTime :: k.id < d.nextId)
  }

  ghost predicate WellFormed(c: Crypto, d: Device) {
    && HasKeyPair(c, d.identityPublic, d.identityPrivate)
    && HasKeyPair(c, d.signedPublic, d.signedPrivate)
    && (forall k <- d.oneTime :: HasKeyPair(c, k.publicKey, k.privateKey))
    && IdsFresh(d)
  }

  function PublicBundle(d: Device, k: PreKey): Bundle {
    Bundle(d.did, d.deviceId, d.identityPublic, d.signedId, d.signedPublic, d.signedSignature, k.id, k.publicKey)
  }

  function CreateSpec(c: Crypto, did: string, deviceId: string, identity: Bytes, signed: Bytes, signedId: U32,
                      signature: string): Result<Device, string>
  {
    if Blank(did) then Err("messenger_subject_did_required")
    else Ok(Device(did, deviceId, c.encode(c.publicOf(identity)), c.encode(identity), signedId,
                   c.encode(c.publicOf(signed)), c.encode(signed), signature, None, [], 1))
  }

  predicate Blank(s: string) {
    forall ch <- s :: ch == ' ' || ch == '\t' || ch == '\n' || ch == '\r'
  }

  function NewPreKey(c: Crypto, id: U32, secret: Bytes): PreKey {
    PreKey(id, c.encode(c.publicOf(secret)), c.encode(secret))
  }

  function Prepend(keys: seq<PreKey>, r: Result<seq<PreKey>, string>): Result<seq<PreKey>, string> {
    if r.Ok? then Ok(keys + r.value) else r
  }

  /** One key per drawn secret; the id counter stops before it would overflow 32 bits, and keys made
      before that stay on the device. */
  function GenerateSpec(c: Crypto, d: Device, secrets: seq<Bytes>): (Device, Result<seq<PreKey>, string>)
    decreases |secrets|
  {
    if secrets == [] then (d, Ok([]))
    else if d.nextId + 1 >= 0x1_0000_0000 then (d, Err("messenger_pre_key_id_exhausted"))
    else
      var k := NewPreKey(c, d.nextId, secrets[0]);
      var (d', r) := GenerateSpec(c, AddKey(c, d, secrets[0]), secrets[1..]);
      (d', Prepend([k], r))
  }

  // ---------------------------------------------------------------------- encryption

  function EncryptInitial(c: Crypto, local: Device, remote: Bundle, plaintext: Bytes, ephemeral: Bytes, nonce: Bytes)
    : Result<Ciphertext, string>
  {
    if plaintext == [] then Err("messenger_plaintext_required")
    else
      var identity := DecodeFixed(c, local.identityPrivate, 32);
      if identity.Err? then Err(identity.error) else
      var theirIdentity := DecodeFixed(c, remote.identityKey, 32);
      if theirIdentity.Err? then Err(theirIdentity.error) else
      var theirSigned := DecodeFixed(c, remote.signedKey, 32);
      if theirSigned.Err? then Err(theirSigned.error) else
      var theirOneTime := DecodeFixed(c, remote.oneTimeKey, 32);
      if theirOneTime.Err? then Err(theirOneTime.error) else
      var root := RootKey(c, c.dh(identity.value, theirSigned.value), c.dh(ephemeral, theirIdentity.value),
                          c.dh(ephemeral, theirSigned.value), c.dh(ephemeral, theirOneTime.value));
      var aad := Aad(local.did, local.deviceId, remote.did, remote.deviceId, remote.signedId, remote.oneTimeId);
      var sealed := c.seal(c.hkdf(root, AEAD_KEY_INFO), nonce, aad, plaintext);
      if sealed.None? then Err("messenger_encrypt_failed")
      else
        Ok(Ciphertext(
             PROTOCOL_VERSION, CIPHERTEXT_TYPE,
             c.pack(Envelope(PROTOCOL_VERSION, CIPHERTEXT_TYPE, local.did, local.deviceId, local.identityPublic,
                             remote.did, remote.deviceId, remote.signedId, remote.oneTimeId,
                             c.encode(c.publicOf(ephemeral)), c.encode(nonce), c.encode(sealed.value))),
             SessionState(PROTOCOL_VERSION, "sender", local.did, local.deviceId, remote.did, remote.deviceId,
                          c.encode(c.hkdf(root, SESSION_STATE_INFO)))))
  }

  // ---------------------------------------------------------------------- decryption

  function FindKey(keys: seq<PreKey>, id: U32): Option<PreKey> {
    if keys == [] then None else if keys[0].id == id then Some(keys[0]) else FindKey(keys[1..], id)
  }

  function WithoutKey(keys: seq<PreKey>, id: U32): seq<PreKey> {
    if keys == [] then []
    else (if keys[0].id == id then [] else [keys[0]]) + WithoutKey(keys[1..], id)
  }

  /** The header checks, in the source's order. */
  function OpenEnvelope(c: Crypto, d: Device, m: Ciphertext): Result<Envelope, string> {
    if m.version != PROTOCOL_VERSION then Err("messenger_protocol_version_unsupported")
    else if m.kind != CIPHERTEXT_TYPE then Err("messenger_ciphertext_type_unsupported")
    else
      match c.unpack(m.wire)
      case None => Err("messenger_ciphertext_decode_failed")
      case Some(e) =>
        if e.version != PROTOCOL_VERSION || e.kind != CIPHERTEXT_TYPE then Err("messenger_ciphertext_header_invalid")
        else if e.recipientDid != d.did || e.recipientDeviceId != d.deviceId || e.signedId != d.signedId
        then Err("messenger_ciphertext_recipient_mismatch")
        else Ok(e)
  }

  /** The receiver's root key and plaintext for an accepted envelope. */
  function OpenBody(c: Crypto, d: Device, e: Envelope): Result<(Bytes, Bytes), string> {
    var identity := DecodeFixed(c, d.identityPrivate, 32);
    if identity.Err? then Err(identity.error) else
    var signed := DecodeFixed(c, d.signedPrivate, 32);
    if signed.Err? then Err(signed.error) else
    var found := FindKey(d.oneTime, e.oneTimeId);
    if found.None? then Err("messenger_one_time_pre_key_missing") else
    var oneTime := DecodeFixed(c, found.value.privateKey, 32);
    if oneTime.Err? then Err(oneTime.error) else
    var sender := DecodeFixed(c, e.senderIdentity, 32);
    if sender.Err? then Err(sender.error) else
    var ephemeral := DecodeFixed(c, e.ephemeral, 32);
    if ephemeral.Err? then Err(ephemeral.error) else
    var root := RootKey(c, c.dh(signed.value, sender.value), c.dh(identity.value, ephemeral.value),
                        c.dh(signed.value, ephemeral.value), c.dh(oneTime.value, ephemeral.value));
    var nonce := DecodeFixed(c, e.nonce, 24);
    if nonce.Err? then Err(nonce.error) else
    var body := c.decode(e.body);
    if body.None? then Err("messenger_base64_decode_failed") else
    var aad := Aad(e.senderDid, e.senderDeviceId, e.recipientDid, e.recipientDeviceId, e.signedId, e.oneTimeId);
    match c.open(c.hkdf(root, AEAD_KEY_INFO), nonce.value, aad, body.value)
    case None => Err("messenger_decrypt_failed")
    case Some(plaintext) => Ok((root, plaintext))
  }

  function DecryptSpec(c: Crypto, d: Device, m: Ciphertext): (Device, Result<Plaintext, string>) {
    match OpenEnvelope(c, d, m)
    case Err(error) => (d, Err(error))
    case Ok(e) =>
      match OpenBody(c, d, e)
      case Err(error) => (d, Err(error))
      case Ok((root, plaintext)) =>
        var session := SessionState(PROTOCOL_VERSION, "recipient", e.recipientDid, e.recipientDeviceId,
                                    e.senderDid, e.senderDeviceId, c.encode(c.hkdf(root, SESSION_STATE_INFO)));
        (d.(oneTime := WithoutKey(d.oneTime, e.oneTimeId), session := Some(session)), Ok(Plaintext(plaintext, session)))
  }

  // ------------------------------------------------------------------------ the object

  class MessengerDevice {
    var device: Device

    constructor (device: Device)
      ensures this.device == device
    {
      this.device := device;
    }

    method GenerateOneTimePreKeys(c: Crypto, secrets: seq<Bytes>) returns (r: Result<seq<PreKey>, string>)
      modifies this
      ensures (device, r) == GenerateSpec(c, old(device), secrets)
    {
      if |secrets| == 0 { return Ok([]); }
      var keys: seq<PreKey> := [];
      var i := 0;
      assert secrets[0..] == secrets;
      ghost var spec := GenerateSpec(c, device, secrets);
      assert spec.1.Ok? ==> [] + spec.1.value == spec.1.value;
      while i < |secrets|
        invariant 0 <= i <= |secrets|
        invariant spec == (GenerateSpec(c, device, secrets[i..]).0,
                           Prepend(keys, GenerateSpec(c, device, secrets[i..]).1))
      {
        var key := NewPreKey(c, device.nextId, secrets[i]);
        if device.nextId + 1 >= 0x1_0000_0000 { return Err("messenger_pre_key_id_exhausted"); }
        assert secrets[i..][1..] == secrets[i + 1..];
        device := device.(oneTime := device.oneTime + [key], nextId := device.nextId + 1);
        ghost var rest := GenerateSpec(c, device, secrets[i + 1..]).1;
        assert rest.Ok? ==> keys + ([key] + rest.value) == (keys + [key]) + rest.value;
        keys := keys + [key];
        i := i + 1;
      }
      assert keys + [] == keys;
      return Ok(keys);
    }

    method DecryptInboundMessage(c: Crypto, m: Ciphertext) returns (r: Result<Plaintext, string>)
      modifies this
      ensures (device, r) == DecryptSpec(c, old(device), m)
    {
      var header := OpenEnvelope(c, device, m);
      if header.Err? { return Err(header.error); }
      var e := header.value;
      var read := OpenBody(c, device, e);
      if read.Err? { return Err(read.error); }
      var (root, plaintext) := read.value;
      var kept := RetainOthers(device.oneTime, e.oneTimeId);
      var session := SessionState(PROTOCOL_VERSION, "recipient", e.recipientDid, e.recipientDeviceId,
                                  e.senderDid, e.senderDeviceId, c.encode(c.hkdf(root, SESSION_STATE_INFO)));
      device := device.(oneTime := kept, session := Some(session));
      return Ok(Plaintext(plaintext, session));
    }
  }

  /** `Vec::retain`. */
  method RetainOthers(keys: seq<PreKey>, id: U32) returns (kept: seq<PreKey>)
    ensures kept == WithoutKey(keys, id)
  {
    kept := [];
    var i := |keys|;
    while i > 0
      invariant 0 <= i <= |keys|
      invariant kept == WithoutKey(keys[i..], id)
    {
      i := i - 1;
      assert keys[i..][1..] == keys[i + 1..];
      if keys[i].id != id { kept := [keys[i]] + kept; }
    }
  }

  // ------------------------------------------------------------------------ agreement

  lemma DecodePair(c: Crypto, publicText: string, privateText: string) returns (secret: Bytes)
    requires Laws(c) && HasKeyPair(c, publicText, privateText)
    ensures KeyPair(c, publicText, privateText, secret)
    ensures DecodeFixed(c, privateText, 32) == Ok(secret)
    ensures DecodeFixed(c, publicText, 32) == Ok(c.publicOf(secret))
  {
    secret :| KeyPair(c, publicText, privateText, secret);
  }

  lemma {:induction false} FindMember(keys: seq<PreKey>, k: PreKey)
    requires k in keys && forall i, j :: 0 <= i < j < |keys| ==> keys[i].id != keys[j].id
    ensures FindKey(keys, k.id) == Some(k)
  {
    if keys[0] != k {
      var i :| 0 <= i < |keys| && keys[i] == k;
      assert keys[0].id != keys[i].id;
      assert keys[1..][i - 1] == k;
      FindMember(keys[1..], k);
    }
  }

  /** Both ends compute the same four shared secrets, in the same order. */
  lemma SameRoot(c: Crypto, senderId: Bytes, ephemeral: Bytes, id: Bytes, signed: Bytes, oneTime: Bytes)
    requires Laws(c)
    ensures RootKey(c, c.dh(senderId, c.publicOf(signed)), c.dh(ephemeral, c.publicOf(id)),
                    c.dh(ephemeral, c.publicOf(signed)), c.dh(ephemeral, c.publicOf(oneTime)))
         == RootKey(c, c.dh(signed, c.publicOf(senderId)), c.dh(id, c.publicOf(ephemeral)),
                    c.dh(signed, c.publicOf(ephemeral)), c.dh(oneTime, c.publicOf(ephemeral)))
  {
  }

  /** An initial message made from a published bundle of a well-formed device is decrypted by that
      device to the plaintext; both sides keep the same derived key, with mirrored ends; and exactly
      the used pre-key disappears. */
  lemma Agreement(c: Crypto, sender: Device, recipient: Device, k: PreKey, plaintext: Bytes,
                  ephemeral: Bytes, nonce: Bytes)
    requires Laws(c) && WellFormed(c, sender) && WellFormed(c, recipient) && k in recipient.oneTime
    requires |ephemeral| == 32 && |nonce| == 24
    requires EncryptInitial(c, sender, PublicBundle(recipient, k), plaintext, ephemeral, nonce).Ok?
    ensures
      var m := EncryptInitial(c, sender, PublicBundle(recipient, k), plaintext, ephemeral, nonce).value;
      var (d, r) := DecryptSpec(c, recipient, m);
      && r.Ok? && r.value.body == plaintext
      && r.value.session.rootKey == m.session.rootKey
      && d.session == Some(r.value.session)
      && (r.value.session.localDid, r.value.session.localDeviceId) == (m.session.remoteDid, m.session.remoteDeviceId)
      && (r.value.session.remoteDid, r.value.session.remoteDeviceId) == (m.session.localDid, m.session.localDeviceId)
      && d.oneTime == WithoutKey(recipient.oneTime, k.id)
  {
    hide Aad, RootKey, FindKey, WithoutKey;
    var bundle := PublicBundle(recipient, k);
    var m := EncryptInitial(c, sender, bundle, plaintext, ephemeral, nonce).value;
    var senderId := DecodePair(c, sender.identityPublic, sender.identityPrivate);
    var id := DecodePair(c, recipient.identityPublic, recipient.identityPrivate);
    var signed := DecodePair(c, recipient.signedPublic, recipient.signedPrivate);
    var oneTime := DecodePair(c, k.publicKey, k.privateKey);
    FindMember(recipient.oneTime, k);
    SameRoot(c, senderId, ephemeral, id, signed, oneTime);
    var e := c.unpack(m.wire).value;
    assert OpenEnvelope(c, recipient, m) == Ok(e);
    assert DecodeFixed(c, e.ephemeral, 32) == Ok(c.publicOf(ephemeral));
    assert DecodeFixed(c, e.nonce, 24) == Ok(nonce);
  }

  /** Encryption to a well-formed bundle fails only on an empty plaintext or if sealing fails. */
  lemma EncryptSucceeds(c: Crypto, sender: Device, recipient: Device, k: PreKey, plaintext: Bytes,
                        ephemeral: Bytes, nonce: Bytes)
    requires Laws(c) && WellFormed(c, sender) && WellFormed(c, recipient) && k in recipient.oneTime
    requires forall key, n, ad, msg :: c.seal(key, n, ad, msg).Some?
    ensures EncryptInitial(c, sender, PublicBundle(recipient, k), plaintext, ephemeral, nonce).Ok? <==> plaintext != []
  {
    var senderId := DecodePair(c, sender.identityPublic, sender.identityPrivate);
    var id := DecodePair(c, recipient.identityPublic, recipient.identityPrivate);
    var signed := DecodePair(c, recipient.signedPublic, recipient.signedPrivate);
    var oneTime := DecodePair(c, k.publicKey, k.privateKey);
  }

  // ------------------------------------------------------------------------------ runs

  datatype Op = Generate(secrets: seq<Bytes>) | Decrypt(message: Ciphertext)

  function Step(c: Crypto, d: Device, op: Op): Device {
    match op
    case Generate(secrets) => GenerateSpec(c, d, secrets).0
    case Decrypt(m) => DecryptSpec(c, d, m).0
  }

  /** The device after the first `n` operations. */
  function At(c: Crypto, d: Device, ops: seq<Op>, n: nat): Device
    requires n <= |ops|
  {
    if n == 0 then d else Step(c, At(c, d, ops, n - 1), ops[n - 1])
  }

  /** Operation `n` decrypts a message with one-time pre-key `id`. */
  ghost predicate DecryptsAt(c: Crypto, d: Device, ops: seq<Op>, n: nat, id: U32)
    requires n < |ops|
  {
    && ops[n].Decrypt?
    && DecryptSpec(c, At(c, d, ops, n), ops[n].message).1.Ok?
    && c.unpack(ops[n].message.wire).Some?
    && c.unpack(ops[n].message.wire).value.oneTimeId == id
  }

  lemma {:induction false} WithoutKeyElements(keys: seq<PreKey>, id: U32)
    ensures forall k :: k in WithoutKey(keys, id) <==> k in keys && k.id != id
  {
    if keys != [] { WithoutKeyElements(keys[1..], id); }
  }

  lemma {:induction false} WithoutKeyDistinct(keys: seq<PreKey>, id: U32)
    requires forall i, j :: 0 <= i < j < |keys| ==> keys[i].id != keys[j].id
    ensures forall i, j :: 0 <= i < j < |WithoutKey(keys, id)| ==> WithoutKey(keys, id)[i].id != WithoutKey(keys, id)[j].id
  {
    if keys != [] {
      WithoutKeyDistinct(keys[1..], id);
      WithoutKeyElements(keys[1..], id);
      var tail := WithoutKey(keys[1..], id);
      forall k <- tail ensures k.id != keys[0].id {
        var i :| 0 <= i < |keys[1..]| && keys[1..][i] == k;
        assert keys[i + 1] == k;
      }
    }
  }

  function AddKey(c: Crypto, d: Device, secret: Bytes): Device
    requires d.nextId + 1 < 0x1_0000_0000
  {
    d.(oneTime := d.oneTime + [NewPreKey(c, d.nextId, secret)], nextId := d.nextId + 1)
  }

  lemma AddKeyKeeps(c: Crypto, d: Device, secret: Bytes)
    requires IdsFresh(d) && d.nextId + 1 < 0x1_0000_0000
    ensures IdsFresh(AddKey(c, d, secret))
    ensures forall k <- AddKey(c, d, secret).oneTime :: k in d.oneTime || k.id == d.nextId
  {
  }

  lemma {:induction false} GenerateKeeps(c: Crypto, d: Device, secrets: seq<Bytes>)
    requires IdsFresh(d)
    ensures var d' := GenerateSpec(c, d, secrets).0;
            IdsFresh(d') && d.nextId <= d'.nextId && forall k <- d'.oneTime :: k in d.oneTime || k.id >= d.nextId
    decreases |secrets|
  {
    if secrets != [] && d.nextId + 1 < 0x1_0000_0000 {
      AddKeyKeeps(c, d, secrets[0]);
      GenerateKeeps(c, AddKey(c, d, secrets[0]), secrets[1..]);
    }
  }

  lemma DecryptKeeps(c: Crypto, d: Device, m: Ciphertext)
    requires IdsFresh(d)
    ensures var d' := DecryptSpec(c, d, m).0;
            IdsFresh(d') && d.nextId == d'.nextId && forall k <- d'.oneTime :: k in d.oneTime
    ensures DecryptSpec(c, d, m).1.Err? ==> DecryptSpec(c, d, m).0 == d
  {
    var header := OpenEnvelope(c, d, m);
    if header.Ok? {
      WithoutKeyElements(d.oneTime, header.value.oneTimeId);
      WithoutKeyDistinct(d.oneTime, header.value.oneTimeId);
    }
  }

  /** Every operation keeps the live ids distinct and below the counter, and brings no id back. */
  lemma StepKeeps(c: Crypto, d: Device, op: Op)
    requires IdsFresh(d)
    ensures var d' := Step(c, d, op);
            IdsFresh(d') && d.nextId <= d'.nextId && forall k <- d'.oneTime :: k in d.oneTime || k.id >= d.nextId
  {
    match op
    case Generate(secrets) => GenerateKeeps(c, d, secrets);
    case Decrypt(m) => DecryptKeeps(c, d, m);
  }

  lemma {:induction false} RunKeeps(c: Crypto, d: Device, ops: seq<Op>, n: nat)
    requires IdsFresh(d) && n <= |ops|
    ensures IdsFresh(At(c, d, ops, n))
  {
    if n > 0 {
      RunKeeps(c, d, ops, n - 1);
      StepKeeps(c, At(c, d, ops, n - 1), ops[n - 1]);
    }
  }

  /** The id was handed out and is no longer live. */
  ghost predicate Spent(d: Device, id: U32) {
    id < d.nextId && forall k <- d.oneTime :: k.id != id
  }

  lemma SpentStep(c: Crypto, d: Device, op: Op, id: U32)
    requires IdsFresh(d) && Spent(d, id)
    ensures Spent(Step(c, d, op), id)
  {
    StepKeeps(c, d, op);
  }

  lemma {:induction false} SpentStays(c: Crypto, d: Device, ops: seq<Op>, id: U32, i: nat, j: nat)
    requires IdsFresh(d) && i <= j <= |ops| && Spent(At(c, d, ops, i), id)
    ensures Spent(At(c, d, ops, j), id)
    decreases j
  {
    if i < j {
      SpentStays(c, d, ops, id, i, j - 1);
      RunKeeps(c, d, ops, j - 1);
      SpentStep(c, At(c, d, ops, j - 1), ops[j - 1], id);
    }
  }

  lemma {:induction false} FindKeyIsMember(keys: seq<PreKey>, id: U32)
    ensures FindKey(keys, id).Some? <==> exists k <- keys :: k.id == id
  {
    if keys != [] { FindKeyIsMember(keys[1..], id); }
  }

  /** A successful decryption found its pre-key live and removed it. */
  lemma DecryptSpends(c: Crypto, d: Device, m: Ciphertext)
    requires IdsFresh(d) && DecryptSpec(c, d, m).1.Ok?
    ensures c.unpack(m.wire).Some?
    ensures var id := c.unpack(m.wire).value.oneTimeId;
            && (exists k <- d.oneTime :: k.id == id)
            && Spent(DecryptSpec(c, d, m).0, id)
  {
    var e := OpenEnvelope(c, d, m).value;
    FindKeyIsMember(d.oneTime, e.oneTimeId);
    WithoutKeyElements(d.oneTime, e.oneTimeId);
  }

  lemma SpentRefuses(c: Crypto, d: Device, m: Ciphertext)
    requires IdsFresh(d) && c.unpack(m.wire).Some? && Spent(d, c.unpack(m.wire).value.oneTimeId)
    ensures DecryptSpec(c, d, m).1.Err?
  {
    FindKeyIsMember(d.oneTime, c.unpack(m.wire).value.oneTimeId);
  }

  /** Over any run of key generation and decryption no one-time pre-key decrypts twice. */
  lemma PreKeyUsedOnce(c: Crypto, d: Device, ops: seq<Op>, i: nat, j: nat, id: U32)
    requires IdsFresh(d) && i < j < |ops|
    requires DecryptsAt(c, d, ops, i, id)
    ensures !DecryptsAt(c, d, ops, j, id)
  {
    hide OpenEnvelope, OpenBody, GenerateSpec, FindKey, WithoutKey;
    RunKeeps(c, d, ops, i);
    DecryptSpends(c, At(c, d, ops, i), ops[i].message);
    SpentStays(c, d, ops, id, i + 1, j);
    RunKeeps(c, d, ops, j);
    if ops[j].Decrypt? && c.unpack(ops[j].message.wire).Some? && c.unpack(ops[j].message.wire).value.oneTimeId == id {
      SpentRefuses(c, At(c, d, ops, j), ops[j].message);
    }
  }

  /** A created device starts well-formed, and generation with 32-byte secrets keeps it so. */
  lemma {:induction false} GenerateWellFormed(c: Crypto, d: Device, secrets: seq<Bytes>)
    requires WellFormed(c, d) && forall s <- secrets :: |s| == 32
    ensures WellFormed(c, GenerateSpec(c, d, secrets).0)
    decreases |secrets|
  {
    if secrets != [] && d.nextId + 1 < 0x1_0000_0000 {
      var k := NewPreKey(c, d.nextId, secrets[0]);
      assert KeyPair(c, k.publicKey, k.privateKey, secrets[0]);
      AddKeyKeeps(c, d, secrets[0]);
      GenerateWellFormed(c, AddKey(c, d, secrets[0]), secrets[1..]);
    }
  }

  lemma CreateWellFormed(c: Crypto, did: string, deviceId: string, identity: Bytes, signed: Bytes, signedId: U32,
                         signature: string)
    requires |identity| == 32 && |signed| == 32
    ensures var r := CreateSpec(c, did, deviceId, identity, signed, signedId, signature);
            r.Ok? ==> WellFormed(c, r.value)
  {
    assert KeyPair(c, c.encode(c.publicOf(identity)), c.encode(identity), identity);
    assert KeyPair(c, c.encode(c.publicOf(signed)), c.encode(signed), signed);
  }

  // --------------------------------------------------------------------------- what is derived and bound

  /** The secret keys behind the two sides of a handshake: sender identity, ephemeral; recipient identity, signed pre-key,
      one-time pre-key. */
  datatype Secrets = Secrets(sender: Bytes, ephemeral: Bytes, identity: Bytes, signed: Bytes, oneTime: Bytes)

  /** The key of section 3.3 of the X3DH specification: DH1 to DH4 in that order. */
  ghost function X3dhRoot(c: Crypto, k: Secrets): Bytes {
    c.hkdf(c.dh(k.sender, c.publicOf(k.signed)) + c.dh(k.ephemeral, c.publicOf(k.identity))
           + c.dh(k.ephemeral, c.publicOf(k.signed)) + c.dh(k.ephemeral, c.publicOf(k.oneTime)),
           "ansible messenger signal-mvp-v1 root key")
  }

  /** The associated data: version, type, both ends and both key ids, separated by bars. */
  ghost function Header(e: Envelope): string {
    "signal-mvp-v1|pre_key_signal_message|" + e.senderDid + "|" + e.senderDeviceId + "|" + e.recipientDid + "|" + e.recipientDeviceId
    + "|" + Cursor.Digits(e.signedId) + "|" + Cursor.Digits(e.oneTimeId)
  }

  ghost predicate SecretsOf(c: Crypto, sender: Device, recipient: Device, k: PreKey, x: Secrets) {
    && KeyPair(c, sender.identityPublic, sender.identityPrivate, x.sender)
    && KeyPair(c, recipient.identityPublic, recipient.identityPrivate, x.identity)
    && KeyPair(c, recipient.signedPublic, recipient.signedPrivate, x.signed)
    && KeyPair(c, k.publicKey, k.privateKey, x.oneTime)
  }

  /** An initial message names both ends and both keys, carries the ephemeral public key, and seals the plaintext under a key
      derived from the X3DH root, with all of that as associated data; the sender keeps another key derived from the root. */
  lemma EncryptFollowsX3dh(c: Crypto, sender: Device, recipient: Device, k: PreKey, plaintext: Bytes, nonce: Bytes, x: Secrets)
    requires Laws(c) && SecretsOf(c, sender, recipient, k, x)
    requires EncryptInitial(c, sender, PublicBundle(recipient, k), plaintext, x.ephemeral, nonce).Ok?
    ensures var m := EncryptInitial(c, sender, PublicBundle(recipient, k), plaintext, x.ephemeral, nonce).value;
      && m.version == "signal-mvp-v1" && m.kind == "pre_key_signal_message" && c.unpack(m.wire).Some?
      && (var e := c.unpack(m.wire).value;
          && e.version == "signal-mvp-v1" && e.kind == "pre_key_signal_message"
          && e.senderDid == sender.did && e.senderDeviceId == sender.deviceId && e.senderIdentity == sender.identityPublic
          && e.recipientDid == recipient.did && e.recipientDeviceId == recipient.deviceId
          && e.signedId == recipient.signedId && e.oneTimeId == k.id
          && e.ephemeral == c.encode(c.publicOf(x.ephemeral)) && e.nonce == c.encode(nonce)
          && (var sealed := c.seal(c.hkdf(X3dhRoot(c, x), "ansible messenger signal-mvp-v1 aead key"), nonce, Header(e), plaintext);
              sealed.Some? && e.body == c.encode(sealed.value)))
      && m.session == SessionState("signal-mvp-v1", "sender", sender.did, sender.deviceId, recipient.did, recipient.deviceId,
                                   c.encode(c.hkdf(X3dhRoot(c, x), "ansible messenger signal-mvp-v1 session state")))
  {
    hide X3dhRoot;
    var m := EncryptInitial(c, sender, PublicBundle(recipient, k), plaintext, x.ephemeral, nonce).value;
    var e := c.unpack(m.wire).value;
    AadIsHeader(e);
    RootIsX3dh(c, x);
    assert DecodeFixed(c, sender.identityPrivate, 32) == Ok(x.sender);
    assert DecodeFixed(c, recipient.identityPublic, 32) == Ok(c.publicOf(x.identity));
    assert DecodeFixed(c, recipient.signedPublic, 32) == Ok(c.publicOf(x.signed));
    assert DecodeFixed(c, k.publicKey, 32) == Ok(c.publicOf(x.oneTime));
  }

  lemma AadIsHeader(e: Envelope)
    ensures Aad(e.senderDid, e.senderDeviceId, e.recipientDid, e.recipientDeviceId, e.signedId, e.oneTimeId) == Header(e)
  {
    assert PROTOCOL_VERSION + "|" + CIPHERTEXT_TYPE + "|" == "signal-mvp-v1|pre_key_signal_message|";
  }

  lemma RootIsX3dh(c: Crypto, k: Secrets)
    ensures RootKey(c, c.dh(k.sender, c.publicOf(k.signed)), c.dh(k.ephemeral, c.publicOf(k.identity)),
                    c.dh(k.ephemeral, c.publicOf(k.signed)), c.dh(k.ephemeral, c.publicOf(k.oneTime))) == X3dhRoot(c, k)
  {
  }

  /** With shares of 32 bytes and a collision-free derivation, the root key determines all four shares. */
  lemma RootBindsShares(c: Crypto, a1: Bytes, a2: Bytes, a3: Bytes, a4: Bytes, b1: Bytes, b2: Bytes, b3: Bytes, b4: Bytes)
    requires forall x, y, info :: c.hkdf(x, info) == c.hkdf(y, info) ==> x == y
    requires |a1| == |a2| == |a3| == |a4| == |b1| == |b2| == |b3| == |b4| == 32
    requires RootKey(c, a1, a2, a3, a4) == RootKey(c, b1, b2, b3, b4)
    ensures a1 == b1 && a2 == b2 && a3 == b3 && a4 == b4
  {
    var x, y := a1 + a2 + a3 + a4, b1 + b2 + b3 + b4;
    assert x == y;
    assert a1 == x[..32] && a2 == x[32..64] && a3 == x[64..96] && a4 == x[96..];
    assert b1 == y[..32] && b2 == y[32..64] && b3 == y[64..96] && b4 == y[96..];
  }

  lemma FirstBar(a: string, x: string)
    requires '|' !in a
    ensures (a + "|" + x)[|a|] == '|' && forall i :: 0 <= i < |a| ==> (a + "|" + x)[i] != '|'
    ensures (a + "|" + x)[..|a|] == a && (a + "|" + x)[|a| + 1..] == x
  {
  }

  /** Two strings without a bar, each followed by a bar: equal concatenations have equal parts. */
  lemma BarSplits(a: string, x: string, b: string, y: string)
    requires '|' !in a && '|' !in b && a + "|" + x == b + "|" + y
    ensures a == b && x == y
  {
    FirstBar(a, x);
    FirstBar(b, y);
  }

  function KeyIds(e: Envelope): string { Cursor.Digits(e.signedId) + "|" + Cursor.Digits(e.oneTimeId) }
  function FromRecipientDevice(e: Envelope): string { e.recipientDeviceId + "|" + KeyIds(e) }
  function FromRecipient(e: Envelope): string { e.recipientDid + "|" + FromRecipientDevice(e) }
  function FromSenderDevice(e: Envelope): string { e.senderDeviceId + "|" + FromRecipient(e) }
  function FromSender(e: Envelope): string { e.senderDid + "|" + FromSenderDevice(e) }

  lemma HeaderNested(e: Envelope)
    ensures Header(e) == "signal-mvp-v1|pre_key_signal_message|" + FromSender(e)
  {
    var p := "signal-mvp-v1|pre_key_signal_message|";
    var a, b, c, d, k, l := e.senderDid, e.senderDeviceId, e.recipientDid, e.recipientDeviceId,
                            Cursor.Digits(e.signedId), Cursor.Digits(e.oneTimeId);
    calc {
      p + a + "|" + b + "|" + c + "|" + d + "|" + k + "|" + l;
      { Regroup(p + a + "|" + b + "|" + c + "|" + d + "|", k, l); }
      p + a + "|" + b + "|" + c + "|" + d + "|" + KeyIds(e);
      { Regroup(p + a + "|" + b + "|" + c + "|", d, KeyIds(e)); }
      p + a + "|" + b + "|" + c + "|" + FromRecipientDevice(e);
      { Regroup(p + a + "|" + b + "|", c, FromRecipientDevice(e)); }
      p + a + "|" + b + "|" + FromRecipient(e);
      { Regroup(p + a + "|", b, FromRecipient(e)); }
      p + a + "|" + FromSenderDevice(e);
      { Regroup(p, a, FromSenderDevice(e)); }
      p + FromSender(e);
    }
  }

  lemma Regroup(p: string, a: string, x: string)
    ensures p + a + "|" + x == p + (a + "|" + x)
  {
  }

  /** The header determines both ends and both key ids, if no name contains a bar. */
  lemma HeaderBinds(d: Envelope, e: Envelope)
    requires Header(d) == Header(e)
    requires '|' !in d.senderDid && '|' !in d.senderDeviceId && '|' !in d.recipientDid && '|' !in d.recipientDeviceId
    requires '|' !in e.senderDid && '|' !in e.senderDeviceId && '|' !in e.recipientDid && '|' !in e.recipientDeviceId
    ensures d.senderDid == e.senderDid && d.senderDeviceId == e.senderDeviceId
    ensures d.recipientDid == e.recipientDid && d.recipientDeviceId == e.recipientDeviceId
    ensures d.signedId == e.signedId && d.oneTimeId == e.oneTimeId
  {
    hide Header, Cursor.Digits, Cursor.DigitsValue;
    HeaderNested(d);
    HeaderNested(e);
    SamePrefix("signal-mvp-v1|pre_key_signal_message|", FromSender(d), FromSender(e));
    BarSplits(d.senderDid, FromSenderDevice(d), e.senderDid, FromSenderDevice(e));
    BarSplits(d.senderDeviceId, FromRecipient(d), e.senderDeviceId, FromRecipient(e));
    BarSplits(d.recipientDid, FromRecipientDevice(d), e.recipientDid, FromRecipientDevice(e));
    BarSplits(d.recipientDeviceId, KeyIds(d), e.recipientDeviceId, KeyIds(e));
    BarSplits(Cursor.Digits(d.signedId), Cursor.Digits(d.oneTimeId), Cursor.Digits(e.signedId), Cursor.Digits(e.oneTimeId));
    Cursor.DigitsRoundTrip(d.signedId);
    Cursor.DigitsRoundTrip(e.signedId);
    Cursor.DigitsRoundTrip(d.oneTimeId);
    Cursor.DigitsRoundTrip(e.oneTimeId);
  }

  lemma SamePrefix(p: string, a: string, b: string)
    requires p + a == p + b
    ensures a == b
  {
    assert a == (p + a)[|p|..] && b == (p + b)[|p|..];
  }

  /** Without that the header is ambiguous: a bar may move from one name to the next. */
  lemma HeaderAmbiguous(d: Envelope)
    ensures var e := d.(senderDid := "a|b", senderDeviceId := "c");
      var f := d.(senderDid := "a", senderDeviceId := "b|c");
      Header(e) == Header(f) && e != f
  {
    hide Header;
    var e, f := d.(senderDid := "a|b", senderDeviceId := "c"), d.(senderDid := "a", senderDeviceId := "b|c");
    HeaderNested(e);
    HeaderNested(f);
    assert FromRecipient(e) == FromRecipient(f);
    var rest := FromRecipient(e);
    assert "a|b" + "|" + ("c" + "|" + rest) == "a" + "|" + ("b|c" + "|" + rest) by {
      assert "a|b|c|" + rest == "a|b" + "|" + ("c" + "|" + rest);
      assert "a|b|c|" + rest == "a" + "|" + ("b|c" + "|" + rest);
    }
  }

  /** A message is accepted only if version, type, recipient and signed pre-key are this device's and the one-time pre-key is
      live, and its body opens, under the header as it stands, with the key of the recipient's four shares; the device then
      remembers the sender under another key derived from them. */
  lemma DecryptMeans(c: Crypto, d: Device, m: Ciphertext)
    requires DecryptSpec(c, d, m).1.Ok?
    ensures m.version == "signal-mvp-v1" && m.kind == "pre_key_signal_message" && c.unpack(m.wire).Some?
    ensures var e, (d', r) := c.unpack(m.wire).value, DecryptSpec(c, d, m);
      && e.version == "signal-mvp-v1" && e.kind == "pre_key_signal_message"
      && e.recipientDid == d.did && e.recipientDeviceId == d.deviceId && e.signedId == d.signedId
      && r.value.session == SessionState("signal-mvp-v1", "recipient", d.did, d.deviceId, e.senderDid, e.senderDeviceId,
                                         r.value.session.rootKey)
      && d' == d.(oneTime := d'.oneTime, session := Some(r.value.session))
      && (exists k <- d.oneTime :: k.id == e.oneTimeId && OpensWith(c, d, e, k, r.value))
  {
    hide FindKey, WithoutKey, Aad;
    var e := c.unpack(m.wire).value;
    FoundIsMember(d.oneTime, e.oneTimeId);
    AadIsHeader(e);
    var k := FindKey(d.oneTime, e.oneTimeId).value;
    assert OpensWith(c, d, e, k, DecryptSpec(c, d, m).1.value);
  }

  ghost predicate OpensWith(c: Crypto, d: Device, e: Envelope, k: PreKey, r: Plaintext) {
    && c.decode(d.identityPrivate).Some? && c.decode(d.signedPrivate).Some? && c.decode(k.privateKey).Some?
    && c.decode(e.senderIdentity).Some? && c.decode(e.ephemeral).Some? && c.decode(e.nonce).Some? && c.decode(e.body).Some?
    && (var identity, signed, oneTime := c.decode(d.identityPrivate).value, c.decode(d.signedPrivate).value, c.decode(k.privateKey).value;
        var sender, ephemeral := c.decode(e.senderIdentity).value, c.decode(e.ephemeral).value;
        var root := c.hkdf(c.dh(signed, sender) + c.dh(identity, ephemeral) + c.dh(signed, ephemeral) + c.dh(oneTime, ephemeral),
                           "ansible messenger signal-mvp-v1 root key");
        && |identity| == |signed| == |oneTime| == |sender| == |ephemeral| == 32 && |c.decode(e.nonce).value| == 24
        && c.open(c.hkdf(root, "ansible messenger signal-mvp-v1 aead key"), c.decode(e.nonce).value, Header(e), c.decode(e.body).value)
             == Some(r.body)
        && r.session.rootKey == c.encode(c.hkdf(root, "ansible messenger signal-mvp-v1 session state")))
  }

  lemma {:induction false} FoundIsMember(keys: seq<PreKey>, id: U32)
    ensures FindKey(keys, id).Some? ==> FindKey(keys, id).value in keys && FindKey(keys, id).value.id == id
  {
    if keys != [] { FoundIsMember(keys[1..], id); }
  }

  /** Generation succeeds exactly when the counter does not overflow, and then hands out one key pair per secret under
      consecutive ids, which are appended to the live ones. */
  lemma {:induction false} GenerateEffect(c: Crypto, d: Device, secrets: seq<Bytes>)
    ensures var (d', r) := GenerateSpec(c, d, secrets);
      && (r.Ok? <==> secrets == [] || d.nextId + |secrets| < 0x1_0000_0000)
      && (r.Ok? ==>
            && |r.value| == |secrets| && d' == d.(oneTime := d.oneTime + r.value, nextId := d.nextId + |secrets|)
            && forall i :: 0 <= i < |secrets| ==>
                 r.value[i].id == d.nextId + i && r.value[i].publicKey == c.encode(c.publicOf(secrets[i]))
                 && r.value[i].privateKey == c.encode(secrets[i]))
      && d' == d.(oneTime := d'.oneTime, nextId := d'.nextId) && d.oneTime <= d'.oneTime
    decreases |secrets|
  {
    if secrets != [] && d.nextId + 1 < 0x1_0000_0000 {
      GenerateEffect(c, AddKey(c, d, secrets[0]), secrets[1..]);
      var (d', r) := GenerateSpec(c, AddKey(c, d, secrets[0]), secrets[1..]);
      if r.Ok? { assert d.oneTime + ([NewPreKey(c, d.nextId, secrets[0])] + r.value) == (d.oneTime + [NewPreKey(c, d.nextId, secrets[0])]) + r.value; }
    } else {
      assert d.oneTime + [] == d.oneTime;
    }
  }

  /** A device is created exactly for a name that is not only white space, with key pairs of the drawn secrets, no one-time
      keys and the counter at 1. */
  lemma CreateEffect(c: Crypto, did: string, deviceId: string, identity: Bytes, signed: Bytes, signedId: U32, signature: string)
    ensures var r := CreateSpec(c, did, deviceId, identity, signed, signedId, signature);
      && (r.Ok? <==> exists i :: 0 <= i < |did| && did[i] !in {' ', '\t', '\n', '\r'})
      && (r.Ok? ==>
            && r.value.did == did && r.value.deviceId == deviceId && r.value.signedId == signedId
            && r.value.identityPublic == c.encode(c.publicOf(identity)) && r.value.identityPrivate == c.encode(identity)
            && r.value.signedPublic == c.encode(c.publicOf(signed)) && r.value.signedPrivate == c.encode(signed)
            && r.value.signedSignature == signature && r.value.session == None && r.value.oneTime == [] && r.value.nextId == 1)
  {
    if i :| 0 <= i < |did| && did[i] !in {' ', '\t', '\n', '\r'} { assert did[i] in did; }
    if !Blank(did) {
      var ch :| ch in did && ch !in {' ', '\t', '\n', '\r'};
      var i :| 0 <= i < |did| && did[i] == ch;
    }
  }
}
