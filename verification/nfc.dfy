/** Near-field-communication payloads (wallet/PassProps/NFC.py). The two
    required arguments are positional parameters in the source, so their
    presence is enforced by the signature, as here. */
module Nfc {
  import opened Wrappers
  import opened OrderedMaps
  import opened Values

  datatype Nfc = Nfc(encryptionPublicKey: Json, message: Json, requiresAuthentication: Json)

  /** `NFC(encryption_public_key, message, requires_authentication=False)` */
  function NewNfc(encryptionPublicKey: Json, message: Json,
                  requiresAuthentication: Json := JBool(false)): Nfc
  {
    Nfc(encryptionPublicKey, message, requiresAuthentication)
  }

  /** `nfc.json_dict()` */
  function NfcJson(n: Nfc): Json {
    JObject([("encryptionPublicKey", n.encryptionPublicKey), ("message", n.message),
             ("requiresAuthentication", n.requiresAuthentication)])
  }

  /** The emitted payload holds the arguments unchanged, in parameter order. */
  lemma NewNfcLayout(encryptionPublicKey: Json, message: Json, requiresAuthentication: Json)
    ensures var j := NfcJson(NewNfc(encryptionPublicKey, message, requiresAuthentication));
      && ObjectKeys(j) == ["encryptionPublicKey", "message", "requiresAuthentication"]
      && Member(j, "encryptionPublicKey") == Some(encryptionPublicKey)
      && Member(j, "message") == Some(message)
      && Member(j, "requiresAuthentication") == Some(requiresAuthentication)
  {
    var m := NfcJson(NewNfc(encryptionPublicKey, message, requiresAuthentication)).members;
    assert Keys(m) == ["encryptionPublicKey", "message", "requiresAuthentication"];
    GetAt(m, 0);
    GetAt(m, 1);
    GetAt(m, 2);
  }

  /** Authentication is not required unless asked for. */
  lemma NfcDefaultNoAuthentication(encryptionPublicKey: Json, message: Json)
    ensures Member(NfcJson(NewNfc(encryptionPublicKey, message)), "requiresAuthentication")
         == Some(JBool(false))
  {
    NewNfcLayout(encryptionPublicKey, message, JBool(false));
  }
}
