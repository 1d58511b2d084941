/**
  * The Push chat hooks (`usePushHooks`): the send-message envelope codec, the credential bundle every
  * SDK call starts from, and the request records and error wrapping of approve, reject and the two
  * decryption helpers. Every `PushAPI.chat.*` call is a parameter: a function from the request record to
  * the value the call resolves to, or the value it throws.
  */
module Push {
  import opened Wrappers
  import opened PushTypes

  /** The type of a message's content: any SDK message type except REACTION and REPLY. */
  type ContentType = t: string | t != REACTION && t != REPLY witness TEXT

  /** The optional kind of a send intent: REACTION or REPLY. */
  type IntentType = t: string | t == REACTION || t == REPLY witness REACTION

  datatype MessageContent = MessageContent(content: string, contentType: ContentType)

  /**
    * The argument of the send mutation. `reference` is an optional string: `Undefined` when the caller
    * leaves it out, and whatever the caller passed otherwise (the card passes `message.link!`, which may be
    * `null` at run time).
    */
  datatype SendIntent = SendIntent(content: MessageContent, reference: Value, intentType: Option<IntentType>)

  /** State the hooks read from the stores and the wallet, with both profile ids already resolved to accounts. */
  datatype Hooks = Hooks(
    account: Value,
    recipientAccount: Value,
    env: string,
    pgpPrivateKey: Value,
    signer: Value,
    connectedProfile: Value)

  /**
    * The hook's set-up: the session account and the recipient account come from the same (unknown)
    * profile-to-account resolver, applied to the current profile's id and to the recipient profile's id.
    */
  function UsePushHooks(
    accountOf: Option<string> -> Value,
    currentProfileId: Option<string>,
    recipientProfileId: Option<string>,
    env: string,
    pgpPrivateKey: Value,
    signer: Value,
    connectedProfile: Value): (h: Hooks)
    ensures h.account == accountOf(currentProfileId) && h.recipientAccount == accountOf(recipientProfileId)
    ensures currentProfileId == recipientProfileId ==> h.account == h.recipientAccount
    ensures h.env == env && h.pgpPrivateKey == pgpPrivateKey && h.signer == signer
    ensures h.connectedProfile == connectedProfile
  {
    Hooks(accountOf(currentProfileId), accountOf(recipientProfileId), env, pgpPrivateKey, signer, connectedProfile)
  }

  const BASE_KEYS: set<string> := {"account", "env", "pgpPrivateKey", "signer"}

  /**
    * The credential bundle. The private key and the signer are copied as they are: there is no check that
    * they are present.
    */
  function BaseConfig(h: Hooks): (config: map<string, Value>)
    ensures config.Keys == BASE_KEYS
    ensures config["account"] == h.account && config["env"] == Str(h.env)
    ensures config["pgpPrivateKey"] == h.pgpPrivateKey && config["signer"] == h.signer
  {
    map["account" := h.account, "env" := Str(h.env), "pgpPrivateKey" := h.pgpPrivateKey, "signer" := h.signer]
  }

  // ---------------------------------------------------------------------------------------------------
  // Send: the envelope codec

  const DEFAULT_KEY := "default"

  /** `message.type ?? 'default'` */
  function LookupKey(t: Option<IntentType>): string
  {
    match t
    case None => DEFAULT_KEY
    case Some(k) => k
  }

  /** The object literal of the three envelope shapes, keyed as in the source. */
  function MessageTypesMap(m: SendIntent): (table: map<string, Value>)
    ensures table.Keys == {DEFAULT_KEY, REACTION, REPLY}
  {
    var text := Str(m.content.content);
    var contentType := Str(m.content.contentType);
    map[
      DEFAULT_KEY := Obj(map["message" := Obj(map["content" := text, "type" := contentType])]),
      REACTION := Obj(map[
        "message" := Obj(map["content" := text, "reference" := m.reference]),
        "messageType" := Str(REACTION)]),
      REPLY := Obj(map[
        "message" := Obj(map[
          "content" := Obj(map["content" := text, "type" := contentType]),
          "reference" := m.reference,
          "type" := Str(REPLY)])])
    ]
  }

  /**
    * The envelope chosen for an intent. Without a type it is the plain message and carries no
    * `messageType` (and any reference is dropped); a reaction keeps the text and the reference but drops
    * the content type; a reply nests the typed content one level down and marks the message itself.
    */
  function ComputedMessage(m: SendIntent): (envelope: Value)
    ensures m.intentType.None? ==>
      Keys(envelope) == {"message"} &&
      Keys(Get(envelope, "message")) == {"content", "type"} &&
      At(envelope, ["message", "content"]) == Str(m.content.content) &&
      At(envelope, ["message", "type"]) == Str(m.content.contentType)
    ensures m.intentType == Some(REACTION) ==>
      Keys(envelope) == {"message", "messageType"} &&
      Get(envelope, "messageType") == Str(REACTION) &&
      Keys(Get(envelope, "message")) == {"content", "reference"} &&
      At(envelope, ["message", "content"]) == Str(m.content.content) &&
      At(envelope, ["message", "reference"]) == m.reference
    ensures m.intentType == Some(REPLY) ==>
      Keys(envelope) == {"message"} &&
      Keys(Get(envelope, "message")) == {"content", "reference", "type"} &&
      Keys(At(envelope, ["message", "content"])) == {"content", "type"} &&
      At(envelope, ["message", "content", "content"]) == Str(m.content.content) &&
      At(envelope, ["message", "content", "type"]) == Str(m.content.contentType) &&
      At(envelope, ["message", "reference"]) == m.reference &&
      At(envelope, ["message", "type"]) == Str(REPLY)
  {
    var table := MessageTypesMap(m);
    table[LookupKey(m.intentType)]
  }

  /** The path at which an envelope carries the user's text. */
  function ContentPath(t: Option<IntentType>): seq<string>
  {
    if t == Some(REPLY) then ["message", "content", "content"] else ["message", "content"]
  }

  /** Every envelope carries the user's text unchanged, and an envelope names at most the two keys the SDK reads. */
  lemma ContentCarriedVerbatim(m: SendIntent)
    ensures At(ComputedMessage(m), ContentPath(m.intentType)) == Str(m.content.content)
    ensures Keys(ComputedMessage(m)) <= {"message", "messageType"}
    ensures m.intentType.Some? ==> At(ComputedMessage(m), ["message", "reference"]) == m.reference
  {
  }

  /** An envelope shares no key with the credential bundle or with `to`. */
  lemma EnvelopeKeys(m: SendIntent)
    ensures Keys(ComputedMessage(m)) !! BASE_KEYS
    ensures "to" !in Keys(ComputedMessage(m))
  {
  }

  /** `{...getBaseConfig(), ...computedMessage, to: recepientAccount}` */
  function SendRequest(h: Hooks, m: SendIntent): (request: Value)
    ensures request.Obj?
    ensures Keys(request) == BASE_KEYS + Keys(ComputedMessage(m)) + {"to"}
    ensures forall k :: k in BASE_KEYS ==> Get(request, k) == BaseConfig(h)[k]
    ensures forall k :: k in Keys(ComputedMessage(m)) ==> Get(request, k) == Get(ComputedMessage(m), k)
    ensures Get(request, "to") == h.recipientAccount
  {
    var base, envelope := BaseConfig(h), Fields(ComputedMessage(m));
    EnvelopeKeys(m);
    Obj(Spread(Spread(base, envelope), map["to" := h.recipientAccount]))
  }

  /**
    * The send mutation. It has no try/catch: whatever the SDK throws reaches the caller unchanged, and
    * what it resolves to is returned as it is.
    */
  function SendMessage(h: Hooks, m: SendIntent, send: Value -> Result<Value, Value>): (r: Result<Value, Value>)
    ensures r == send(SendRequest(h, m))
  {
    send(SendRequest(h, m))
  }

  /** A failed send reaches the caller with the SDK's own error, unlike the rethrowing wrappers below. */
  lemma SendFailureKeepsCause(h: Hooks, m: SendIntent, send: Value -> Result<Value, Value>)
    ensures var answer := send(SendRequest(h, m));
      answer.Failure? ==> SendMessage(h, m, send) == Failure(answer.error)
  {
  }

  /** Two sends that fail with different errors stay distinguishable to the caller. */
  lemma SendCausesDistinguished(
    h: Hooks, m: SendIntent, first: Value -> Result<Value, Value>, second: Value -> Result<Value, Value>)
    ensures var a, b := first(SendRequest(h, m)), second(SendRequest(h, m));
      a.Failure? && b.Failure? && a.error != b.error ==> SendMessage(h, m, first) != SendMessage(h, m, second)
  {
  }

  // ---------------------------------------------------------------------------------------------------
  // try { ... } catch { throw new Error(message) }

  /** A call wrapped in a try/catch that rethrows a fixed error. */
  function Rethrow<T>(outcome: Result<T, Value>, message: string): (r: Result<T, Value>)
    ensures outcome.Success? ==> r == outcome
    ensures outcome.Failure? ==> r == Failure(ErrorObj(message))
  {
    match outcome
    case Success(_) => outcome
    case Failure(_) => Failure(ErrorObj(message))
  }

  /** Two calls that fail differently are indistinguishable after the rethrow: the cause is discarded. */
  lemma CauseDiscarded<T>(first: Result<T, Value>, second: Result<T, Value>, message: string)
    requires first.Failure? && second.Failure?
    ensures Rethrow(first, message) == Rethrow(second, message)
  {
  }

  // ---------------------------------------------------------------------------------------------------
  // Approve and reject a chat request

  const APPROVE_FAILED := "Failed to approve user"
  const REJECT_FAILED := "Failed to reject user"
  const DECRYPT_KEY_FAILED := "Failed to decrypt PGP key"
  const DECRYPT_CONVERSATION_FAILED := "Failed to decrypt conversation"

  /** The approval names the recipient as the sender of the request and sets the status to 'Approved'. */
  function ApproveRequest(h: Hooks): (request: Value)
    ensures Keys(request) == BASE_KEYS + {"senderAddress", "status"}
    ensures forall k :: k in BASE_KEYS ==> Get(request, k) == BaseConfig(h)[k]
    ensures Get(request, "senderAddress") == h.recipientAccount
    ensures Get(request, "status") == Str("Approved")
  {
    Obj(Spread(BaseConfig(h), map["senderAddress" := h.recipientAccount, "status" := Str("Approved")]))
  }

  /** The rejection names the recipient as the sender of the request and carries no status. */
  function RejectRequest(h: Hooks): (request: Value)
    ensures Keys(request) == BASE_KEYS + {"senderAddress"}
    ensures forall k :: k in BASE_KEYS ==> Get(request, k) == BaseConfig(h)[k]
    ensures Get(request, "senderAddress") == h.recipientAccount
    ensures Get(request, "status") == Undefined
  {
    Obj(Spread(BaseConfig(h), map["senderAddress" := h.recipientAccount]))
  }

  /** The approve mutation resolves to nothing, and any failure becomes the fixed approval error. */
  function ApproveUser(h: Hooks, approve: Value -> Result<Value, Value>): (r: Result<(), Value>)
    ensures r.Success? <==> approve(ApproveRequest(h)).Success?
    ensures r.Failure? ==> r.error == ErrorObj(APPROVE_FAILED)
  {
    match Rethrow(approve(ApproveRequest(h)), APPROVE_FAILED)
    case Success(_) => Success(())
    case Failure(e) => Failure(e)
  }

  /** The reject mutation resolves to nothing, and any failure becomes the fixed rejection error. */
  function RejectUser(h: Hooks, reject: Value -> Result<Value, Value>): (r: Result<(), Value>)
    ensures r.Success? <==> reject(RejectRequest(h)).Success?
    ensures r.Failure? ==> r.error == ErrorObj(REJECT_FAILED)
  {
    match Rethrow(reject(RejectRequest(h)), REJECT_FAILED)
    case Success(_) => Success(())
    case Failure(e) => Failure(e)
  }

  // ---------------------------------------------------------------------------------------------------
  // Decryption helpers

  /**
    * The key-decryption request. The explicit `account` argument overrides the session's account, and the
    * password travels under `additionalMeta.NFTPGP_V1.password`.
    */
  function DecryptKeyRequest(h: Hooks, password: string, account: string, encryptedKey: string): (request: Value)
    ensures Keys(request) == BASE_KEYS + {"additionalMeta", "encryptedPGPPrivateKey"}
    ensures Get(request, "account") == Str(account)
    ensures Get(request, "env") == Str(h.env)
    ensures Get(request, "pgpPrivateKey") == h.pgpPrivateKey && Get(request, "signer") == h.signer
    ensures At(request, ["additionalMeta", "NFTPGP_V1", "password"]) == Str(password)
    ensures Get(request, "encryptedPGPPrivateKey") == Str(encryptedKey)
  {
    Obj(Spread(BaseConfig(h), map[
      "account" := Str(account),
      "additionalMeta" := Obj(map["NFTPGP_V1" := Obj(map["password" := Str(password)])]),
      "encryptedPGPPrivateKey" := Str(encryptedKey)]))
  }

  /** Resolves to the SDK's answer as it is; any failure becomes the fixed key-decryption error. */
  function DecryptPGPKey(
    h: Hooks, password: string, account: string, encryptedKey: string,
    decryptKey: Value -> Result<Value, Value>): (r: Result<Value, Value>)
    ensures var answer := decryptKey(DecryptKeyRequest(h, password, account, encryptedKey));
      (answer.Success? ==> r == answer) &&
      (answer.Failure? ==> r == Failure(ErrorObj(DECRYPT_KEY_FAILED)))
  {
    Rethrow(decryptKey(DecryptKeyRequest(h, password, account, encryptedKey)), DECRYPT_KEY_FAILED)
  }

  /** The conversation-decryption request: the connected profile and a one-element list holding the message. */
  function DecryptConversationRequest(h: Hooks, message: ChatMessage): (request: Value)
    ensures Keys(request) == BASE_KEYS + {"connectedUser", "messages"}
    ensures forall k :: k in BASE_KEYS ==> Get(request, k) == BaseConfig(h)[k]
    ensures Get(request, "connectedUser") == h.connectedProfile
    ensures Get(request, "messages") == Arr([Msg(message)])
  {
    Obj(Spread(BaseConfig(h), map["connectedUser" := h.connectedProfile, "messages" := Arr([Msg(message)])]))
  }

  /**
    * Decrypts one message: the first element of the SDK's answer, `None` standing for the `undefined` that
    * `response[0]` yields on an empty answer. Any failure becomes the fixed conversation-decryption error.
    */
  function DecryptConversation(
    h: Hooks, message: ChatMessage,
    decrypt: Value -> Result<seq<ChatMessage>, Value>): (r: Result<Option<ChatMessage>, Value>)
    ensures var answer := decrypt(DecryptConversationRequest(h, message));
      (answer.Failure? <==> r.Failure?) &&
      (r.Failure? ==> r.error == ErrorObj(DECRYPT_CONVERSATION_FAILED)) &&
      (answer.Success? && answer.value != [] ==> r == Success(Some(answer.value[0]))) &&
      (answer.Success? && answer.value == [] ==> r == Success(None))
  {
    match Rethrow(decrypt(DecryptConversationRequest(h, message)), DECRYPT_CONVERSATION_FAILED)
    case Failure(e) => Failure(e)
    case Success(response) => Success(if |response| > 0 then Some(response[0]) else None)
  }
}
