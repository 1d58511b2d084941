/**
  * The chat socket (`usePushSocket`): the connection options and the handler of CHAT_RECEIVED_MESSAGE.
  *
  * The handler's observable behaviour is the sequence of calls it makes into the rest of the client:
  * writing the chat store (`setRecipientChat`), sending a notification, and logging a caught error. The
  * listener keeps that sequence as its trace.
  */
module PushSocket {
  import opened Wrappers
  import opened PushTypes
  import Push

  /** A call the handler makes into the rest of the client. */
  datatype Effect =
    | SetRecipientChat(message: ChatMessage)
    | SendNotification(text: string)
    | ConsoleLog(error: Value)

  /**
    * What the socket depends on: the stores' state (the current and the recipient profile's ids, the private
    * key, the signer and the connected profile), the (unknown) profile-to-account and DID-to-profile-id
    * helpers, and the SDK's conversation decryption. The DID helper may answer `undefined` (`None`).
    */
  datatype SocketDeps = SocketDeps(
    accountOf: Option<string> -> Value,
    currentProfileId: Option<string>,
    recipientProfileId: Option<string>,
    env: string,
    pgpPrivateKey: Value,
    signer: Value,
    connectedProfile: Value,
    decrypt: Value -> Result<seq<ChatMessage>, Value>,
    profileIdOfDID: string -> Option<string>)
  {
    /** The hooks the socket calls `usePushHooks()` for: they read the same current profile as the socket. */
    function PushHooks(): Push.Hooks
    {
      Push.UsePushHooks(accountOf, currentProfileId, recipientProfileId, env, pgpPrivateKey, signer, connectedProfile)
    }
  }

  /** What reading `.fromDID` of `undefined` throws. */
  const UNDEFINED_FROM_DID := ErrorObj("Cannot read properties of undefined (reading 'fromDID')")

  /** `New Message from ${profileID}`: an undefined profile id is spelled out as "undefined". */
  function NotificationText(profileId: Option<string>): string
  {
    "New Message from " + match profileId case Some(p) => p case None => "undefined"
  }

  /**
    * `profileID === currentProfile?.id`. Two undefined ids are equal, so a sender the helper cannot
    * resolve counts as an echo when there is no current profile.
    */
  predicate IsSelfEcho(profileId: Option<string>, currentProfileId: Option<string>)
  {
    profileId == currentProfileId
  }

  /** `{env, socketOptions: {autoConnect: false, reconnectionAttempts: 3}, socketType: 'chat', user}` */
  function ConnectionOptions(env: string, user: Value): (options: Value)
    ensures Keys(options) == {"env", "socketOptions", "socketType", "user"}
    ensures Get(options, "user") == user && Get(options, "env") == Str(env)
    ensures At(options, ["socketOptions", "autoConnect"]) == Bool(false)
    ensures At(options, ["socketOptions", "reconnectionAttempts"]) == Num(3)
    ensures Get(options, "socketType") == Str("chat")
  {
    Obj(map[
      "env" := Str(env),
      "socketOptions" := Obj(map["autoConnect" := Bool(false), "reconnectionAttempts" := Num(3)]),
      "socketType" := Str("chat"),
      "user" := user])
  }

  /**
    * The calls one CHAT_RECEIVED_MESSAGE event causes, every thrown error ending in the catch block's log.
    * In terms of the SDK's answer: a failure is logged as the fixed decryption error (its cause is lost),
    * an empty answer as the failed read of `.fromDID`; otherwise the answer's first message is dropped
    * exactly when it is an echo, and is stored and then announced when it is not.
    */
  function HandleChatMessage(deps: SocketDeps, message: ChatMessage): (effects: seq<Effect>)
    ensures var answer := deps.decrypt(Push.DecryptConversationRequest(deps.PushHooks(), message));
      (answer.Failure? ==> effects == [ConsoleLog(ErrorObj(Push.DECRYPT_CONVERSATION_FAILED))]) &&
      (answer.Success? && answer.value == [] ==> effects == [ConsoleLog(UNDEFINED_FROM_DID)]) &&
      (answer.Success? && answer.value != [] ==>
        var profileId := deps.profileIdOfDID(answer.value[0].fromDID);
        (effects == [] <==> IsSelfEcho(profileId, deps.currentProfileId)) &&
        (!IsSelfEcho(profileId, deps.currentProfileId) ==>
          effects == [SetRecipientChat(answer.value[0]), SendNotification(NotificationText(profileId))]))
  {
    match Push.DecryptConversation(deps.PushHooks(), message, deps.decrypt)
    case Failure(e) => [ConsoleLog(e)]
    case Success(None) => [ConsoleLog(UNDEFINED_FROM_DID)]
    case Success(Some(decrypted)) =>
      var profileId := deps.profileIdOfDID(decrypted.fromDID);
      if IsSelfEcho(profileId, deps.currentProfileId) then []
      else [SetRecipientChat(decrypted), SendNotification(NotificationText(profileId))]
  }

  /** The messages written to the chat store, in order. */
  function StoreWrites(trace: seq<Effect>): seq<ChatMessage>
  {
    if trace == [] then []
    else (if trace[0].SetRecipientChat? then [trace[0].message] else []) + StoreWrites(trace[1..])
  }

  /** The notifications sent, in order. */
  function Notifications(trace: seq<Effect>): seq<string>
  {
    if trace == [] then []
    else (if trace[0].SendNotification? then [trace[0].text] else []) + Notifications(trace[1..])
  }

  /**
    * A trace the handler can produce: every store write is of a message from another profile and is
    * followed at once by the notification naming that profile, and no notification comes otherwise.
    */
  ghost predicate Wellformed(deps: SocketDeps, trace: seq<Effect>)
    decreases |trace|
  {
    if trace == [] then true
    else match trace[0]
      case ConsoleLog(_) => Wellformed(deps, trace[1..])
      case SendNotification(_) => false
      case SetRecipientChat(m) =>
        var profileId := deps.profileIdOfDID(m.fromDID);
        |trace| >= 2 &&
        !IsSelfEcho(profileId, deps.currentProfileId) &&
        trace[1] == SendNotification(NotificationText(profileId)) &&
        Wellformed(deps, trace[2..])
  }

  /** The handler's effects for one event form a well-formed trace. */
  lemma HandlerWellformed(deps: SocketDeps, message: ChatMessage)
    ensures Wellformed(deps, HandleChatMessage(deps, message))
  {
  }

  /** Well-formed traces compose: a well-formed history extended by a well-formed step stays well-formed. */
  lemma {:induction false} WellformedAppend(deps: SocketDeps, a: seq<Effect>, b: seq<Effect>)
    requires Wellformed(deps, a) && Wellformed(deps, b)
    ensures Wellformed(deps, a + b)
    decreases |a|
  {
    if a == [] {
      assert a + b == b;
    } else {
      assert (a + b)[0] == a[0];
      match a[0]
      case ConsoleLog(_) =>
        assert (a + b)[1..] == a[1..] + b;
        WellformedAppend(deps, a[1..], b);
      case SetRecipientChat(_) =>
        assert (a + b)[1] == a[1];
        assert (a + b)[2..] == a[2..] + b;
        WellformedAppend(deps, a[2..], b);
    }
  }

  /**
    * In a well-formed trace there are exactly as many notifications as store writes, and no message
    * written to the store comes from the current profile.
    */
  lemma {:induction false} WellformedCounts(deps: SocketDeps, trace: seq<Effect>)
    requires Wellformed(deps, trace)
    ensures |StoreWrites(trace)| == |Notifications(trace)|
    ensures forall m :: m in StoreWrites(trace) ==>
      !IsSelfEcho(deps.profileIdOfDID(m.fromDID), deps.currentProfileId)
    decreases |trace|
  {
    if trace != [] {
      match trace[0]
      case ConsoleLog(_) =>
        WellformedCounts(deps, trace[1..]);
      case SetRecipientChat(m) =>
        var later := trace[2..];
        WellformedCounts(deps, later);
        assert trace[1..][1..] == later;
        assert StoreWrites(trace[1..]) == StoreWrites(later);
        assert StoreWrites(trace) == [m] + StoreWrites(later);
        assert Notifications(trace[1..]) == [trace[1].text] + Notifications(later);
        assert Notifications(trace) == Notifications(trace[1..]);
    }
  }

  /** A message that decrypts to one from the current profile leaves the store and the notifications alone. */
  lemma SelfEchoSuppressed(deps: SocketDeps, message: ChatMessage, decrypted: ChatMessage)
    requires Push.DecryptConversation(deps.PushHooks(), message, deps.decrypt) == Success(Some(decrypted))
    requires IsSelfEcho(deps.profileIdOfDID(decrypted.fromDID), deps.currentProfileId)
    ensures HandleChatMessage(deps, message) == []
  {
  }

  /**
    * A message from anybody else is written to the store exactly once and announced exactly once, the
    * write first.
    */
  lemma DeliveredOnce(deps: SocketDeps, message: ChatMessage, decrypted: ChatMessage)
    requires Push.DecryptConversation(deps.PushHooks(), message, deps.decrypt) == Success(Some(decrypted))
    requires !IsSelfEcho(deps.profileIdOfDID(decrypted.fromDID), deps.currentProfileId)
    ensures var effects := HandleChatMessage(deps, message);
      |effects| == 2 && StoreWrites(effects) == [decrypted] &&
      Notifications(effects) == [NotificationText(deps.profileIdOfDID(decrypted.fromDID))] &&
      effects[0] == SetRecipientChat(decrypted) && effects[1].SendNotification?
  {
    var text := NotificationText(deps.profileIdOfDID(decrypted.fromDID));
    var effects := HandleChatMessage(deps, message);
    assert effects == [SetRecipientChat(decrypted), SendNotification(text)];
    assert effects[1..][1..] == [];
    assert StoreWrites(effects[1..]) == [] && Notifications(effects[1..]) == [text];
  }

  /** A message that cannot be decrypted, or decrypts to nothing, only gets logged. */
  lemma UndecryptableDropped(deps: SocketDeps, message: ChatMessage)
    requires Push.DecryptConversation(deps.PushHooks(), message, deps.decrypt).Failure? ||
             Push.DecryptConversation(deps.PushHooks(), message, deps.decrypt).value.None?
    ensures var effects := HandleChatMessage(deps, message);
      |effects| == 1 && effects[0].ConsoleLog? &&
      StoreWrites(effects) == [] && Notifications(effects) == []
  {
  }

  /**
    * The socket connects as the account the handler's decryption requests are made for: both are the
    * resolver's account for the current profile.
    */
  lemma SocketUserIsSessionAccount(deps: SocketDeps, message: ChatMessage)
    ensures Get(ConnectionOptions(deps.env, deps.accountOf(deps.currentProfileId)), "user") ==
      Get(Push.DecryptConversationRequest(deps.PushHooks(), message), "account")
    ensures Get(ConnectionOptions(deps.env, deps.accountOf(deps.currentProfileId)), "env") ==
      Get(Push.DecryptConversationRequest(deps.PushHooks(), message), "env")
  {
  }

  class ChatSocketListener {
    const deps: SocketDeps
    /** The options the connection is created with, for the current profile's account. */
    const connectionOptions: Value
    /** Every call the handler has made, in order. */
    var trace: seq<Effect>

    ghost predicate Valid()
      reads this
    {
      Wellformed(deps, trace)
    }

    /**
      * Creates the (not yet connected) socket for the current profile's account and registers the handler:
      * the socket's user is the account every request of the handler's hooks is made for.
      */
    constructor (deps: SocketDeps)
      ensures this.deps == deps && Valid() && trace == []
      ensures connectionOptions == ConnectionOptions(deps.env, deps.accountOf(deps.currentProfileId))
      ensures Get(connectionOptions, "user") == Push.BaseConfig(deps.PushHooks())["account"]
    {
      this.deps := deps;
      var user := deps.accountOf(deps.currentProfileId);
      connectionOptions := ConnectionOptions(deps.env, user);
      trace := [];
    }

    /** The CHAT_RECEIVED_MESSAGE handler. It never throws: every failure ends in the catch block's log. */
    method OnChatReceivedMessage(message: ChatMessage)
      requires Valid()
      modifies this
      ensures Valid()
      ensures trace == old(trace) + HandleChatMessage(deps, message)
    {
      HandlerWellformed(deps, message);
      WellformedAppend(deps, trace, HandleChatMessage(deps, message));
      ghost var next := trace + HandleChatMessage(deps, message);
      var decrypted := Push.DecryptConversation(deps.PushHooks(), message, deps.decrypt);
      if decrypted.Failure? {
        trace := trace + [ConsoleLog(decrypted.error)];
        assert trace == next;
        return;
      }
      if decrypted.value.None? {
        trace := trace + [ConsoleLog(UNDEFINED_FROM_DID)];
        assert trace == next;
        return;
      }
      var received := decrypted.value.value;
      var profileId := deps.profileIdOfDID(received.fromDID);
      if IsSelfEcho(profileId, deps.currentProfileId) {
        return;
      }
      trace := trace + [SetRecipientChat(received)];
      trace := trace + [SendNotification(NotificationText(profileId))];
      assert trace == next;
    }
  }
}
