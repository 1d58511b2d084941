/**
  * One chat message on screen (`Message` in the Push message card): where it sits (its origin), whether it
  * is shown as text or as an attachment, the reaction it sends, the reply target it sets, and the two
  * visibility flags of its action buttons and reaction picker.
  */
module MessageCard {
  import opened Wrappers
  import opened PushTypes
  import Push
  import PushSocket

  /** The origin names as the card has them: `Receiver` is the side of the current profile's own messages. */
  datatype MessageOrigin = Receiver | Sender

  /**
    * `getProfileIdFromDID(message.fromDID) !== currentProfile?.id ? Sender : Receiver`: a message is on the
    * `Receiver` side exactly when the socket would take it for an echo of the current profile.
    */
  function Origin(message: ChatMessage, currentProfileId: Option<string>, profileIdOfDID: string -> Option<string>): (origin: MessageOrigin)
    ensures origin == Receiver <==> PushSocket.IsSelfEcho(profileIdOfDID(message.fromDID), currentProfileId)
    ensures currentProfileId.Some? && profileIdOfDID(message.fromDID).None? ==> origin == Sender
  {
    if profileIdOfDID(message.fromDID) != currentProfileId then Sender else Receiver
  }

  /**
    * The card and the socket draw the same line: a decrypted message is shown on the `Receiver` side
    * exactly when the socket discards it as an echo of the current profile's own message, and every
    * message the socket writes to the store is shown on the `Sender` side.
    */
  lemma OriginMatchesEchoSuppression(deps: PushSocket.SocketDeps, message: ChatMessage, decrypted: ChatMessage)
    requires Push.DecryptConversation(deps.PushHooks(), message, deps.decrypt) == Success(Some(decrypted))
    ensures Origin(decrypted, deps.currentProfileId, deps.profileIdOfDID) == Receiver <==>
      PushSocket.HandleChatMessage(deps, message) == []
    ensures Origin(decrypted, deps.currentProfileId, deps.profileIdOfDID) == Sender <==>
      PushSocket.StoreWrites(PushSocket.HandleChatMessage(deps, message)) == [decrypted]
  {
    if PushSocket.IsSelfEcho(deps.profileIdOfDID(decrypted.fromDID), deps.currentProfileId) {
      PushSocket.SelfEchoSuppressed(deps, message, decrypted);
    } else {
      PushSocket.DeliveredOnce(deps, message, decrypted);
    }
  }

  /** What the card renders inside the message wrapper. */
  datatype Body = TextCard(text: string) | AttachmentView(attachment: ChatMessage)

  /** `message.messageType === 'Text'` selects the text card, every other type the attachment view. */
  function BodyOf(message: ChatMessage): (body: Body)
    ensures body.TextCard? <==> message.messageType == TEXT
    ensures body.TextCard? ==> body.text == message.messageContent
    ensures body.AttachmentView? ==> body.attachment == message
  {
    if message.messageType == TEXT then TextCard(message.messageContent) else AttachmentView(message)
  }

  /** The wrapper's `isAttachment` flag: set for every type but 'Text'. */
  function IsAttachment(message: ChatMessage): (attachment: bool)
    ensures attachment <==> message.messageType != TEXT
  {
    message.messageType != TEXT
  }

  /**
    * The wrapper flag and the chosen body agree: a message is drawn as text, with its content, exactly when
    * its type is 'Text' and the wrapper is told it is not an attachment.
    */
  lemma BodyMatchesWrapper(message: ChatMessage)
    ensures BodyOf(message).TextCard? <==> !IsAttachment(message)
    ensures BodyOf(message).TextCard? <==> message.messageType == TEXT
    ensures BodyOf(message).TextCard? ==> BodyOf(message).text == message.messageContent
    ensures BodyOf(message).AttachmentView? ==> BodyOf(message).attachment == message
  {
  }

  /** `message.link!`: the non-null assertion changes nothing at run time, so a missing link is `null`. */
  function LinkValue(link: Option<string>): Value
  {
    match link
    case Some(l) => Str(l)
    case None => Null
  }

  /**
    * The intent sent when a reaction is picked: the picked value as 'Text' content, the REACTION kind, and
    * the message's link as the reference (`null` when the message has none).
    */
  function ReactionIntent(value: string, message: ChatMessage): (intent: Push.SendIntent)
    ensures intent.intentType == Some(REACTION)
    ensures intent.content.content == value && intent.content.contentType == TEXT
    ensures intent.reference == (if message.link.Some? then Str(message.link.value) else Null)
  {
    Push.SendIntent(Push.MessageContent(value, TEXT), LinkValue(message.link), Some(REACTION))
  }

  /** A reaction envelope as the SDK receives it: the picked value and the reacted-to link, marked REACTION. */
  function ReactionEnvelope(value: string, reference: Value): Value
  {
    Obj(map[
      "message" := Obj(map["content" := Str(value), "reference" := reference]),
      "messageType" := Str(REACTION)])
  }

  /** Picking a reaction sends exactly the reaction envelope for the message's link. */
  lemma ReactionIntentEncoding(value: string, message: ChatMessage)
    ensures Push.ComputedMessage(ReactionIntent(value, message)) == ReactionEnvelope(value, LinkValue(message.link))
  {
  }

  /** The chat store's reply target (`replyToMessage`). */
  class ChatStore {
    var replyToMessage: Option<ChatMessage>

    constructor ()
      ensures replyToMessage == None
    {
      replyToMessage := None;
    }
  }

  class MessageView {
    const message: ChatMessage
    var showChatActions: bool
    var showReactions: bool
    /** The intents handed to the send mutation, in order. */
    var sent: seq<Push.SendIntent>

    constructor (message: ChatMessage)
      ensures this.message == message && !showChatActions && !showReactions && sent == []
    {
      this.message := message;
      showChatActions := false;
      showReactions := false;
      sent := [];
    }

    method MouseEnter()
      modifies this`showChatActions
      ensures showChatActions && showReactions == old(showReactions)
    {
      showChatActions := true;
    }

    method MouseLeave()
      modifies this`showChatActions
      ensures !showChatActions && showReactions == old(showReactions)
    {
      showChatActions := false;
    }

    /** The reply action makes this message the store's reply target. */
    method Reply(store: ChatStore)
      modifies store
      ensures store.replyToMessage == Some(message)
    {
      store.replyToMessage := Some(message);
    }

    /** The smiley action opens the reaction picker and hides the action buttons. */
    method OpenReactions()
      modifies this`showChatActions, this`showReactions
      ensures showReactions && !showChatActions
    {
      showReactions := true;
      showChatActions := false;
    }

    /** Closing the picker (it is only on screen while `showReactions` holds) brings the action buttons back. */
    method CloseReactions()
      requires showReactions
      modifies this`showChatActions, this`showReactions
      ensures !showReactions && showChatActions
    {
      showReactions := false;
      showChatActions := true;
    }

    /**
      * Picking a reaction in the open picker sends the reaction intent (whose envelope is the reaction
      * envelope for this message's link), closes the picker and brings the action buttons back.
      */
    method ChooseReaction(value: string) returns (intent: Push.SendIntent)
      requires showReactions
      modifies this`showChatActions, this`showReactions, this`sent
      ensures intent == ReactionIntent(value, message)
      ensures Push.ComputedMessage(intent) == ReactionEnvelope(value, LinkValue(message.link))
      ensures sent == old(sent) + [intent]
      ensures !showReactions && showChatActions
    {
      intent := Push.SendIntent(Push.MessageContent(value, TEXT), LinkValue(message.link), Some(REACTION));
      ReactionIntentEncoding(value, message);
      sent := sent + [intent];
      showReactions := false;
      showChatActions := true;
    }
  }
}
