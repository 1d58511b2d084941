# Push chat core of the Hey web client, in Dafny

This project models the end-to-end-encrypted chat glue of the Hey web client (`apps/web`), plus two pure
helpers from its UI components:

- **Send-message codec and SDK requests** (`Push`, from `usePush.ts`). A send intent (content text, content
  type, optional reference, optional REACTION/REPLY kind) is mapped to one of three envelope shapes.
  The mapping is an object-literal lookup keyed by `type ?? 'default'`. The envelope is then merged with
  the credential bundle (`getBaseConfig`) and the recipient account. The approve, reject and
  key/conversation decryption wrappers are modelled as request records handed to the SDK, with the
  try/catch that replaces any failure by a fixed error.
- **Inbound chat event handler** (`PushSocket`, from `usePushSocket.ts`). A listener class keeps the
  sequence of calls the handler makes: store writes, notifications and logged errors. Its method
  `OnChatReceivedMessage` appends exactly the effects of one event. The effects are: decrypt, map the
  sender DID to a profile id, drop echoes of the current profile, otherwise write the store and then
  notify, and swallow every error. An invariant over the whole trace says that every store write is
  followed at once by its notification and never carries the current profile's own message.
- **Shared-link post text** (`Composer`, from `New.tsx`). The content is built from the `text`,
  `hashtags`, `url` and `via` query values. The model also covers the suspension guard of `openModal`
  and the `useUpdateEffect` that runs when `isReady` changes.
- **Message card** (`MessageCard`, from `Card.tsx`). It covers the sender/receiver origin, the
  text-or-attachment choice, the reaction intent and its envelope, the reply target, and the
  `showChatActions`/`showReactions` flags.

JavaScript objects are modelled as `Value.Obj(map<string, Value>)`. Object spread `{...a, ...b}` is map
union where `b` wins, and a missing property reads as `Undefined`. This lets the model state key sets
("no `messageType` key") literally. Each SDK call (`PushAPI.chat.*`) is a function parameter: it takes the
request record and returns `Success(value)` or `Failure(thrown value)`. The two profile helpers
`getAccountFromProfile` and `getProfileIdFromDID` are function parameters too. `getProfileIdFromDID` may
answer `undefined` (`None`). Both are taken to be deterministic and never to throw, and they are not
assumed to be inverses. The socket's dependencies name the current profile once: its account, the
hooks it decrypts with, and the echo test are all derived from that one id.

Where the code does less than such a client might be expected to, the model follows the code:

- There is no decode direction and no round-trip law for envelopes.
- A REACTION or REPLY intent without a reference is not rejected: the envelope carries `undefined`.
- The credential bundle copies the private key and the signer even when they are absent. There is no
  not-authenticated failure.
- The send mutation has no try/catch. An SDK failure reaches the caller unchanged instead of becoming a
  fixed "send failed" error.
- Reconnection is only the option `reconnectionAttempts: 3` handed to the socket library. There is no
  connection state machine in this code.
- `decryptConversation` returns `response[0]`. An empty answer therefore yields `undefined`, and the
  handler's read of `.fromDID` throws and is logged.

## Model

| member | source | states |
|---|---|---|
| `Push.UsePushHooks` | apps/web/src/hooks/messaging/push/usePush.ts:12-19 | the session account and the recipient account come from the same resolver, applied to the current and the recipient profile's id (so they coincide when the ids do); env, key, signer and connected profile are taken as read |
| `Push.BaseConfig` | apps/web/src/hooks/messaging/push/usePush.ts:21-28 | the credential bundle has exactly the keys account, env, pgpPrivateKey and signer, holding the session account, the env, and the private key and signer exactly as read, even when undefined |
| `Push.MessageTypesMap` | apps/web/src/hooks/messaging/push/usePush.ts:73-97 | the lookup table has exactly the keys 'default', REACTION and REPLY, so every `type ?? 'default'` finds an entry |
| `Push.ComputedMessage` | apps/web/src/hooks/messaging/push/usePush.ts:73-99 | no type: `{message:{content,type}}` with no messageType; REACTION: `{message:{content,reference}, messageType:REACTION}` without the content type; REPLY: `{message:{content:{content,type}, reference, type:REPLY}}` with no top-level messageType |
| `Push.ContentCarriedVerbatim` | apps/web/src/hooks/messaging/push/usePush.ts:76-93 | every envelope holds the user's text unchanged at its content path; REACTION and REPLY hold the reference verbatim, even when it is undefined or null |
| `Push.EnvelopeKeys` | apps/web/src/hooks/messaging/push/usePush.ts:101-105 | an envelope shares no key with the credential bundle or with `to`, so the spread cannot overwrite credentials |
| `Push.SendRequest` | apps/web/src/hooks/messaging/push/usePush.ts:101-105 | the send request is the credential bundle, plus the envelope's keys with their values, plus `to` = recipient account, and nothing else |
| `Push.SendFailureKeepsCause` | apps/web/src/hooks/messaging/push/usePush.ts:99-106 | a send the SDK rejects fails with the SDK's own error (no try/catch), unlike approve, reject and the decryptions |
| `Push.SendCausesDistinguished` | apps/web/src/hooks/messaging/push/usePush.ts:99-106 | two sends failing with different errors give the caller different failures, the contrast to `CauseDiscarded` |
| `Push.Rethrow` | apps/web/src/hooks/messaging/push/usePush.ts:124-126 | success passes through unchanged; any failure becomes `new Error(message)` |
| `Push.CauseDiscarded` | apps/web/src/hooks/messaging/push/usePush.ts:39-41 | two failures with different causes give the same rethrown error |
| `Push.ApproveRequest` | apps/web/src/hooks/messaging/push/usePush.ts:34-38 | the approval is the credential bundle plus senderAddress = recipient account and status 'Approved', nothing else |
| `Push.RejectRequest` | apps/web/src/hooks/messaging/push/usePush.ts:51-54 | the rejection is the credential bundle plus senderAddress = recipient account only; it has no status |
| `Push.ApproveUser` | apps/web/src/hooks/messaging/push/usePush.ts:32-41 | succeeds exactly when the SDK call on the approval request succeeds; otherwise fails with Error('Failed to approve user') |
| `Push.RejectUser` | apps/web/src/hooks/messaging/push/usePush.ts:49-57 | succeeds exactly when the SDK call on the rejection request succeeds; otherwise fails with Error('Failed to reject user') |
| `Push.DecryptKeyRequest` | apps/web/src/hooks/messaging/push/usePush.ts:117-122 | the explicit account argument overrides the session's account; the password sits at additionalMeta.NFTPGP_V1.password; the encrypted key is passed as given |
| `Push.DecryptPGPKey` | apps/web/src/hooks/messaging/push/usePush.ts:111-127 | resolves to the SDK's answer; any failure becomes Error('Failed to decrypt PGP key') |
| `Push.DecryptConversationRequest` | apps/web/src/hooks/messaging/push/usePush.ts:131-135 | the request is the credential bundle plus the connected profile and a one-element list holding the message |
| `Push.DecryptConversation` | apps/web/src/hooks/messaging/push/usePush.ts:129-140 | fails exactly when the SDK fails, with Error('Failed to decrypt conversation'); otherwise returns element 0 of the answer, or undefined for an empty answer |
| `PushSocket.ConnectionOptions` | apps/web/src/hooks/messaging/push/usePushSocket.ts:24-29 | the socket is created with env, user, socketType 'chat', autoConnect false and reconnectionAttempts 3 |
| `PushSocket.HandleChatMessage` | apps/web/src/hooks/messaging/push/usePushSocket.ts:33-53 | in terms of the SDK's answer: a failure is logged as the fixed Error('Failed to decrypt conversation'); an empty answer logs the failed `.fromDID` read; otherwise the first decrypted message is dropped exactly when its sender's profile id equals the current one (undefined matching undefined), and else is stored and then announced as "New Message from <id>" |
| `PushSocket.SocketUserIsSessionAccount` | apps/web/src/hooks/messaging/push/usePushSocket.ts:18-28 | the socket's user and env are the account and env of the handler's decryption requests, both from the current profile |
| `PushSocket.HandlerWellformed` | apps/web/src/hooks/messaging/push/usePushSocket.ts:33-53 | the effects of any single event form a well-formed trace |
| `PushSocket.WellformedAppend` | apps/web/src/hooks/messaging/push/usePushSocket.ts:31-54 | a well-formed history followed by well-formed effects stays well-formed, so any number of events keep the invariant |
| `PushSocket.WellformedCounts` | apps/web/src/hooks/messaging/push/usePushSocket.ts:38-42 | in a well-formed trace, notifications and store writes are equal in number, and no stored message comes from the current profile |
| `PushSocket.SelfEchoSuppressed` | apps/web/src/hooks/messaging/push/usePushSocket.ts:35-40 | when the decrypted sender's profile id is the current profile's id, the event causes no store write, no notification and no log |
| `PushSocket.DeliveredOnce` | apps/web/src/hooks/messaging/push/usePushSocket.ts:35-42 | otherwise the event has exactly two effects: the decrypted message is written to the store once and exactly one "New Message from <profile id>" notification follows it |
| `PushSocket.UndecryptableDropped` | apps/web/src/hooks/messaging/push/usePushSocket.ts:34-52 | when decryption fails or yields undefined, the error is only logged: no store write and no notification |
| `PushSocket.ChatSocketListener.constructor` | apps/web/src/hooks/messaging/push/usePushSocket.ts:17-29 | the socket options use the resolver's account for the current profile, which is the account of the hooks' credential bundle, and no effects have happened yet |
| `PushSocket.ChatSocketListener.OnChatReceivedMessage` | apps/web/src/hooks/messaging/push/usePushSocket.ts:31-54 | appends exactly the effects of the event to the trace, never fails, and keeps the trace well-formed |
| `Composer.Split` | apps/web/src/components/Composer/Post/New.tsx:40-41 | split yields at least one piece, and no piece contains the separator |
| `Composer.Join` | apps/web/src/components/Composer/Post/New.tsx:43 | joining starts with the first piece, and joining nothing gives the empty string |
| `Composer.JoinSplit` | apps/web/src/components/Composer/Post/New.tsx:40-41 | joining the pieces with the separator gives back the input, so the split loses nothing |
| `Composer.TagAll` | apps/web/src/components/Composer/Post/New.tsx:42 | each piece becomes "#" + piece + " ", position by position |
| `Composer.ProcessHashtags` | apps/web/src/components/Composer/Post/New.tsx:40-43 | the processed hashtags are never empty, even for an empty list, and start with '#' |
| `Composer.HashtagsAsReplacement` | apps/web/src/components/Composer/Post/New.tsx:39-44 | the processed hashtags equal "#" + the list with every comma turned into " #" + " ": every piece is kept, in input order |
| `Composer.ComposeContent` | apps/web/src/components/Composer/Post/New.tsx:46-48 | the content starts with text verbatim; it ends with "\n\nvia @" + via when via is non-empty; it is text alone when the other three are absent or empty |
| `Composer.ComposedLayout` | apps/web/src/components/Composer/Post/New.tsx:37-48 | the full text is text, then " #…  " only when hashtags is non-empty, then "\n\n" + url only when url is non-empty, then "\n\nvia @" + via only when via is non-empty |
| `Composer.NewPost.constructor` | apps/web/src/components/Composer/Post/New.tsx:15-24 | the card starts unrendered over the given store values |
| `Composer.NewPost.OpenModal` | apps/web/src/components/Composer/Post/New.tsx:26-32 | the modal is shown unless the profile is suspended, in which case nothing changes |
| `Composer.NewPost.ApplySharedLink` | apps/web/src/components/Composer/Post/New.tsx:35-52 | nothing changes unless isReady and text are both truthy; then the composed content is set even for a suspended profile, and the modal opens only when not suspended |
| `Composer.NewPost.Render` | apps/web/src/components/Composer/Post/New.tsx:34-53 | the effect runs only on a later render whose isReady differs from the previous one, never on the first render |
| `MessageCard.Origin` | apps/web/src/components/Messages/Push/Message/Card.tsx:58-61 | a message is on the Receiver side exactly when its sender's profile id equals the current profile's id (the socket's echo test); an unresolvable sender is on the Sender side while a profile is current |
| `MessageCard.OriginMatchesEchoSuppression` | apps/web/src/components/Messages/Push/Message/Card.tsx:58-61 | origin is Receiver exactly when the socket discards the decrypted message as a self-echo, and Sender exactly when the socket stores it |
| `MessageCard.BodyOf` | apps/web/src/components/Messages/Push/Message/Card.tsx:80-90 | the text card, with the message's content, exactly for type 'Text'; the attachment view of the whole message otherwise |
| `MessageCard.IsAttachment` | apps/web/src/components/Messages/Push/Message/Card.tsx:77 | the wrapper's flag is set for every type but 'Text' |
| `MessageCard.BodyMatchesWrapper` | apps/web/src/components/Messages/Push/Message/Card.tsx:76-90 | a message is drawn as a text card with its content exactly when its type is 'Text', in agreement with the wrapper's isAttachment flag; every other type goes to the attachment view |
| `MessageCard.ReactionIntent` | apps/web/src/components/Messages/Push/Message/Card.tsx:126-133 | the reaction carries the picked value as 'Text' content, the REACTION kind, and the message's link as reference, null when the message has none |
| `MessageCard.ReactionIntentEncoding` | apps/web/src/components/Messages/Push/Message/Card.tsx:126-133 | the reaction intent for a value encodes to `{message:{content:value, reference:link}, messageType:REACTION}` |
| `MessageCard.MessageView.constructor` | apps/web/src/components/Messages/Push/Message/Card.tsx:41-42 | both flags start false and nothing has been sent |
| `MessageCard.MessageView.MouseEnter` | apps/web/src/components/Messages/Push/Message/Card.tsx:50-52 | showChatActions becomes true; showReactions is untouched |
| `MessageCard.MessageView.MouseLeave` | apps/web/src/components/Messages/Push/Message/Card.tsx:54-56 | showChatActions becomes false; showReactions is untouched |
| `MessageCard.MessageView.Reply` | apps/web/src/components/Messages/Push/Message/Card.tsx:96-99 | the store's reply target becomes exactly this message |
| `MessageCard.MessageView.OpenReactions` | apps/web/src/components/Messages/Push/Message/Card.tsx:108-112 | showReactions becomes true and showChatActions false |
| `MessageCard.MessageView.CloseReactions` | apps/web/src/components/Messages/Push/Message/Card.tsx:119-124 | from the open picker, showReactions becomes false and showChatActions true |
| `MessageCard.MessageView.ChooseReaction` | apps/web/src/components/Messages/Push/Message/Card.tsx:125-136 | sends one reaction intent whose envelope is the reaction envelope for the message's link, closes the picker and shows the actions |

## Left out

- `apps/web/src/components/Shared/Modal/Views.tsx`: an HTTP fetch of view statistics plus rendering. It has no logic beyond I/O.
- `useGetChats` and `useGetChatRequests`: query wrappers that hand `{...getBaseConfig(), toDecrypt: true}` to the SDK. They carry no behaviour of their own.
- The Push SDK itself (send, approve, reject, chats, requests, key and conversation decryption), PGP, and the socket transport with its reconnection. These are library code; each call is an uninterpreted function parameter.
- The SDK's `MessageType` constants are not part of this model. 'Text' is the value the card compares with; 'Reaction' and 'Reply' are assumed values of the SDK's REACTION and REPLY.
- `getAccountFromProfile` and `getProfileIdFromDID` are not part of this model. They are parameters, taken to be deterministic and never to throw; a throw from `getProfileIdFromDID` inside the handler would only be logged, which is not modelled.
- `createSocketConnection` is taken to return a socket. With a null result, `pushSocket?.on` would register no handler; that case is not modelled.
- `setRecipientChat`, `sendNotification` and the DOM scroll after them are assumed not to throw. The scroll is not modelled (it is DOM I/O).
- Asynchrony: each event's handler runs to completion before the next one. Interleavings of concurrent awaits are not modelled.
- React Query caching, mutation keys, wallet signer retrieval, JSX rendering, class names, avatars, router navigation.
- Query values given more than once (`string[]` in Next.js) are not modelled: each query value is a string or absent.
- `Composer.Split`: models `split` with a one-character separator only, which is the only use here.
- `Composer.NewPost`: `isSuspended` is fixed when the card is created. The source re-reads `useProfileRestriction()` on every render, so a profile suspended or reinstated while the card is mounted is not modelled.
- `MessageCard.MessageView.ChooseReaction`: records the intent handed to `sendMessage` but not the send's outcome. The source does not await `mutateAsync`, so a failed reaction send ends as an unhandled rejection; that is not modelled.
