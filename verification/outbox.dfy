/** What the handlers send back through Telegram, as events. Fixed
    interface messages are named by what they say rather than spelled out;
    texts that matter to the rest of the model are carried verbatim. */
module Outbox {

  datatype Notice =
    // chat sessions (wispr_bot/routers/chats.py)
    | NewChatPrompt
    | NewChatCancelled
    | ChatCreated(title: string, model: string)
    | NoChats
    | ChatNotFoundOrDenied
    | SwitchedChat(title: string, model: string)
    | DeleteCancelled
    | ChatDeleted
    | DeleteFailed
    | NoActiveChat
    | ActiveChatMissing
    | ChatInfo(title: string, model: string, messageCount: nat)
    | StillProcessing
    | NoActiveChatCreating
    | ActiveChatMissingCreating
    | Generating
    | ExitedChat
    | NoActiveChatToClear
    | HistoryCleared(title: string, model: string)
    // access control (wispr_bot/middlewares/access.py)
    | AccessDenied
    | AccessDeniedAlert
    // administration (wispr_bot/routers/admin.py)
    | AllowUsage
    | DisallowUsage
    | InvalidUserId
    | AdminProtected
    | UserNotFound(id: int)
    | UserAllowed(name: string, id: int)
    | UserDisallowed(name: string, id: int)
    // settings (wispr_bot/routers/settings.py)
    | SettingsShown(hasKey: bool, model: string)
    | ApiKeyPrompt
    | ApiKeyCancelled
    | ApiKeyInvalid
    | ApiKeySaved
    | NoCustomKey
    | ApiKeyRemoved
    | ModelPrompt
    | ModelCancelled
    | ModelInvalid
    | ModelSaved(model: string)

  /** One event, in sending order. The placeholder is the "generating"
      message a chat turn edits in place. */
  datatype Out =
    | Say(notice: Notice)
    | Reply(text: string)
    | EditPlaceholder(text: string)
    | DeletePlaceholder
}
