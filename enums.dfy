/**
 * The string-backed enums of the core: each case, its backing value (`->value`) and
 * `tryFrom`, which maps a backing value back to its case and anything else to null.
 */
module Enums {
  import opened Wrappers

  /** The kinds of update the platform delivers. */
  datatype UpdateType =
    | MessageCreated | MessageCallback | MessageEdited | MessageRemoved
    | BotAdded | BotRemoved
    | DialogMuted | DialogUnmuted | DialogCleared | DialogRemoved
    | UserAdded | UserRemoved
    | BotStarted | BotStopped
    | ChatTitleChanged

  function UpdateTypeValue(t: UpdateType): (s: string)
    ensures UpdateTypeFrom(s) == Some(t)
  {
    match t
    case MessageCreated => "message_created"
    case MessageCallback => "message_callback"
    case MessageEdited => "message_edited"
    case MessageRemoved => "message_removed"
    case BotAdded => "bot_added"
    case BotRemoved => "bot_removed"
    case DialogMuted => "dialog_muted"
    case DialogUnmuted => "dialog_unmuted"
    case DialogCleared => "dialog_cleared"
    case DialogRemoved => "dialog_removed"
    case UserAdded => "user_added"
    case UserRemoved => "user_removed"
    case BotStarted => "bot_started"
    case BotStopped => "bot_stopped"
    case ChatTitleChanged => "chat_title_changed"
  }

  /** The backing values of `UpdateType`. */
  const UpdateTypeNames: set<string> := {
    "message_created", "message_callback", "message_edited", "message_removed",
    "bot_added", "bot_removed", "dialog_muted", "dialog_unmuted", "dialog_cleared", "dialog_removed",
    "user_added", "user_removed", "bot_started", "bot_stopped", "chat_title_changed"}

  /** `UpdateType::tryFrom`: null exactly for a string that is no backing value. */
  function UpdateTypeFrom(s: string): (r: Option<UpdateType>)
    ensures r.Some? <==> s in UpdateTypeNames
  {
    if s == "message_created" then Some(MessageCreated)
    else if s == "message_callback" then Some(MessageCallback)
    else if s == "message_edited" then Some(MessageEdited)
    else if s == "message_removed" then Some(MessageRemoved)
    else if s == "bot_added" then Some(BotAdded)
    else if s == "bot_removed" then Some(BotRemoved)
    else if s == "dialog_muted" then Some(DialogMuted)
    else if s == "dialog_unmuted" then Some(DialogUnmuted)
    else if s == "dialog_cleared" then Some(DialogCleared)
    else if s == "dialog_removed" then Some(DialogRemoved)
    else if s == "user_added" then Some(UserAdded)
    else if s == "user_removed" then Some(UserRemoved)
    else if s == "bot_started" then Some(BotStarted)
    else if s == "bot_stopped" then Some(BotStopped)
    else if s == "chat_title_changed" then Some(ChatTitleChanged)
    else None
  }

  /** A string names an update type exactly when it is that case's value. */
  lemma UpdateTypeFromExact(s: string, t: UpdateType)
    ensures UpdateTypeFrom(s) == Some(t) <==> UpdateTypeValue(t) == s
  {
    if UpdateTypeFrom(s) == Some(t) {
      UpdateTypeFromValue(s);
    }
  }

  /** `tryFrom` only accepts a case's own value. */
  lemma UpdateTypeFromValue(s: string)
    requires UpdateTypeFrom(s).Some?
    ensures UpdateTypeValue(UpdateTypeFrom(s).value) == s
  {
    if s == "message_created" {
    } else if s == "message_callback" {
    } else if s == "message_edited" {
    } else if s == "message_removed" {
    } else if s == "bot_added" {
    } else if s == "bot_removed" {
    } else if s == "dialog_muted" {
    } else if s == "dialog_unmuted" {
    } else if s == "dialog_cleared" {
    } else if s == "dialog_removed" {
    } else if s == "user_added" {
    } else if s == "user_removed" {
    } else if s == "bot_started" {
    } else if s == "bot_stopped" {
    } else if s == "chat_title_changed" {
    }
  }

  /** Kind of chat a message was sent to. */
  datatype ChatType = Chat | Dialog

  function ChatTypeValue(t: ChatType): (s: string)
    ensures ChatTypeFrom(s) == Some(t)
  {
    match t
    case Chat => "chat"
    case Dialog => "dialog"
  }

  function ChatTypeFrom(s: string): (r: Option<ChatType>)
  {
    if s == "chat" then Some(Chat) else if s == "dialog" then Some(Dialog) else None
  }

  /** How a linked message relates to the one carrying it. */
  datatype MessageLinkType = Forward | Reply

  function MessageLinkTypeValue(t: MessageLinkType): (s: string)
    ensures MessageLinkTypeFrom(s) == Some(t)
  {
    match t
    case Forward => "forward"
    case Reply => "reply"
  }

  function MessageLinkTypeFrom(s: string): (r: Option<MessageLinkType>)
  {
    if s == "forward" then Some(Forward) else if s == "reply" then Some(Reply) else None
  }

  /** How the text of an outgoing message is formatted. */
  datatype ParseMode = Markdown | Html

  function ParseModeValue(m: ParseMode): string {
    match m
    case Markdown => "markdown"
    case Html => "html"
  }

  /** Colour and style of a button. */
  datatype Intent = Default | Positive | Negative

  function IntentValue(i: Intent): string {
    match i
    case Default => "default"
    case Positive => "positive"
    case Negative => "negative"
  }

  /** Rights a chat administrator can hold. */
  datatype ChatAdminPermission =
    | ReadAllMessages | AddRemoveMembers | AddAdmins | ChangeChatInfo | PinMessage
    | Write | CanCall | EditLink | PostEditDeleteMessage | EditMessage | DeleteMessage

  function PermissionValue(p: ChatAdminPermission): (s: string)
    ensures PermissionFrom(s) == Some(p)
  {
    match p
    case ReadAllMessages => "read_all_messages"
    case AddRemoveMembers => "add_remove_members"
    case AddAdmins => "add_admins"
    case ChangeChatInfo => "change_chat_info"
    case PinMessage => "pin_message"
    case Write => "write"
    case CanCall => "can_call"
    case EditLink => "edit_link"
    case PostEditDeleteMessage => "post_edit_delete_message"
    case EditMessage => "edit_message"
    case DeleteMessage => "delete_message"
  }

  function PermissionFrom(s: string): (r: Option<ChatAdminPermission>)
  {
    if s == "read_all_messages" then Some(ReadAllMessages)
    else if s == "add_remove_members" then Some(AddRemoveMembers)
    else if s == "add_admins" then Some(AddAdmins)
    else if s == "change_chat_info" then Some(ChangeChatInfo)
    else if s == "pin_message" then Some(PinMessage)
    else if s == "write" then Some(Write)
    else if s == "can_call" then Some(CanCall)
    else if s == "edit_link" then Some(EditLink)
    else if s == "post_edit_delete_message" then Some(PostEditDeleteMessage)
    else if s == "edit_message" then Some(EditMessage)
    else if s == "delete_message" then Some(DeleteMessage)
    else None
  }

  /** The kind of a markup span inside message text. */
  datatype MarkupType = Bold | Italic | Strikethrough | Underline | Code | Link | UserMention

  function MarkupTypeValue(t: MarkupType): (s: string)
    ensures MarkupTypeFrom(s) == Some(t)
  {
    match t
    case Bold => "bold"
    case Italic => "italic"
    case Strikethrough => "strikethrough"
    case Underline => "underline"
    case Code => "code"
    case Link => "link"
    case UserMention => "user_mention"
  }

  function MarkupTypeFrom(s: string): (r: Option<MarkupType>)
  {
    if s == "bold" then Some(Bold)
    else if s == "italic" then Some(Italic)
    else if s == "strikethrough" then Some(Strikethrough)
    else if s == "underline" then Some(Underline)
    else if s == "code" then Some(Code)
    else if s == "link" then Some(Link)
    else if s == "user_mention" then Some(UserMention)
    else None
  }
}
