/** Sender authorization (telegram_agent/app/auth.py): `is_authorized`
    checks, in order, that the update has a user and a chat, that the user is
    allowed, then that the chat is allowed. The settings' id lists are parsed
    on each call, so a malformed list raises out of `is_authorized`, and the
    chat list is only parsed once the user has passed. */
module Auth {
  import opened Wrappers
  import opened Config
  import opened Text

  /** `AuthResult(ok, reason)`. */
  datatype AuthResult = AuthResult(ok: bool, reason: string)

  /** The two fields of a Telegram update that are read: the ids of
      `effective_user` and `effective_chat`, each possibly absent. */
  datatype Update = Update(user: Option<int>, chat: Option<int>)

  /** `is_authorized(update, settings)`; `Err` is an exception of the id-list
      parsing. */
  function IsAuthorized(update: Update, settings: Settings): (r: Result<AuthResult>)
    // the reason is "ok" exactly when access is granted
    ensures r.Ok? ==> (r.value.ok <==> r.value.reason == "ok")
    // granted iff both are present and both are listed
    ensures r.Ok? && r.value.ok <==>
      && update.user.Some? && update.chat.Some?
      && AllowedUsers(settings).Ok? && update.user.value in AllowedUsers(settings).value
      && AllowedChats(settings).Ok? && update.chat.value in AllowedChats(settings).value
    // a missing user or chat is refused before any list is read
    ensures update.user.None? || update.chat.None? ==> r == Ok(AuthResult(false, "missing user or chat"))
    // the user is checked before the chat, whose list is then not read
    ensures (update.user.Some? && update.chat.Some? && AllowedUsers(settings).Ok?
      && update.user.value !in AllowedUsers(settings).value) ==>
      r == Ok(AuthResult(false, "user not allowed"))
    ensures (update.user.Some? && update.chat.Some? && AllowedUsers(settings).Ok?
      && update.user.value in AllowedUsers(settings).value
      && AllowedChats(settings).Ok? && update.chat.value !in AllowedChats(settings).value) ==>
      r == Ok(AuthResult(false, "chat not allowed"))
    // a malformed list raises only when it is read
    ensures r.Err? <==>
      && update.user.Some? && update.chat.Some?
      && (|| AllowedUsers(settings).Err?
          || (update.user.value in AllowedUsers(settings).value && AllowedChats(settings).Err?))
  {
    if update.user.None? || update.chat.None? then Ok(AuthResult(false, "missing user or chat"))
    else
      var users := AllowedUsers(settings);
      if users.Err? then Err(users.error)
      else if update.user.value !in users.value then Ok(AuthResult(false, "user not allowed"))
      else
        var chats := AllowedChats(settings);
        if chats.Err? then Err(chats.error)
        else if update.chat.value !in chats.value then Ok(AuthResult(false, "chat not allowed"))
        else Ok(AuthResult(true, "ok"))
  }

  /** `test_authorized_user_and_chat`: user 1 in chat 10 with users "1,2"
      and chats "10,20" is let in. */
  lemma AuthorizedUserAndChat(settings: Settings)
    requires settings.allowedUserIds == "1,2" && settings.allowedChatIds == "10,20"
    ensures IsAuthorized(Update(Some(1), Some(10)), settings) == Ok(AuthResult(true, "ok"))
  {
    TenTwenty();
    OneTwo();
  }

  /** `test_rejects_unlisted_user`: user 2 with users "1" is refused. */
  lemma RejectsUnlistedUser(settings: Settings)
    requires settings.allowedUserIds == "1" && settings.allowedChatIds == "10"
    ensures IsAuthorized(Update(Some(2), Some(10)), settings) == Ok(AuthResult(false, "user not allowed"))
  {
    SingleId(1);
    assert IntToString(1) == "1";
  }
}
