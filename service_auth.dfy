/**
 * The login conversation of the mechanics' bot. A router object holds the
 * module-level dictionary of login entries (`user_auth_data`), which stay
 * after a finished login, the per-user
 * state of aiogram's finite-state machine, and a log of what the bot sends
 * and which message deletions it attempts. Each message handler is a method
 * that changes these step by step; `HandleMessage` picks the handler the way
 * the router does, first registered filter first.
 */
module ServiceAuth {
  import opened Wrappers
  import opened Text
  import opened Keyboard
  import SK = ServiceKeyboards

  type UserId = int
  type ChatId = int
  type MessageId = int

  /** An incoming text message. */
  datatype Message = Message(userId: UserId, chatId: ChatId, messageId: MessageId, text: string)

  /** The states of `ServiceAuthStates`; having no state is the absence of one. */
  datatype AuthState = WaitingForLogin | WaitingForPassword

  /** A `user_auth_data` entry: the login given and the messages to delete once logged in. */
  datatype AuthEntry = AuthEntry(login: string, messagesToDelete: seq<MessageId>)

  /** What the bot does towards the chat. */
  datatype Outgoing =
    | Sent(chat: ChatId, text: string, markup: Option<Markup>)
      /** `bot.delete_message`; a failed one (`deleted == false`) is logged as an error and skipped. */
    | DeleteAttempt(chat: ChatId, messageId: MessageId, deleted: bool)

  const WelcomeText := "👋 Добро пожаловать в бот для механиков СТО!\n\n📱 Пожалуйста, авторизуйтесь для продолжения."
  const LoginPrompt := "Введите ваш логин:"
  const PasswordPrompt := "Введите ваш пароль:"
  const RestartText := "Произошла ошибка. Пожалуйста, начните авторизацию заново с команды /start"
  const FailureText := "❌ Неверный логин или пароль. Пожалуйста, попробуйте снова с команды /start"
  const HelpText := "🔍 <b>Справка по использованию бота для механиков СТО:</b>\n\n" +
    "/start - Начать работу с ботом или вернуться в главное меню\n" +
    "/help - Показать эту справку\n\n" +
    "Используйте кнопки меню для навигации по функциям бота."

  function SuccessText(login: string): string {
    "✅ Вы успешно авторизованы как механик СТО, " + login + "!"
  }

  /** One deletion attempt per message, in the order of the list, whatever each attempt's outcome. */
  function DeletionAttempts(chat: ChatId, ids: seq<MessageId>, deletes: MessageId -> bool): (r: seq<Outgoing>)
    ensures |r| == |ids|
  {
    if ids == [] then []
    else DeletionAttempts(chat, ids[..|ids| - 1], deletes) + [DeleteAttempt(chat, ids[|ids| - 1], deletes(ids[|ids| - 1]))]
  }

  /**
   * Attempt `k` deletes message `k` of the list: every message is attempted
   * exactly once, in list order, and a failure does not stop the later ones.
   */
  lemma {:induction false} DeletionAttemptsAt(chat: ChatId, ids: seq<MessageId>, deletes: MessageId -> bool, k: nat)
    requires k < |ids|
    ensures DeletionAttempts(chat, ids, deletes)[k] == DeleteAttempt(chat, ids[k], deletes(ids[k]))
    decreases |ids|
  {
    if k < |ids| - 1 {
      DeletionAttemptsAt(chat, ids[..|ids| - 1], deletes, k);
    }
  }

  /** Which message handler takes a message. */
  datatype MessageRoute = StartRoute | LoginRoute | PasswordRoute | HelpRoute | NoRoute

  /**
   * The first registered message handler whose filter accepts the text:
   * `/start` always wins; any other text goes to the login handler while the
   * login is awaited and to the password handler while the password is;
   * with no state, `/help` reaches its handler and any other text none.
   */
  function RouteMessage(text: string, state: Option<AuthState>): (r: MessageRoute)
    ensures r == StartRoute <==> IsCommand(text, "start")
    ensures state.Some? ==> r != HelpRoute && r != NoRoute
    ensures r == HelpRoute ==> state == None && IsCommand(text, "help")
    ensures !IsCommand(text, "start") ==>
      (r == LoginRoute <==> state == Some(WaitingForLogin)) &&
      (r == PasswordRoute <==> state == Some(WaitingForPassword)) &&
      (r == HelpRoute <==> state == None && IsCommand(text, "help"))
  {
    if IsCommand(text, "start") then StartRoute
    else match state
      case Some(WaitingForLogin) => LoginRoute
      case Some(WaitingForPassword) => PasswordRoute
      case None => if IsCommand(text, "help") then HelpRoute else NoRoute
  }

  /**
   * A help command is taken as the login or the password while a login is
   * under way, and reaches the help handler only outside the conversation;
   * a start command is taken in every state.
   */
  lemma HelpWhileWaiting(text: string, state: Option<AuthState>)
    requires IsCommand(text, "help")
    ensures RouteMessage(text, state) ==
      match state
      case None => HelpRoute
      case Some(WaitingForLogin) => LoginRoute
      case Some(WaitingForPassword) => PasswordRoute
  {
    var w := Split(FirstWord(text), '@')[0];
    assert w == "/" + "help";
    assert w[1] != ("/" + "start")[1];
    assert !IsCommand(text, "start");
  }

  /**
   * A pending login has two messages to delete and awaits the password; a
   * finished one has three and no state left.
   */
  ghost predicate EntryFits(state: Option<AuthState>, entry: AuthEntry) {
    (state == Some(WaitingForPassword) && |entry.messagesToDelete| == 2) ||
    (state == None && |entry.messagesToDelete| == 3)
  }

  /** The state the FSM storage `fsm` holds for user `u`, if any. */
  function StateIn(fsm: map<UserId, AuthState>, u: UserId): (r: Option<AuthState>)
    ensures r.Some? <==> u in fsm
    ensures r.Some? ==> r.value == fsm[u]
  {
    if u in fsm then Some(fsm[u]) else None
  }

  /** Every entry of `data` fits the state its user has in `fsm`. */
  ghost predicate AllFit(data: map<UserId, AuthEntry>, fsm: map<UserId, AuthState>) {
    forall u :: u in data ==> EntryFits(StateIn(fsm, u), data[u])
  }

  /** Giving one user a fitting entry and state keeps every entry fitting. */
  lemma FitAfterUpdate(data: map<UserId, AuthEntry>, fsm: map<UserId, AuthState>,
                       u: UserId, entry: AuthEntry, state: Option<AuthState>)
    requires AllFit(data, fsm) && EntryFits(state, entry)
    ensures AllFit(data[u := entry], if state.Some? then fsm[u := state.value] else fsm - {u})
  {
    var fsm' := if state.Some? then fsm[u := state.value] else fsm - {u};
    forall v | v in data[u := entry]
      ensures EntryFits(StateIn(fsm', v), data[u := entry][v])
    {
      if v != u {
        assert StateIn(fsm', v) == StateIn(fsm, v);
      }
    }
  }

  /** Dropping a user's entry keeps every entry fitting, whatever state that user gets. */
  lemma FitAfterRemove(data: map<UserId, AuthEntry>, fsm: map<UserId, AuthState>,
                       u: UserId, state: AuthState)
    requires AllFit(data, fsm)
    ensures AllFit(data - {u}, fsm[u := state])
  {
    forall v | v in data - {u}
      ensures EntryFits(StateIn(fsm[u := state], v), (data - {u})[v])
    {
      assert StateIn(fsm[u := state], v) == StateIn(fsm, v);
    }
  }

  class ServiceAuthRouter {
    /** `user_auth_data`. */
    var userAuthData: map<UserId, AuthEntry>
    /** The FSM storage: the state of each user that has one. */
    var fsm: map<UserId, AuthState>
    /** Everything sent and every deletion attempted, oldest first. */
    var log: seq<Outgoing>

    function StateOf(u: UserId): Option<AuthState>
      reads this
    {
      StateIn(fsm, u)
    }

    /** Every entry fits its user's state; no entry exists while the login itself is awaited. */
    ghost predicate Valid()
      reads this
    {
      AllFit(userAuthData, fsm)
    }

    /**
     * A freshly started bot: the dictionary is empty, while the FSM storage,
     * configured outside this router, may still hold the states it had.
     */
    constructor (storedStates: map<UserId, AuthState>)
      ensures Valid()
      ensures userAuthData == map[] && fsm == storedStates && log == []
    {
      userAuthData := map[];
      fsm := storedStates;
      log := [];
    }

    /**
     * `/start`: whatever the state, the user's entry is dropped, the welcome
     * and the login prompt are sent, and the login is awaited. Other users
     * are untouched.
     */
    method CmdStart(msg: Message)
      requires Valid()
      modifies this
      ensures Valid()
      ensures userAuthData == old(userAuthData) - {msg.userId}
      ensures fsm == old(fsm)[msg.userId := WaitingForLogin]
      ensures log == old(log) + [Sent(msg.chatId, WelcomeText, None), Sent(msg.chatId, LoginPrompt, None)]
    {
      FitAfterRemove(userAuthData, fsm, msg.userId, WaitingForLogin);
      fsm := fsm - {msg.userId};
      if msg.userId in userAuthData {
        userAuthData := userAuthData - {msg.userId};
      }
      log := log + [Sent(msg.chatId, WelcomeText, None)];
      log := log + [Sent(msg.chatId, LoginPrompt, None)];
      fsm := fsm[msg.userId := WaitingForLogin];
    }

    /**
     * The login: the user's entry is replaced by the stripped text and the
     * ids of this message and of the password prompt (`promptId`, the id the
     * chat gives the prompt), and the password is awaited.
     */
    method ProcessLogin(msg: Message, promptId: MessageId)
      requires Valid()
      requires StateOf(msg.userId) == Some(WaitingForLogin)
      modifies this
      ensures Valid()
      ensures userAuthData == old(userAuthData)[msg.userId := AuthEntry(Trim(msg.text), [msg.messageId, promptId])]
      ensures fsm == old(fsm)[msg.userId := WaitingForPassword]
      ensures log == old(log) + [Sent(msg.chatId, PasswordPrompt, None)]
    {
      var login := Trim(msg.text);
      FitAfterUpdate(userAuthData, fsm, msg.userId, AuthEntry(login, [msg.messageId, promptId]), Some(WaitingForPassword));
      userAuthData := userAuthData[msg.userId := AuthEntry(login, [msg.messageId])];
      log := log + [Sent(msg.chatId, PasswordPrompt, None)];
      var entry := userAuthData[msg.userId];
      assert entry.messagesToDelete + [promptId] == [msg.messageId, promptId];
      userAuthData := userAuthData[msg.userId := entry.(messagesToDelete := entry.messagesToDelete + [promptId])];
      fsm := fsm[msg.userId := WaitingForPassword];
    }

    /**
     * The password. Without an entry only the restart error is sent and the
     * state stays as it was. Otherwise the check always succeeds: this
     * message joins the list, each listed message is deleted in turn
     * (`deletes` says which deletions the chat allows), the confirmation
     * naming the login is sent with the main menu, and the state is cleared,
     * while the entry, now holding three messages, stays.
     */
    method ProcessPassword(msg: Message, deletes: MessageId -> bool)
      requires Valid()
      requires StateOf(msg.userId) == Some(WaitingForPassword)
      modifies this
      ensures Valid()
      ensures msg.userId !in old(userAuthData) ==>
        userAuthData == old(userAuthData) && fsm == old(fsm) &&
        log == old(log) + [Sent(msg.chatId, RestartText, None)]
      ensures msg.userId in old(userAuthData) ==>
        var entry := old(userAuthData)[msg.userId];
        var ids := entry.messagesToDelete + [msg.messageId];
        |ids| == 3 &&
        userAuthData == old(userAuthData)[msg.userId := AuthEntry(entry.login, ids)] &&
        fsm == old(fsm) - {msg.userId} &&
        log == old(log) + DeletionAttempts(msg.chatId, ids, deletes) +
               [Sent(msg.chatId, SuccessText(entry.login), Some(SK.MainMenu()))]
    {
      var userId := msg.userId;
      if userId !in userAuthData {
        log := log + [Sent(msg.chatId, RestartText, None)];
        return;
      }
      var entry := userAuthData[userId];
      FitAfterUpdate(userAuthData, fsm, userId, entry.(messagesToDelete := entry.messagesToDelete + [msg.messageId]), None);
      userAuthData := userAuthData[userId := entry.(messagesToDelete := entry.messagesToDelete + [msg.messageId])];
      var login := userAuthData[userId].login;
      var authSuccessful := true;
      var reply: Outgoing;
      if authSuccessful {
        var ids := userAuthData[userId].messagesToDelete;
        var i := 0;
        ghost var log0 := log;
        while i < |ids|
          modifies this`log
          invariant 0 <= i <= |ids|
          invariant log == log0 + DeletionAttempts(msg.chatId, ids[..i], deletes)
        {
          var deleted := deletes(ids[i]);
          log := log + [DeleteAttempt(msg.chatId, ids[i], deleted)];
          assert ids[..i + 1][..i] == ids[..i];
          i := i + 1;
        }
        assert ids[..|ids|] == ids;
        reply := Sent(msg.chatId, SuccessText(login), Some(SK.MainMenu()));
      } else {
        reply := Sent(msg.chatId, FailureText, None);
      }
      log := log + [reply];
      fsm := fsm - {userId};
    }

    /** `/help`: the help text is sent; neither the dictionary nor any state is looked at or changed. */
    method CmdHelp(msg: Message)
      requires Valid()
      modifies this
      ensures Valid()
      ensures userAuthData == old(userAuthData) && fsm == old(fsm)
      ensures log == old(log) + [Sent(msg.chatId, HelpText, None)]
    {
      log := log + [Sent(msg.chatId, HelpText, None)];
    }

    /**
     * A text message, handed to the first handler whose filter accepts it
     * (`RouteMessage`); a message no filter accepts changes nothing.
     */
    method HandleMessage(msg: Message, promptId: MessageId, deletes: MessageId -> bool) returns (route: MessageRoute)
      requires Valid()
      modifies this
      ensures Valid()
      ensures route == RouteMessage(msg.text, old(StateOf(msg.userId)))
      ensures route == StartRoute ==>
        userAuthData == old(userAuthData) - {msg.userId} &&
        fsm == old(fsm)[msg.userId := WaitingForLogin] &&
        log == old(log) + [Sent(msg.chatId, WelcomeText, None), Sent(msg.chatId, LoginPrompt, None)]
      ensures route == LoginRoute ==>
        userAuthData == old(userAuthData)[msg.userId := AuthEntry(Trim(msg.text), [msg.messageId, promptId])] &&
        fsm == old(fsm)[msg.userId := WaitingForPassword] &&
        log == old(log) + [Sent(msg.chatId, PasswordPrompt, None)]
      ensures route == PasswordRoute && msg.userId !in old(userAuthData) ==>
        userAuthData == old(userAuthData) && fsm == old(fsm) &&
        log == old(log) + [Sent(msg.chatId, RestartText, None)]
      ensures route == PasswordRoute && msg.userId in old(userAuthData) ==>
        var entry := old(userAuthData)[msg.userId];
        var ids := entry.messagesToDelete + [msg.messageId];
        userAuthData == old(userAuthData)[msg.userId := AuthEntry(entry.login, ids)] &&
        fsm == old(fsm) - {msg.userId} &&
        log == old(log) + DeletionAttempts(msg.chatId, ids, deletes) +
               [Sent(msg.chatId, SuccessText(entry.login), Some(SK.MainMenu()))]
      ensures route == HelpRoute ==>
        userAuthData == old(userAuthData) && fsm == old(fsm) &&
        log == old(log) + [Sent(msg.chatId, HelpText, None)]
      ensures route == NoRoute ==>
        userAuthData == old(userAuthData) && fsm == old(fsm) && log == old(log)
    {
      route := RouteMessage(msg.text, StateOf(msg.userId));
      match route
      case StartRoute => CmdStart(msg);
      case LoginRoute => ProcessLogin(msg, promptId);
      case PasswordRoute => ProcessPassword(msg, deletes);
      case HelpRoute => CmdHelp(msg);
      case NoRoute =>
    }
  }

  // The conversations below call, at each step, the handler `RouteMessage`
  // picks for that text in the state the previous step left.

  /** A start command to a fresh bot: the login is awaited. */
  method FreshStart(userId: UserId, chatId: ChatId, startId: MessageId, startText: string) returns (router: ServiceAuthRouter)
    requires IsCommand(startText, "start")
    ensures fresh(router) && router.Valid()
    ensures router.userAuthData == map[] && router.fsm == map[userId := WaitingForLogin]
    ensures router.log == [Sent(chatId, WelcomeText, None), Sent(chatId, LoginPrompt, None)]
  {
    router := new ServiceAuthRouter(map[]);
    var start := Message(userId, chatId, startId, startText);
    assert RouteMessage(start.text, router.StateOf(userId)) == StartRoute;
    router.CmdStart(start);
  }

  /** The first two steps of a login on a fresh bot: a start command, then the login. */
  method BeginLogin(userId: UserId, chatId: ChatId, startId: MessageId, startText: string,
                    loginId: MessageId, loginText: string, promptId: MessageId) returns (router: ServiceAuthRouter)
    requires IsCommand(startText, "start") && !IsCommand(loginText, "start")
    ensures fresh(router) && router.Valid()
    ensures router.userAuthData == map[userId := AuthEntry(Trim(loginText), [loginId, promptId])]
    ensures router.fsm == map[userId := WaitingForPassword]
    ensures router.log == [Sent(chatId, WelcomeText, None), Sent(chatId, LoginPrompt, None), Sent(chatId, PasswordPrompt, None)]
  {
    router := FreshStart(userId, chatId, startId, startText);
    var login := Message(userId, chatId, loginId, loginText);
    assert RouteMessage(login.text, router.StateOf(userId)) == LoginRoute;
    router.ProcessLogin(login, promptId);
  }

  /**
   * A whole login on a fresh bot: a start command, the login, the password.
   * The entry stays behind with exactly the login message, the password
   * prompt and the password message, in that order; each of them is deleted
   * once, in that order; the user ends with no state.
   */
  method LoginConversation(userId: UserId, chatId: ChatId, startId: MessageId, startText: string,
                           loginId: MessageId, loginText: string, promptId: MessageId,
                           passwordId: MessageId, passwordText: string,
                           deletes: MessageId -> bool) returns (router: ServiceAuthRouter)
    requires IsCommand(startText, "start")
    requires !IsCommand(loginText, "start") && !IsCommand(passwordText, "start")
    ensures router.userAuthData == map[userId := AuthEntry(Trim(loginText), [loginId, promptId, passwordId])]
    ensures router.fsm == map[]
    ensures router.log ==
      [Sent(chatId, WelcomeText, None), Sent(chatId, LoginPrompt, None), Sent(chatId, PasswordPrompt, None)] +
      DeletionAttempts(chatId, [loginId, promptId, passwordId], deletes) +
      [Sent(chatId, SuccessText(Trim(loginText)), Some(SK.MainMenu()))]
  {
    router := BeginLogin(userId, chatId, startId, startText, loginId, loginText, promptId);
    var password := Message(userId, chatId, passwordId, passwordText);
    assert RouteMessage(password.text, router.StateOf(userId)) == PasswordRoute;
    router.ProcessPassword(password, deletes);
    assert [loginId, promptId] + [passwordId] == [loginId, promptId, passwordId];
  }
}
