/**
 * The two bots' command and text handlers: a dialogue per chat whose
 * position is the shared `ChatState.state`. Commands move the dialogue to a
 * state that awaits an answer; a text message is read according to that
 * state. What the handlers cannot compute themselves is an input: whether
 * `mail.ParseAddress` accepted the text, the `users` table of verification
 * items keyed by address (the code is checked against the item filed under
 * the chat's own address), the clock, what `strconv.ParseFloat`/`Atoi` made of
 * the text, and the cancel function of a new monitoring context. Every
 * message a handler sends is returned, whether or not Telegram accepts it;
 * a failed send is only logged.
 */
module Commands {
  import opened Results
  import opened Telegram
  import opened Tracker
  import opened Cancellation
  import EmailVerify

  /** `time.Minute` in nanoseconds. */
  const Minute: int := 60 * 1_000_000_000

  const MinInt64: int := -0x8000_0000_0000_0000
  const TwoTo64: int := 0x1_0000_0000_0000_0000

  /** The two Telegram bots: the first runs the dialogue, the second reports pumps. */
  datatype Bot = FirstBot | SecondBot

  /** The texts the bots send, with the values they print. */
  datatype Message =
    | AskEmail
    | MonitoringLaunched
    | AskPercent(currentPercent: real)
    | AskWaitTime(currentWaitTime: int)
    | AskPumpPercent(currentPumpPercent: real)
    | InvalidEmail
    | CodeSent
    | TrackingLaunched
    | VerificationFailed
    | InvalidPercent
    | PercentChanged
    | PumpPercentChanged
    | InvalidWaitTime
    | WaitTimeChanged

  datatype Outgoing = Outgoing(bot: Bot, recipient: int, message: Message)

  /** The messages sent for an optional reply: none or one. */
  function Replies(bot: Bot, recipient: int, reply: Option<Message>): seq<Outgoing> {
    match reply
    case Some(m) => [Outgoing(bot, recipient, m)]
    case None => []
  }

  /**
   * `time.Duration(n) * time.Minute`: a signed 64-bit product, which wraps
   * around outside the range of `int64`.
   */
  function Wrap64(x: int): (r: int)
    ensures MinInt64 <= r < -MinInt64
    ensures (r - x) % TwoTo64 == 0
  {
    var r := (x - MinInt64) % TwoTo64 + MinInt64;
    assert r - x == -TwoTo64 * ((x - MinInt64) / TwoTo64);
    r
  }

  /** Whether the verification answer matches the stored code. */
  function Verified(stored: Option<EmailVerify.Verification>, code: string, now: int): bool {
    EmailVerify.VerifyCode(stored, code, now).Some?
  }

  /** Where the first bot's dialogue goes on a text message. */
  function FirstClientNext(state: State, emailValid: bool, verified: bool, percent: Option<real>): State {
    match state
    case StateAwaitingEmail => if emailValid then StateAwaitingVerification else state
    case StateAwaitingVerification => if verified then StateNone else state
    case StateAwaitingPercent => if percent.Some? then StateNone else state
    case _ => state
  }

  /** What the first bot answers a text message with. */
  function FirstClientReply(state: State, emailValid: bool, verified: bool, percent: Option<real>): Option<Message> {
    match state
    case StateAwaitingEmail => Some(if emailValid then CodeSent else InvalidEmail)
    case StateAwaitingVerification => Some(if verified then TrackingLaunched else VerificationFailed)
    case StateAwaitingPercent => Some(if percent.Some? then PercentChanged else InvalidPercent)
    case _ => None
  }

  /** Where the second bot's dialogue goes on a text message. */
  function SecondClientNext(state: State, percent: Option<real>, minutes: Option<int>): State {
    match state
    case StateAwaitingPercent => if percent.Some? then StateNone else state
    case StateAwaitingWaitTime => if minutes.Some? then StateNone else state
    case _ => state
  }

  /** What the second bot answers a text message with. */
  function SecondClientReply(state: State, percent: Option<real>, minutes: Option<int>): Option<Message> {
    match state
    case StateAwaitingPercent => Some(if percent.Some? then PumpPercentChanged else InvalidPercent)
    case StateAwaitingWaitTime => Some(if minutes.Some? then WaitTimeChanged else InvalidWaitTime)
    case _ => None
  }

  /** `/start` on the first bot: from any state, ask for the address. */
  method StartCommandHandlerFirstClient(sender: int, chatState: ChatState) returns (sent: seq<Outgoing>)
    modifies chatState
    ensures chatState.state == StateAwaitingEmail
    ensures chatState.email == old(chatState.email)
    ensures chatState.firstChatID == old(chatState.firstChatID) && chatState.secondChatID == old(chatState.secondChatID)
    ensures sent == [Outgoing(FirstBot, sender, AskEmail)]
  {
    chatState.SetState(StateAwaitingEmail);
    sent := [Outgoing(FirstBot, sender, AskEmail)];
  }

  /** `/start` on the second bot: record the second chat; the dialogue stays where it is. */
  method StartCommandHandlerSecondClient(sender: int, chatState: ChatState) returns (sent: seq<Outgoing>)
    modifies chatState
    ensures chatState.secondChatID == sender
    ensures chatState.state == old(chatState.state) && chatState.email == old(chatState.email)
    ensures chatState.firstChatID == old(chatState.firstChatID)
    ensures sent == [Outgoing(SecondBot, sender, MonitoringLaunched)]
  {
    chatState.SetSecondChatID(sender);
    sent := [Outgoing(SecondBot, sender, MonitoringLaunched)];
  }

  /** `/stop`: cancel the sender's monitoring run, if any. */
  method StopCommandHandler(sender: int, cancelFuncs: CancelFuncs)
    modifies cancelFuncs
    ensures cancelFuncs.data == old(cancelFuncs.data) - {sender}
    ensures cancelFuncs.invoked ==
      old(cancelFuncs.invoked) + (if sender in old(cancelFuncs.data) then [old(cancelFuncs.data)[sender]] else [])
  {
    cancelFuncs.Remove(sender);
  }

  /** The 24h-change command: await a percent, showing the current one. */
  method Change24PercentCommandHandler(sender: int, chatState: ChatState, changePercent24: ChangePercent24)
    returns (sent: seq<Outgoing>)
    modifies chatState
    ensures chatState.state == StateAwaitingPercent
    ensures chatState.email == old(chatState.email)
    ensures chatState.firstChatID == old(chatState.firstChatID) && chatState.secondChatID == old(chatState.secondChatID)
    ensures sent == [Outgoing(FirstBot, sender, AskPercent(changePercent24.percent))]
  {
    chatState.SetState(StateAwaitingPercent);
    var currentPercent24 := changePercent24.GetPercent();
    sent := [Outgoing(FirstBot, sender, AskPercent(currentPercent24))];
  }

  /** The wait-time command: await a number of minutes, showing the current wait. */
  method SetWaitTimeCommandHandler(sender: int, chatState: ChatState, pumpSettings: PumpSettings)
    returns (sent: seq<Outgoing>)
    modifies chatState
    ensures chatState.state == StateAwaitingWaitTime
    ensures chatState.email == old(chatState.email)
    ensures chatState.firstChatID == old(chatState.firstChatID) && chatState.secondChatID == old(chatState.secondChatID)
    ensures sent == [Outgoing(SecondBot, sender, AskWaitTime(pumpSettings.waitTime))]
  {
    chatState.SetState(StateAwaitingWaitTime);
    var currentWaitTime := pumpSettings.GetWaitTime();
    sent := [Outgoing(SecondBot, sender, AskWaitTime(currentWaitTime))];
  }

  /** The pump-percent command: await a percent, showing the current one. */
  method SetPumpPercentCommandHandler(sender: int, chatState: ChatState, pumpSettings: PumpSettings)
    returns (sent: seq<Outgoing>)
    modifies chatState
    ensures chatState.state == StateAwaitingPercent
    ensures chatState.email == old(chatState.email)
    ensures chatState.firstChatID == old(chatState.firstChatID) && chatState.secondChatID == old(chatState.secondChatID)
    ensures sent == [Outgoing(SecondBot, sender, AskPumpPercent(pumpSettings.pumpPercent))]
  {
    chatState.SetState(StateAwaitingPercent);
    var currentPumpPercent := pumpSettings.GetPumpPercent();
    sent := [Outgoing(SecondBot, sender, AskPumpPercent(currentPumpPercent))];
  }

  /**
   * A text message to the first bot. Awaiting an address, a valid one is
   * stored and a code is asked for; awaiting the code, a match launches
   * monitoring: a fresh, empty tracker and the run's cancel function filed
   * under the sender; awaiting a percent, a number becomes the 24h
   * threshold. A rejected answer leaves everything as it was; in the other
   * states the message is ignored.
   */
  method MessageHandlerFirstClient(sender: int, text: string, chatState: ChatState, cancelFuncs: CancelFuncs,
                                   changePercent24: ChangePercent24, emailValid: bool,
                                   users: map<string, EmailVerify.Verification>, now: int, percent: Option<real>,
                                   cancel: CancelFunc)
    returns (sent: seq<Outgoing>, monitor: Tracker?)
    modifies chatState, cancelFuncs, changePercent24
    ensures var verified := Verified(EmailVerify.Lookup(users, old(chatState.email)), text, now);
      && chatState.state == FirstClientNext(old(chatState.state), emailValid, verified, percent)
      && sent == Replies(FirstBot, sender, FirstClientReply(old(chatState.state), emailValid, verified, percent))
    ensures chatState.email == if old(chatState.state) == StateAwaitingEmail && emailValid then text else old(chatState.email)
    ensures chatState.firstChatID == old(chatState.firstChatID) && chatState.secondChatID == old(chatState.secondChatID)
    ensures changePercent24.percent ==
      if old(chatState.state) == StateAwaitingPercent && percent.Some? then percent.value else old(changePercent24.percent)
    ensures old(chatState.state) == StateAwaitingVerification &&
            Verified(EmailVerify.Lookup(users, old(chatState.email)), text, now) ==>
      && monitor != null && fresh(monitor) && monitor.Valid() && monitor.trackedSymbols == map[]
      && cancelFuncs.data == old(cancelFuncs.data)[sender := cancel]
    ensures !(old(chatState.state) == StateAwaitingVerification &&
              Verified(EmailVerify.Lookup(users, old(chatState.email)), text, now)) ==>
      monitor == null && cancelFuncs.data == old(cancelFuncs.data)
    ensures cancelFuncs.invoked == old(cancelFuncs.invoked)
  {
    monitor := null;
    sent := [];
    var state := chatState.GetState();
    match state {
      case StateAwaitingEmail =>
        if !emailValid {
          sent := [Outgoing(FirstBot, sender, InvalidEmail)];
          return;
        }
        chatState.SetEmail(text);
        sent := [Outgoing(FirstBot, sender, CodeSent)];
        chatState.SetState(StateAwaitingVerification);
      case StateAwaitingVerification =>
        var email := chatState.GetEmail();
        if EmailVerify.VerifyCode(EmailVerify.Lookup(users, email), text, now).Some? {
          chatState.SetState(StateNone);
          monitor := new Tracker();
          cancelFuncs.Add(sender, cancel);
          sent := [Outgoing(FirstBot, sender, TrackingLaunched)];
        } else {
          sent := [Outgoing(FirstBot, sender, VerificationFailed)];
        }
      case StateAwaitingPercent =>
        if percent.None? {
          sent := [Outgoing(FirstBot, sender, InvalidPercent)];
          return;
        }
        changePercent24.SetPercent(percent.value);
        chatState.SetState(StateNone);
        sent := [Outgoing(FirstBot, sender, PercentChanged)];
      case _ =>
    }
  }

  /**
   * A text message to the second bot. Awaiting a percent, a number becomes
   * the pump percent; awaiting a wait time, a whole number of minutes
   * becomes the wait, as a 64-bit duration. A rejected answer leaves
   * everything as it was; in the other states the message is ignored.
   */
  method MessageHandlerSecondClient(sender: int, chatState: ChatState, pumpSettings: PumpSettings,
                                    percent: Option<real>, minutes: Option<int>)
    returns (sent: seq<Outgoing>)
    modifies chatState, pumpSettings
    ensures chatState.state == SecondClientNext(old(chatState.state), percent, minutes)
    ensures sent == Replies(SecondBot, sender, SecondClientReply(old(chatState.state), percent, minutes))
    ensures chatState.email == old(chatState.email)
    ensures chatState.firstChatID == old(chatState.firstChatID) && chatState.secondChatID == old(chatState.secondChatID)
    ensures pumpSettings.pumpPercent ==
      if old(chatState.state) == StateAwaitingPercent && percent.Some? then percent.value else old(pumpSettings.pumpPercent)
    ensures pumpSettings.waitTime ==
      if old(chatState.state) == StateAwaitingWaitTime && minutes.Some? then Wrap64(minutes.value * Minute)
      else old(pumpSettings.waitTime)
  {
    sent := [];
    var state := chatState.GetState();
    match state {
      case StateAwaitingPercent =>
        if percent.None? {
          sent := [Outgoing(SecondBot, sender, InvalidPercent)];
          return;
        }
        pumpSettings.SetPumpPercent(percent.value);
        chatState.SetState(StateNone);
        sent := [Outgoing(SecondBot, sender, PumpPercentChanged)];
      case StateAwaitingWaitTime =>
        if minutes.None? {
          sent := [Outgoing(SecondBot, sender, InvalidWaitTime)];
          return;
        }
        pumpSettings.SetWaitTime(Wrap64(minutes.value * Minute));
        chatState.SetState(StateNone);
        sent := [Outgoing(SecondBot, sender, WaitTimeChanged)];
      case _ =>
    }
  }

  /**
   * The first bot's dialogue moves exactly when the answer is accepted, and
   * the reply then confirms it; it never moves into awaiting a wait time or
   * a percent, and input in the other states is ignored without a reply.
   */
  lemma FirstClientMovesOnlyOnAcceptance(state: State, emailValid: bool, verified: bool, percent: Option<real>)
    ensures var next := FirstClientNext(state, emailValid, verified, percent);
      var reply := FirstClientReply(state, emailValid, verified, percent);
      && (next != state <==> reply in {Some(CodeSent), Some(TrackingLaunched), Some(PercentChanged)})
      && (next == state || next == StateNone || next == StateAwaitingVerification)
      && (reply.None? <==> state == StateNone || state == StateAwaitingWaitTime)
  {
  }

  /**
   * The same for the second bot, which only ever leaves an awaiting state
   * for `StateNone`.
   */
  lemma SecondClientMovesOnlyOnAcceptance(state: State, percent: Option<real>, minutes: Option<int>)
    ensures var next := SecondClientNext(state, percent, minutes);
      var reply := SecondClientReply(state, percent, minutes);
      && (next != state <==> reply in {Some(PumpPercentChanged), Some(WaitTimeChanged)})
      && (next == state || next == StateNone)
      && (reply.None? <==> state != StateAwaitingPercent && state != StateAwaitingWaitTime)
  {
  }

  /** A wait of up to 153722867 minutes either way fits a 64-bit duration unchanged. */
  lemma SmallWaitTimeDoesNotWrap(n: int)
    requires -153722867 <= n <= 153722867
    ensures Wrap64(n * Minute) == n * Minute
  {
    assert MinInt64 <= n * Minute < -MinInt64;
    assert (n * Minute - MinInt64) % TwoTo64 == n * Minute - MinInt64;
  }

  /** One minute more and the product wraps to a negative wait. */
  lemma LargeWaitTimeWraps()
    ensures Wrap64(153722868 * Minute) < 0
  {
    assert 153722868 * Minute - MinInt64 == TwoTo64 + 153722868 * Minute - TwoTo64 - MinInt64;
  }

  /**
   * A code issued for another address does not verify this chat unless it
   * also matches the item filed under the chat's own address.
   */
  lemma CodeForOtherAddressRejected(users: map<string, EmailVerify.Verification>, email: string, other: string,
                                    code: string, firstBotID: int, secondBotID: int, now: int)
    requires other != email
    requires code != EmailVerify.Stored(EmailVerify.Lookup(users, email)).code
    ensures !Verified(EmailVerify.Lookup(users[other := EmailVerify.Issued(other, code, firstBotID, secondBotID)], email),
                      code, now)
  {
    assert EmailVerify.Lookup(users[other := EmailVerify.Issued(other, code, firstBotID, secondBotID)], email)
        == EmailVerify.Lookup(users, email);
  }

  /**
   * Signing up on the first bot: `/start`, a valid address, then the code
   * just issued for it, which the mail step files under the address in
   * the `users` table. The chat ends idle with its address stored and a
   * monitoring run filed under the sender.
   */
  method SignUp(sender: int, email: string, code: string, chatState: ChatState, cancelFuncs: CancelFuncs,
                changePercent24: ChangePercent24, users: map<string, EmailVerify.Verification>,
                firstBotID: int, secondBotID: int, now: int, cancel: CancelFunc)
    returns (sent: seq<Outgoing>, monitor: Tracker?)
    modifies chatState, cancelFuncs, changePercent24
    ensures chatState.state == StateNone && chatState.email == email
    ensures monitor != null && fresh(monitor) && monitor.trackedSymbols == map[]
    ensures cancelFuncs.data == old(cancelFuncs.data)[sender := cancel]
    ensures changePercent24.percent == old(changePercent24.percent)
    ensures sent == [Outgoing(FirstBot, sender, AskEmail), Outgoing(FirstBot, sender, CodeSent),
                     Outgoing(FirstBot, sender, TrackingLaunched)]
  {
    var issued := users[email := EmailVerify.Issued(email, code, firstBotID, secondBotID)];
    var first := StartCommandHandlerFirstClient(sender, chatState);
    var second, none := MessageHandlerFirstClient(sender, email, chatState, cancelFuncs, changePercent24,
                                                  true, issued, now, None, cancel);
    var third;
    third, monitor := MessageHandlerFirstClient(sender, code, chatState, cancelFuncs, changePercent24,
                                                false, issued, now, None, cancel);
    sent := first + second + third;
  }

  /** The threshold command followed by a number: the threshold is that number and the chat is idle again. */
  method ChangeThreshold(sender: int, text: string, p: real, chatState: ChatState, cancelFuncs: CancelFuncs,
                         changePercent24: ChangePercent24, now: int, cancel: CancelFunc)
    returns (sent: seq<Outgoing>)
    modifies chatState, cancelFuncs, changePercent24
    ensures changePercent24.percent == p && chatState.state == StateNone
    ensures cancelFuncs.data == old(cancelFuncs.data)
    ensures sent == [Outgoing(FirstBot, sender, AskPercent(old(changePercent24.percent))),
                     Outgoing(FirstBot, sender, PercentChanged)]
  {
    var first := Change24PercentCommandHandler(sender, chatState, changePercent24);
    var second, monitor := MessageHandlerFirstClient(sender, text, chatState, cancelFuncs, changePercent24,
                                                     false, map[], now, Some(p), cancel);
    sent := first + second;
  }

  /** The wait-time command followed by a small number of minutes: the wait is that many minutes. */
  method ChangeWaitTime(sender: int, n: int, chatState: ChatState, pumpSettings: PumpSettings)
    returns (sent: seq<Outgoing>)
    requires 0 <= n <= 153722867
    modifies chatState, pumpSettings
    ensures pumpSettings.waitTime == n * Minute && chatState.state == StateNone
    ensures pumpSettings.pumpPercent == old(pumpSettings.pumpPercent)
    ensures sent == [Outgoing(SecondBot, sender, AskWaitTime(old(pumpSettings.waitTime))),
                     Outgoing(SecondBot, sender, WaitTimeChanged)]
  {
    var first := SetWaitTimeCommandHandler(sender, chatState, pumpSettings);
    var second := MessageHandlerSecondClient(sender, chatState, pumpSettings, None, Some(n));
    SmallWaitTimeDoesNotWrap(n);
    sent := first + second;
  }
}
