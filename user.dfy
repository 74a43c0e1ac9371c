/**
 * The per-user variant of the conversation state: a map from chat id to
 * user, each user holding the same fields as the single-chat state and
 * its own settings objects. The settings types and the dialogue states of
 * this package are the same declarations as those of module Telegram and
 * are reused from there. The locks are left out.
 */
module Users {
  import opened Telegram

  class User {
    var firstChatID: int
    var secondChatID: int
    var email: string
    var state: State
    var changePercent24: ChangePercent24?
    var pumpSettings: PumpSettings?

    /**
     * `NewUser`: zero ids, no email, `StateNone`, and fresh settings
     * objects whose values are all zero.
     */
    constructor ()
      ensures firstChatID == 0 && secondChatID == 0 && email == "" && state == StateNone
      ensures changePercent24 != null && fresh(changePercent24) && changePercent24.percent == 0.0
      ensures pumpSettings != null && fresh(pumpSettings)
      ensures pumpSettings.waitTime == 0 && pumpSettings.pumpPercent == 0.0
    {
      firstChatID, secondChatID, email, state := 0, 0, "", StateNone;
      changePercent24 := new ChangePercent24();
      pumpSettings := new PumpSettings();
    }

    method SetState(s: State)
      modifies this
      ensures state == s
      ensures firstChatID == old(firstChatID) && secondChatID == old(secondChatID) && email == old(email)
      ensures changePercent24 == old(changePercent24) && pumpSettings == old(pumpSettings)
    {
      state := s;
    }

    method GetState() returns (s: State)
      ensures s == state
    {
      s := state;
    }

    method SetEmail(e: string)
      modifies this
      ensures email == e
      ensures firstChatID == old(firstChatID) && secondChatID == old(secondChatID) && state == old(state)
      ensures changePercent24 == old(changePercent24) && pumpSettings == old(pumpSettings)
    {
      email := e;
    }

    method GetEmail() returns (e: string)
      ensures e == email
    {
      e := email;
    }

    method SetFirstChatID(id: int)
      modifies this
      ensures firstChatID == id
      ensures secondChatID == old(secondChatID) && email == old(email) && state == old(state)
      ensures changePercent24 == old(changePercent24) && pumpSettings == old(pumpSettings)
    {
      firstChatID := id;
    }

    method SetSecondChatID(id: int)
      modifies this
      ensures secondChatID == id
      ensures firstChatID == old(firstChatID) && email == old(email) && state == old(state)
      ensures changePercent24 == old(changePercent24) && pumpSettings == old(pumpSettings)
    {
      secondChatID := id;
    }

    method GetFirstChatID() returns (id: int)
      ensures id == firstChatID
    {
      id := firstChatID;
    }

    method GetSecondChatID() returns (id: int)
      ensures id == secondChatID
    {
      id := secondChatID;
    }
  }

  class UserManager {
    var users: map<int, User?>

    /** `NewUserManager`: no users. */
    constructor ()
      ensures users == map[]
    {
      users := map[];
    }

    /** The user filed under `id`; `ok` is false, with no user, when there is none. */
    method GetUser(id: int) returns (user: User?, ok: bool)
      ensures ok <==> id in users
      ensures ok ==> user == users[id]
      ensures !ok ==> user == null
    {
      if id in users {
        user, ok := users[id], true;
      } else {
        user, ok := null, false;
      }
    }

    /** Files `user` under `id`, replacing whatever was filed there. */
    method AddUser(id: int, user: User?)
      modifies this
      ensures users == old(users)[id := user]
    {
      users := users[id := user];
    }
  }

  /** A user just added is found under its id; the other ids still find what they found. */
  method AddThenGet(m: UserManager, id: int, user: User?, other: int)
    returns (got: User?, ok: bool, gotOther: User?, okOther: bool)
    requires other != id
    modifies m
    ensures got == user && ok
    ensures okOther <==> other in old(m.users)
    ensures okOther ==> gotOther == old(m.users)[other]
  {
    m.AddUser(id, user);
    got, ok := m.GetUser(id);
    gotOther, okOther := m.GetUser(other);
  }

  /** A fresh user's settings round-trip on their own object and nowhere else. */
  method NewUserSettings(w: int, p: real, c: real) returns (u: User, w': int, p': real, c': real)
    ensures w' == w && p' == p && c' == c
    ensures u.state == StateNone
  {
    u := new User();
    u.pumpSettings.SetWaitTime(w);
    u.pumpSettings.SetPumpPercent(p);
    u.changePercent24.SetPercent(c);
    w' := u.pumpSettings.GetWaitTime();
    p' := u.pumpSettings.GetPumpPercent();
    c' := u.changePercent24.GetPercent();
  }
}
