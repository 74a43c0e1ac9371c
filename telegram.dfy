/**
 * Per-chat conversation state and the two settings objects the monitoring
 * loop reads: the 24h change threshold and the pump settings. Their locks
 * are left out. Durations are nanoseconds, as Go's `time.Duration`.
 */
module Telegram {

  /** The dialogue states, in the order of their `iota` constants. */
  datatype State =
    | StateNone
    | StateAwaitingEmail
    | StateAwaitingVerification
    | StateAwaitingPercent
    | StateAwaitingWaitTime
  {
    /** The integer value Go gives the constant. */
    function Ordinal(): (n: nat)
      ensures n < 5
    {
      match this
      case StateNone => 0
      case StateAwaitingEmail => 1
      case StateAwaitingVerification => 2
      case StateAwaitingPercent => 3
      case StateAwaitingWaitTime => 4
    }
  }

  /** The state with integer value `n`, the inverse of `Ordinal`. */
  function StateOf(n: nat): (s: State)
    requires n < 5
    ensures s.Ordinal() == n
  {
    if n == 0 then StateNone
    else if n == 1 then StateAwaitingEmail
    else if n == 2 then StateAwaitingVerification
    else if n == 3 then StateAwaitingPercent
    else StateAwaitingWaitTime
  }

  /** The five constants are distinct and `StateNone` is the zero value. */
  lemma StatesDistinct(s: State, t: State)
    ensures s.Ordinal() == t.Ordinal() <==> s == t
    ensures StateOf(s.Ordinal()) == s
    ensures s.Ordinal() == 0 <==> s == StateNone
  {
  }

  class ChatState {
    var firstChatID: int
    var secondChatID: int
    var email: string
    var state: State

    /** The zero `ChatState`. */
    constructor ()
      ensures firstChatID == 0 && secondChatID == 0 && email == "" && state == StateNone
    {
      firstChatID, secondChatID, email, state := 0, 0, "", StateNone;
    }

    method SetEmail(e: string)
      modifies this
      ensures email == e
      ensures firstChatID == old(firstChatID) && secondChatID == old(secondChatID) && state == old(state)
    {
      email := e;
    }

    method GetEmail() returns (e: string)
      ensures e == email
    {
      e := email;
    }

    method SetFirstChatID(id: int)
      modifies this
      ensures firstChatID == id
      ensures secondChatID == old(secondChatID) && email == old(email) && state == old(state)
    {
      firstChatID := id;
    }

    method SetSecondChatID(id: int)
      modifies this
      ensures secondChatID == id
      ensures firstChatID == old(firstChatID) && email == old(email) && state == old(state)
    {
      secondChatID := id;
    }

    method GetFirstChatID() returns (id: int)
      ensures id == firstChatID
    {
      id := firstChatID;
    }

    method GetSecondChatID() returns (id: int)
      ensures id == secondChatID
    {
      id := secondChatID;
    }

    method SetState(s: State)
      modifies this
      ensures state == s
      ensures firstChatID == old(firstChatID) && secondChatID == old(secondChatID) && email == old(email)
    {
      state := s;
    }

    method GetState() returns (s: State)
      ensures s == state
    {
      s := state;
    }
  }

  /** The 24h change threshold, in percentage points. */
  class ChangePercent24 {
    var percent: real

    constructor ()
      ensures percent == 0.0
    {
      percent := 0.0;
    }

    method SetPercent(p: real)
      modifies this
      ensures percent == p
    {
      percent := p;
    }

    method GetPercent() returns (p: real)
      ensures p == percent
    {
      p := percent;
    }
  }

  /** How long after qualification a pump may fire, and the rise it needs. */
  class PumpSettings {
    var waitTime: int
    var pumpPercent: real

    constructor ()
      ensures waitTime == 0 && pumpPercent == 0.0
    {
      waitTime, pumpPercent := 0, 0.0;
    }

    method SetWaitTime(w: int)
      modifies this
      ensures waitTime == w && pumpPercent == old(pumpPercent)
    {
      waitTime := w;
    }

    method GetWaitTime() returns (w: int)
      ensures w == waitTime
    {
      w := waitTime;
    }

    method SetPumpPercent(p: real)
      modifies this
      ensures pumpPercent == p && waitTime == old(waitTime)
    {
      pumpPercent := p;
    }

    method GetPumpPercent() returns (p: real)
      ensures p == pumpPercent
    {
      p := pumpPercent;
    }
  }

  /** Setting the wait time and then the pump percent keeps both. */
  method SettingsAreIndependent(ps: PumpSettings, w: int, p: real) returns (w': int, p': real)
    modifies ps
    ensures w' == w && p' == p
  {
    ps.SetWaitTime(w);
    ps.SetPumpPercent(p);
    w' := ps.GetWaitTime();
    p' := ps.GetPumpPercent();
  }
}
