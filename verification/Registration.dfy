/** The requests of a client and the connection state machine (src/client.rs). */
module Registration {
  import opened Text
  import opened Caps
  import M = Modes

  /** A parsed request; names in it have passed the checks of src/data/strings.rs. */
  datatype Request =
    | Nick(nick: string)
    | User(username: string, realname: string)
    | Pass(password: string)
    | CapLs
    | CapReq(diff: Diff)
    | CapEnd
    | CapList
    | Authenticate
    | Ping
    | Pong
    | Quit
    | Join(channels: seq<(string, Option<string>)>)
    | Part(leaving: seq<string>)
    | PartAll(order: seq<string>)  // JOIN 0, with the order in which the channel map is walked
    | Kick(from: string, who: seq<string>)
    | Kill(target: string)
    | Mode(channel: string, modes: string, params: seq<string>)
    | Invite(guest: string, to: string)
    | Oper(name: string, operPassword: string)
    | Away(reason: Option<string>)
    | SetName(newName: string)
    | Names(listed: seq<string>)
    | ModeUser(user: string, userModes: string)
    | ReadOnly                      // LIST, WHO, MOTD and the like
  {
    predicate OpensCap() { CapLs? || CapReq? }

    /** A client gives up being an IRC operator. */
    predicate DropsOper() { ModeUser? && M.UserGood(M.DeOperator) in M.UserQuery(userModes) }

    /** What an unregistered client may send besides NICK, USER, QUIT and opening a negotiation. */
    predicate AlwaysAllowed() { Authenticate? || CapEnd? || Pass? || Ping? }
  }

  datatype ConnState =
    | ConnectionEstablished
    | NickGiven
    | UserGiven
    | CapGiven
    | CapNickGiven
    | CapUserGiven
    | CapNegotiation
    | Registered
    | Gone

  /** `ConnectionState::apply`: the next state, or none when the request cannot be issued. */
  function Apply(state: ConnState, req: Request): Option<ConnState>
  {
    match state
    case ConnectionEstablished =>
      if req.OpensCap() then Some(CapGiven)
      else if req.AlwaysAllowed() then Some(state)
      else if req.Nick? then Some(NickGiven)
      else if req.User? then Some(UserGiven)
      else if req.Quit? then Some(Gone)
      else None
    case NickGiven =>
      if req.OpensCap() then Some(CapGiven)
      else if req.AlwaysAllowed() || req.Nick? then Some(state)
      else if req.User? then Some(Registered)
      else if req.Quit? then Some(Gone)
      else None
    case UserGiven =>
      if req.OpensCap() then Some(CapGiven)
      else if req.AlwaysAllowed() then Some(state)
      else if req.Nick? then Some(Registered)
      else if req.Quit? then Some(Gone)
      else None
    case CapGiven =>
      if req.CapEnd? then Some(ConnectionEstablished)
      else if req.AlwaysAllowed() || req.OpensCap() then Some(state)
      else if req.Nick? then Some(CapNickGiven)
      else if req.User? then Some(CapUserGiven)
      else if req.Quit? then Some(Gone)
      else None
    case CapNickGiven =>
      if req.CapEnd? then Some(NickGiven)
      else if req.AlwaysAllowed() || req.OpensCap() || req.Nick? then Some(state)
      else if req.User? then Some(CapNegotiation)
      else if req.Quit? then Some(Gone)
      else None
    case CapUserGiven =>
      if req.CapEnd? then Some(UserGiven)
      else if req.AlwaysAllowed() || req.OpensCap() then Some(state)
      else if req.Nick? then Some(CapNegotiation)
      else if req.Quit? then Some(Gone)
      else None
    case CapNegotiation =>
      if req.CapEnd? then Some(Registered)
      else if req.AlwaysAllowed() || req.OpensCap() || req.Nick? then Some(state)
      else if req.Quit? then Some(Gone)
      else None
    case Registered =>
      if req.Pass? || req.User? then None
      else if req.Quit? then Some(Gone)
      else Some(state)
    case Gone => None
  }

  // ---- whole connections

  type Log = seq<Request>

  function Init(log: Log): Log
    requires log != []
  {
    log[..|log| - 1]
  }

  function Last(log: Log): Request
    requires log != []
  {
    log[|log| - 1]
  }

  /** The state after accepting the requests of a log, or none when one of them cannot be issued. */
  function RunLog(log: Log): Option<ConnState>
  {
    if log == [] then Some(ConnectionEstablished)
    else match RunLog(Init(log))
      case None => None
      case Some(s) => Apply(s, Last(log))
  }

  /** Some request of the given kind among the first `n` of the log. */
  predicate HasNick(log: Log) { exists i :: 0 <= i < |log| && log[i].Nick? }
  predicate HasUser(log: Log) { exists i :: 0 <= i < |log| && log[i].User? }
  predicate HasPass(log: Log, password: string) { exists i :: 0 <= i < |log| && log[i] == Pass(password) }

  /** A CAP LS or CAP REQ that no CAP END follows. */
  predicate CapPending(log: Log)
  {
    exists i :: 0 <= i < |log| && log[i].OpensCap() && forall j :: i < j < |log| ==> !log[j].CapEnd?
  }

  /** The log reaches registration exactly with its last request. */
  predicate JustRegistered(log: Log)
  {
    log != [] && RunLog(log) == Some(Registered) && RunLog(Init(log)) != Some(Registered)
  }

  predicate KnowsNick(s: ConnState) { s == NickGiven || s == CapNickGiven || s == CapNegotiation || s == Registered }
  predicate KnowsUser(s: ConnState) { s == UserGiven || s == CapUserGiven || s == CapNegotiation || s == Registered }
  predicate InCap(s: ConnState) { s == CapGiven || s == CapNickGiven || s == CapUserGiven || s == CapNegotiation }

  lemma Grows(log: Log)
    requires log != []
    ensures HasNick(Init(log)) || Last(log).Nick? ==> HasNick(log)
    ensures HasUser(Init(log)) || Last(log).User? ==> HasUser(log)
    ensures forall p :: HasPass(Init(log), p) || Last(log) == Pass(p) ==> HasPass(log, p)
  {
    assert forall i :: 0 <= i < |log| - 1 ==> log[i] == Init(log)[i];
    assert Last(log) == log[|log| - 1];
  }

  /** One more request: a negotiation is open when it opens one, or one was open and it does not end it. */
  lemma PendingGrows(log: Log)
    requires log != []
    ensures CapPending(log) <==> Last(log).OpensCap() || (CapPending(Init(log)) && !Last(log).CapEnd?)
  {
    var init := Init(log);
    assert forall i :: 0 <= i < |init| ==> log[i] == init[i];
    if CapPending(log) && !Last(log).OpensCap() {
      var i :| 0 <= i < |log| && log[i].OpensCap() && forall j :: i < j < |log| ==> !log[j].CapEnd?;
      assert init[i].OpensCap();
      assert log[|log| - 1] == Last(log);
    }
    if Last(log).OpensCap() {
      assert log[|log| - 1].OpensCap();
    } else if CapPending(init) && !Last(log).CapEnd? {
      var i :| 0 <= i < |init| && init[i].OpensCap() && forall j :: i < j < |init| ==> !init[j].CapEnd?;
      assert log[i].OpensCap();
    }
  }

  /** What a state says about the requests that led to it. */
  lemma {:induction false} StateMeansLog(log: Log)
    requires RunLog(log).Some?
    ensures KnowsNick(RunLog(log).value) ==> HasNick(log)
    ensures KnowsUser(RunLog(log).value) ==> HasUser(log)
    ensures CapPending(log) ==> InCap(RunLog(log).value) || RunLog(log).value == Registered || RunLog(log).value == Gone
  {
    if log != [] {
      StateMeansLog(Init(log));
      Grows(log);
      PendingGrows(log);
    }
  }

  /** Registering takes an accepted NICK, an accepted USER, and no capability negotiation left open. */
  lemma RegistrationIsEarned(log: Log)
    requires JustRegistered(log)
    ensures HasNick(log) && HasUser(log) && !CapPending(log)
  {
    StateMeansLog(log);
    StateMeansLog(Init(log));
    Grows(log);
    PendingGrows(log);
  }

  /** Of the prefixes of the log, those from `n` requests on are registered, and no shorter one. */
  predicate RegisteredFrom(log: Log, n: nat)
  {
    forall k :: 0 <= k <= |log| ==> (RunLog(log[..k]) == Some(Registered) <==> n <= k)
  }

  /** A client that is registered registered once, at some earlier point, and stays registered. */
  lemma {:induction false} RegisteredOnce(log: Log)
    requires RunLog(log) == Some(Registered)
    ensures exists n :: 0 < n <= |log| && RegisteredFrom(log, n)
  {
    assert log[..|log|] == log && log != [];
    var init := Init(log);
    if RunLog(init) == Some(Registered) {
      RegisteredOnce(init);
      var n :| 0 < n <= |init| && RegisteredFrom(init, n);
      forall k | 0 <= k < |log| ensures RunLog(log[..k]) == Some(Registered) <==> n <= k {
        assert init[..k] == log[..k];
      }
      assert RegisteredFrom(log, n);
    } else {
      forall k | 0 <= k < |log| ensures RunLog(log[..k]) != Some(Registered) {
        if RunLog(log[..k]) == Some(Registered) {
          StaysRegistered(log, k);
        }
      }
      assert RegisteredFrom(log, |log|);
    }
  }

  /** Only QUIT ends a registration. */
  lemma {:induction false} StaysRegistered(log: Log, k: nat)
    requires k < |log| && RunLog(log[..k]) == Some(Registered) && RunLog(log) == Some(Registered)
    ensures RunLog(Init(log)) == Some(Registered)
    decreases |log|
  {
    if k < |log| - 1 {
      var init := Init(log);
      assert init[..k] == log[..k];
      RegisteredBefore(log, k);
    }
  }

  lemma {:induction false} RegisteredBefore(log: Log, k: nat)
    requires k < |log| && RunLog(log[..k]) == Some(Registered) && RunLog(log).Some? && RunLog(log) != Some(Gone)
    ensures RunLog(Init(log)) == Some(Registered)
    decreases |log|
  {
    var init := Init(log);
    assert log[..k] == init[..k];
    if k < |init| {
      assert RunLog(init).Some? && RunLog(init) != Some(Gone);
      RegisteredBefore(init, k);
    } else {
      assert init[..k] == init;
    }
  }

  // ---- IRC operators

  /** Whether the accepted requests leave the client an IRC operator. */
  predicate IsOper(log: Log)
  {
    log != [] && (Last(log).Oper? || (IsOper(Init(log)) && !Last(log).DropsOper()))
  }

  /** A client is an IRC operator exactly when some OPER was accepted that no giving up followed. */
  lemma {:induction false} OperIsEarned(log: Log)
    ensures IsOper(log) <==> exists i :: 0 <= i < |log| && log[i].Oper? && forall j :: i < j < |log| ==> !log[j].DropsOper()
  {
    if log != [] {
      var init, last := Init(log), Last(log);
      OperIsEarned(init);
      assert log == init + [last];
      assert forall k :: 0 <= k < |init| ==> log[k] == init[k];
      if last.Oper? {
        assert log[|log| - 1].Oper?;
      } else if IsOper(log) {
        var i :| 0 <= i < |init| && init[i].Oper? && forall j :: i < j < |init| ==> !init[j].DropsOper();
        assert log[i].Oper?;
      }
    }
  }

  // ---- what the machine forgets

  /** What an unregistered connection has given, and whether a negotiation is open. */
  datatype Given = Given(nick: bool, user: bool, cap: bool)

  /** Opening a negotiation forgets the NICK and the USER given before it. */
  function Remember(g: Given, req: Request): Given
  {
    if req.OpensCap() && !g.cap then Given(false, false, true)
    else if req.CapEnd? then g.(cap := false)
    else if req.Nick? then g.(nick := true)
    else if req.User? then g.(user := true)
    else g
  }

  function Memory(log: Log): Given
  {
    if log == [] then Given(false, false, false) else Remember(Memory(Init(log)), Last(log))
  }

  function StateOf(g: Given): ConnState
  {
    match g
    case Given(false, false, false) => ConnectionEstablished
    case Given(true, false, false) => NickGiven
    case Given(false, true, false) => UserGiven
    case Given(true, true, false) => Registered
    case Given(false, false, true) => CapGiven
    case Given(true, false, true) => CapNickGiven
    case Given(false, true, true) => CapUserGiven
    case Given(true, true, true) => CapNegotiation
  }

  /** Up to registration the eight states are exactly these three facts. */
  lemma {:induction false} StateIsMemory(log: Log)
    requires RunLog(log).Some? && RunLog(log) != Some(Gone)
    requires log != [] ==> RunLog(Init(log)) != Some(Registered)
    ensures RunLog(log).value == StateOf(Memory(log))
  {
    if log != [] {
      var init := Init(log);
      StateIsMemory(init);
    }
  }

  /** A request that opens a negotiation, at position `j`: none was open before. */
  predicate OpensAt(log: Log, j: nat)
    requires j < |log|
  {
    log[j].OpensCap() && !CapPending(log[..j])
  }

  /** No request after `i` opens a negotiation. */
  predicate KeptFrom(log: Log, i: nat)
  {
    forall j :: i < j < |log| ==> !OpensAt(log, j)
  }

  predicate NickKept(log: Log) { exists i :: 0 <= i < |log| && log[i].Nick? && KeptFrom(log, i) }
  predicate UserKept(log: Log) { exists i :: 0 <= i < |log| && log[i].User? && KeptFrom(log, i) }

  lemma KeptStep(log: Log, i: nat)
    requires i < |log| - 1
    ensures KeptFrom(log, i) <==> KeptFrom(Init(log), i) && !OpensAt(log, |log| - 1)
  {
    var init := Init(log);
    forall j | 0 <= j < |init| ensures OpensAt(init, j) <==> OpensAt(log, j) {
      assert init[..j] == log[..j];
    }
  }

  lemma KeptSteps(log: Log)
    requires log != []
    ensures KeptFrom(log, |log| - 1)
    ensures forall i :: 0 <= i < |log| - 1 ==> (KeptFrom(log, i) <==> KeptFrom(Init(log), i) && !OpensAt(log, |log| - 1))
  {
    hide OpensAt;
    forall i | 0 <= i < |log| - 1 ensures KeptFrom(log, i) <==> KeptFrom(Init(log), i) && !OpensAt(log, |log| - 1) {
      KeptStep(log, i);
    }
  }

  lemma NickGrows(log: Log)
    requires log != []
    ensures NickKept(log) <==> Last(log).Nick? || (NickKept(Init(log)) && !OpensAt(log, |log| - 1))
  {
    var init := Init(log);
    KeptSteps(log);
    hide KeptFrom, OpensAt;
    if NickKept(log) && !Last(log).Nick? {
      var i :| 0 <= i < |log| && log[i].Nick? && KeptFrom(log, i);
      assert init[i].Nick?;
    }
    if Last(log).Nick? {
      assert log[|log| - 1].Nick?;
    } else if NickKept(init) && !OpensAt(log, |log| - 1) {
      var i :| 0 <= i < |init| && init[i].Nick? && KeptFrom(init, i);
      assert log[i].Nick?;
    }
  }

  lemma UserGrows(log: Log)
    requires log != []
    ensures UserKept(log) <==> Last(log).User? || (UserKept(Init(log)) && !OpensAt(log, |log| - 1))
  {
    var init := Init(log);
    KeptSteps(log);
    hide KeptFrom, OpensAt;
    if UserKept(log) && !Last(log).User? {
      var i :| 0 <= i < |log| && log[i].User? && KeptFrom(log, i);
      assert init[i].User?;
    }
    if Last(log).User? {
      assert log[|log| - 1].User?;
    } else if UserKept(init) && !OpensAt(log, |log| - 1) {
      var i :| 0 <= i < |init| && init[i].User? && KeptFrom(init, i);
      assert log[i].User?;
    }
  }

  /** One more request: what is kept stays kept unless it opens a negotiation. */
  lemma KeptGrows(log: Log)
    requires log != []
    ensures var opens := Last(log).OpensCap() && !CapPending(Init(log));
            && (NickKept(log) <==> Last(log).Nick? || (NickKept(Init(log)) && !opens))
            && (UserKept(log) <==> Last(log).User? || (UserKept(Init(log)) && !opens))
  {
    NickGrows(log);
    UserGrows(log);
    hide NickKept, UserKept, CapPending;
  }

  /** The three facts a state stands for, read off the requests themselves. */
  lemma {:induction false} MemoryIsLog(log: Log)
    ensures Memory(log) == Given(NickKept(log), UserKept(log), CapPending(log))
  {
    if log != [] {
      MemoryIsLog(Init(log));
      KeptGrows(log);
      PendingGrows(log);
      hide NickKept, UserKept, CapPending;
    }
  }

  /**
   * A connection that was not registered before its last request is registered by it exactly when a
   * NICK and a USER were accepted that no opening of a negotiation followed, and none is open.
   */
  lemma RegisteredIff(log: Log)
    requires RunLog(log).Some? && RunLog(log) != Some(Gone)
    requires log != [] ==> RunLog(Init(log)) != Some(Registered)
    ensures RunLog(log) == Some(Registered) <==> NickKept(log) && UserKept(log) && !CapPending(log)
  {
    StateIsMemory(log);
    MemoryIsLog(log);
  }

  /** What a log has kept when it registers. */
  lemma EarnedWhenRegistered(log: Log, n: nat)
    requires 0 < n <= |log| && RegisteredFrom(log, n)
    ensures NickKept(log[..n]) && UserKept(log[..n]) && !CapPending(log[..n])
  {
    hide NickKept, UserKept, CapPending;
    assert Init(log[..n]) == log[..n - 1];
    RegisteredIff(log[..n]);
  }

  /** A registration at `n` is the only time PASS is over: every accepted PASS came before it. */
  lemma PassComesFirst(log: Log, n: nat, password: string)
    requires n <= |log| && HasPass(log, password) && RunLog(log).Some?
    requires RegisteredFrom(log, n)
    ensures HasPass(log[..n], password)
  {
    var i :| 0 <= i < |log| && log[i] == Pass(password);
    PassIsBefore(log, i, password);
    assert i < n;
    assert log[..n][i] == Pass(password);
  }

  /** PASS cannot be issued by a registered client. */
  lemma PassIsBefore(log: Log, i: nat, password: string)
    requires i < |log| && log[i] == Pass(password)
    ensures RunLog(log[..i]) == Some(Registered) ==> RunLog(log[..i + 1]).None?
  {
    var upTo := log[..i + 1];
    assert Init(upTo) == log[..i] && Last(upTo) == Pass(password);
  }

  /** NICK, USER and a closed negotiation are not enough: a NICK before CAP LS is forgotten. */
  lemma NickBeforeCapIsForgotten(nick: string, user: string, realname: string)
    ensures var log := [Nick(nick), CapLs, User(user, realname), CapEnd];
            HasNick(log) && HasUser(log) && !CapPending(log) && RunLog(log) == Some(UserGiven)
  {
    var log := [Nick(nick), CapLs, User(user, realname), CapEnd];
    assert log[0].Nick? && log[2].User? && log[3].CapEnd?;
    assert RunLog([]) == Some(ConnectionEstablished);
    assert Init(log[..1]) == [] && RunLog(log[..1]) == Some(NickGiven);
    assert Init(log[..2]) == log[..1] && RunLog(log[..2]) == Some(CapGiven);
    assert Init(log[..3]) == log[..2] && RunLog(log[..3]) == Some(CapUserGiven);
    assert Init(log) == log[..3];
  }
}
