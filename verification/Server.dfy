/**
 * The shared server state (src/state/mod.rs) and what every request does to it (src/state/v1.rs and
 * src/state/v3.rs), with one queue of events per client.
 */
module Server {
  import opened Text
  import opened Names
  import Caps
  import M = Modes
  import C = Channels
  import R = Registration

  type Id = C.Id

  /** What a client is told; channels are named by their canonical names. */
  datatype Event =
    | Joined(who: string, chan: string)
    | Parted(who: string, chan: string)
    | Kicked(source: string, who: string, chan: string)
    | Quitted(who: string)
    | Renamed(from: string, to: string)
    | NamesList(chan: string, nicks: set<string>)
    | ModeChanged(source: string, chan: string, modes: string, params: seq<string>)
    | Invited(source: string, who: string, chan: string)
    | AwayNotice(who: string, message: Option<string>)
    | RealName(who: string, name: string)
    | UserModeChanged(who: string, modes: string)
    | ModeReply(reply: C.Reply)
    | CapAck(diff: Caps.Diff)
    | Welcome
    | Numeric(code: string)

  datatype Client = Client(
    state: R.ConnState,
    nick: string,
    user: string,
    realname: string,
    host: string,
    caps: set<string>,
    hasPass: bool,
    away: Option<string>,
    invisible: bool,
    operator: bool,
    queue: seq<Event>,
    log: R.Log)  // history: the requests accepted on this connection

  /** An entry of the nick index: the key is the canonical nickname. */
  datatype NickEntry = NickEntry(spelling: string, id: Id)

  datatype State = State(clients: map<Id, Client>, nicks: map<string, NickEntry>, channels: map<string, C.Channel>)

  datatype Config = Config(
    password: string,
    opers: seq<(string, string)>,
    defaultModes: string,
    keylen: nat,
    awaylen: nat,
    namelen: nat,
    userlen: nat)

  /** What a handler leaves behind: the state, its replies to the issuer, and whether it succeeded. */
  datatype Out = Out(s: State, rb: seq<Event>, ok: bool)

  function NewClient(host: string): Client
  {
    Client(R.ConnectionEstablished, NO_NICK, "", "", host, {}, false, None, false, false, [], [])
  }

  function FullName(c: Client): string
  {
    c.nick + "!~" + c.user + "@" + c.host
  }

  function UpTo(s: string, n: nat): string
  {
    s[..if |s| < n then |s| else n]
  }

  function NickOf(s: State, id: Id): string
  {
    if id in s.clients then s.clients[id].nick else NO_NICK
  }

  /** The nicknames of a channel's members, up to case. */
  function NickSet(s: State, ch: C.Channel): set<string>
  {
    set m | m in ch.members :: Canonical(NickOf(s, m))
  }

  function NickMap(s: State, ch: C.Channel): (r: map<Id, string>)
    ensures r.Keys == ch.members.Keys
  {
    map m | m in ch.members :: NickOf(s, m)
  }

  // ---- sending

  /** One copy of an event on the queue of every target. */
  function Push(clients: map<Id, Client>, targets: set<Id>, ev: Event): (r: map<Id, Client>)
    ensures r.Keys == clients.Keys
  {
    map i | i in clients :: if i in targets then clients[i].(queue := clients[i].queue + [ev]) else clients[i]
  }

  predicate Shares(s: State, a: Id, b: Id)
  {
    exists k :: k in s.channels && a in s.channels[k].members && b in s.channels[k].members
  }

  /** The clients a notification goes to: those that share a channel, the issuer aside. */
  function Noticed(s: State, issuer: Id, cap: Option<string>): set<Id>
  {
    set i | i in s.clients && i != issuer && Shares(s, issuer, i) && (cap.None? || cap.value in s.clients[i].caps)
  }

  /** `send_notification`. */
  function Notify(s: State, issuer: Id, ev: Event, cap: Option<string>): (r: State)
    ensures r.clients.Keys == s.clients.Keys && r.nicks == s.nicks && r.channels == s.channels
  {
    s.(clients := Push(s.clients, Noticed(s, issuer, cap), ev))
  }

  // ---- connections

  function Connect(s: State, id: Id, host: string): State
  {
    if id in s.clients then s else s.(clients := s.clients[id := NewClient(host)])
  }

  /** The channels without a member; channels left empty are dropped. */
  function WithoutMember(channels: map<string, C.Channel>, id: Id): map<string, C.Channel>
  {
    map k | k in channels && channels[k].RemoveMember(id).members != map[] :: channels[k].RemoveMember(id)
  }

  /** `remove_client`. */
  function RemoveClient(s: State, id: Id): State
  {
    if id !in s.clients then s
    else
      var c := s.clients[id];
      var gone := s.(clients := s.clients - {id}, nicks := s.nicks - {Canonical(c.nick)});
      if c.state != R.Registered then gone
      else
        var told := Notify(gone, id, Quitted(c.nick), None);
        told.(channels := WithoutMember(told.channels, id))
  }

  // ---- registration requests

  function Nick(s: State, id: Id, nick: string): Out
    requires id in s.clients
  {
    var c, key := s.clients[id], Canonical(nick);
    if key in s.nicks && s.nicks[key].id != id then Out(s, [Numeric("433")], false)
    else if key in s.nicks && c.nick == nick then Out(s, [], true)
    else
      var named := s.(nicks := (s.nicks - {Canonical(c.nick)})[key := NickEntry(nick, id)],
                      clients := s.clients[id := c.(nick := nick)]);
      if c.state != R.Registered then Out(named, [], true)
      else Out(Notify(named, id, Renamed(c.nick, nick), None), [Renamed(c.nick, nick)], true)
  }

  function User(cfg: Config, s: State, id: Id, username: string, realname: string): Out
    requires id in s.clients
  {
    var c := s.clients[id];
    if cfg.password != "" && !c.hasPass then Out(RemoveClient(s, id), [Numeric("464")], false)
    else
      Out(s.(clients := s.clients[id := c.(user := UpTo(username, cfg.userlen), realname := UpTo(realname, cfg.namelen))]),
          [], true)
  }

  function Pass(cfg: Config, s: State, id: Id, password: string): Out
    requires id in s.clients
  {
    var c := s.clients[id];
    Out(if password == cfg.password then s.(clients := s.clients[id := c.(hasPass := true)]) else s, [], true)
  }

  function CapReq(s: State, id: Id, diff: Caps.Diff): Out
    requires id in s.clients
  {
    var c := s.clients[id];
    Out(s.(clients := s.clients[id := c.(caps := Caps.Update(c.caps, diff))]), [CapAck(diff)], true)
  }

  function Oper(cfg: Config, s: State, id: Id, name: string, password: string): Out
    requires id in s.clients
  {
    if (name, password) !in cfg.opers then Out(s, [Numeric("464")], false)
    else
      Out(s.(clients := s.clients[id := s.clients[id].(operator := true)]),
          [UserModeChanged(NickOf(s, id), "+o"), Numeric("381")], true)
  }

  function Away(cfg: Config, s: State, id: Id, reason: Option<string>): Out
    requires id in s.clients
  {
    var c := s.clients[id];
    if c.away.Some? == reason.Some? then Out(s, [], false)
    else
      var message := if reason.Some? then Some(UpTo(reason.value, cfg.awaylen)) else None;
      var s1 := s.(clients := s.clients[id := c.(away := message)]);
      Out(Notify(s1, id, AwayNotice(c.nick, message), Some("away-notify")),
          [Numeric(if reason.Some? then "306" else "305")], true)
  }

  function SetName(cfg: Config, s: State, id: Id, name: string): Out
    requires id in s.clients
  {
    if name == "" || cfg.namelen < |name| then Out(s, [Numeric("FAIL")], false)
    else
      var c := s.clients[id];
      var s1 := s.(clients := s.clients[id := c.(realname := name)]);
      Out(Notify(s1, id, RealName(c.nick, name), Some("setname")), [RealName(c.nick, name)], true)
  }

  /** `Client::apply_mode_change`: the client after the change, and whether anything changed. */
  function ApplyUser(c: Client, change: M.UserChange): (Client, bool)
  {
    match change
    case Invisible(on) => (c.(invisible := on), c.invisible != on)
    case DeOperator => (c.(operator := false), c.operator)
  }

  /** The items of MODE on a user, from left to right. */
  function UserModes(c: Client, rb: seq<Event>, applied: string, items: seq<M.UserItem>): (Client, seq<Event>, string)
    decreases items
  {
    if items == [] then (c, rb, applied)
    else match items[0]
    case UserGood(change) =>
      var (next, did) := ApplyUser(c, change);
      UserModes(next, rb, if did then applied + [if change.Value() then '+' else '-', change.Symbol()] else applied,
                items[1..])
    case UserUnknown(_) => UserModes(c, rb + [Numeric("501")], applied, items[1..])
    case UserUnchangeable(_) => UserModes(c, rb, applied, items[1..])
  }

  function ModeUser(s: State, id: Id, user: string, modes: string): Out
    requires id in s.clients
  {
    var c := s.clients[id];
    if Canonical(c.nick) != Canonical(user) then Out(s, [Numeric("502")], false)
    else
      var (next, rb, applied) := UserModes(c, [], "", M.UserQuery(modes));
      Out(s.(clients := s.clients[id := next]), rb + if applied == "" then [] else [UserModeChanged(c.nick, applied)], true)
  }

  // ---- joining

  datatype JoinCheck = Admitted | AlreadyIn | Refused(code: string)

  /** `check_join`, in the order of its tests. */
  function CheckJoin(c: Client, ch: C.Channel, id: Id, key: Option<string>): JoinCheck
  {
    if id in ch.members then AlreadyIn
    else if ch.key != key then Refused("475")
    else if ch.userLimit.Some? && ch.userLimit.value <= |ch.members| then Refused("471")
    else if !ch.IsInvited(id, c.nick) then Refused("473")
    else if ch.IsBanned(c.nick) || ch.IsBanned(FullName(c)) then Refused("474")
    else Admitted
  }

  function SendNames(s: State, id: Id, k: string): seq<Event>
  {
    if k !in s.channels || (s.channels[k].secret && id !in s.channels[k].members) then []
    else
      (if s.channels[k].members == map[] then [] else [NamesList(k, NickSet(s, s.channels[k]))]) + [Numeric("366")]
  }

  /** The channel a JOIN leads to: the one there is, or a new one. */
  ghost function ChannelFor(cfg: Config, s: State, k: string): C.Channel
  {
    if k in s.channels then s.channels[k] else C.NewChannel(cfg.defaultModes)
  }

  /** The members that `send_join` tells, and those it also tells about an away message. */
  ghost function EnterChannel(cfg: Config, s: State, id: Id, k: string): (r: State)
    requires id in s.clients
    ensures r.clients.Keys == s.clients.Keys
  {
    var c, ch := s.clients[id], ChannelFor(cfg, s, k).AddMember(id);
    var others := ch.members.Keys - {id};
    var told := Push(s.clients, others, Joined(c.nick, k));
    var aware := set m | m in others && m in s.clients && "away-notify" in s.clients[m].caps;
    State(if c.away.Some? then Push(told, aware, AwayNotice(c.nick, c.away)) else told, s.nicks, s.channels[k := ch])
  }

  ghost function JoinOne(cfg: Config, s: State, rb: seq<Event>, id: Id, chan: string, key: Option<string>)
    : (r: (State, seq<Event>))
    requires id in s.clients
    ensures id in r.0.clients
  {
    var c, k := s.clients[id], Canonical(chan);
    var check := if k in s.channels then CheckJoin(c, s.channels[k], id, key) else Admitted;
    match check
    case AlreadyIn => (s, rb)
    case Refused(code) => (s, rb + [Numeric(code)])
    case Admitted =>
      var s1 := EnterChannel(cfg, s, id, k);
      (s1, rb + [Joined(c.nick, k)] + SendNames(s1, id, k))
  }

  ghost function JoinAll(cfg: Config, s: State, rb: seq<Event>, id: Id, list: seq<(string, Option<string>)>)
    : (State, seq<Event>)
    requires id in s.clients
    decreases list
  {
    if list == [] then (s, rb)
    else
      var (s1, rb1) := JoinOne(cfg, s, rb, id, list[0].0, list[0].1);
      JoinAll(cfg, s1, rb1, id, list[1..])
  }

  // ---- leaving

  /** A member leaves a channel it is in: the others are told, and an emptied channel is dropped. */
  function Leave(s: State, id: Id, k: string): State
    requires k in s.channels
  {
    var ch := s.channels[k].RemoveMember(id);
    if ch.members == map[] then s.(channels := s.channels - {k})
    else State(Push(s.clients, ch.members.Keys, Parted(NickOf(s, id), k)), s.nicks, s.channels[k := ch])
  }

  function PartOne(s: State, rb: seq<Event>, id: Id, chan: string): (State, seq<Event>, bool)
  {
    var k := Canonical(chan);
    if k !in s.channels || id !in s.channels[k].members then (s, rb + [Numeric("442")], false)
    else (Leave(s, id, k), rb + [Parted(NickOf(s, id), k)], true)
  }

  function PartAll(s: State, rb: seq<Event>, ok: bool, id: Id, list: seq<string>): Out
    decreases list
  {
    if list == [] then Out(s, rb, ok)
    else
      var (s1, rb1, ok1) := PartOne(s, rb, id, list[0]);
      PartAll(s1, rb1, ok && ok1, id, list[1..])
  }

  /** JOIN 0, walking the channels in the given order of canonical names. */
  function PartEverywhere(s: State, rb: seq<Event>, id: Id, order: seq<string>): Out
    decreases order
  {
    if order == [] then Out(s, rb, true)
    else
      var k := order[0];
      if k in s.channels && id in s.channels[k].members then
        PartEverywhere(Leave(s, id, k), rb + [Parted(NickOf(s, id), k)], id, order[1..])
      else PartEverywhere(s, rb, id, order[1..])
  }

  // ---- acting on others

  /** `find_nick`: the registered client with this nickname, up to case. */
  function FindNick(s: State, nick: string): Option<Id>
  {
    var key := Canonical(nick);
    if key in s.nicks && s.nicks[key].id in s.clients && s.clients[s.nicks[key].id].state == R.Registered
    then Some(s.nicks[key].id) else None
  }

  /** A member is taken out of the channel and those left are told; the channel stays even when empty. */
  function Expel(s: State, id: Id, k: string, t: Id, nick: string): (r: State)
    requires k in s.channels
    ensures r.clients.Keys == s.clients.Keys && r.channels.Keys == s.channels.Keys
  {
    var ch := s.channels[k].RemoveMember(t);
    State(Push(s.clients, ch.members.Keys - {id}, Kicked(NickOf(s, id), nick, k)), s.nicks, s.channels[k := ch])
  }

  function KickOne(s: State, rb: seq<Event>, id: Id, k: string, nick: string): (r: (State, seq<Event>))
    requires k in s.channels
    ensures k in r.0.channels
  {
    match FindNick(s, nick)
    case None => (s, rb + [Numeric("401"), Numeric("441")])
    case Some(t) =>
      if t !in s.channels[k].members then (s, rb + [Numeric("441")])
      else (Expel(s, id, k, t, nick), rb + [Kicked(NickOf(s, id), nick, k)])
  }

  function KickAll(s: State, rb: seq<Event>, id: Id, k: string, who: seq<string>): (State, seq<Event>)
    requires k in s.channels
    decreases who
  {
    if who == [] then (s, rb)
    else
      var (s1, rb1) := KickOne(s, rb, id, k, who[0]);
      KickAll(s1, rb1, id, k, who[1..])
  }

  function Kick(s: State, id: Id, chan: string, who: seq<string>): Out
  {
    var k := Canonical(chan);
    if k !in s.channels then Out(s, [Numeric("403")], false)
    else if id !in s.channels[k].members then Out(s, [Numeric("442")], false)
    else if !s.channels[k].members[id].operator then Out(s, [Numeric("482")], false)
    else
      var (s1, rb) := KickAll(s, [], id, k, who);
      Out(s1, rb, true)
  }

  function Kill(s: State, id: Id, nick: string): Out
    requires id in s.clients
  {
    if !s.clients[id].operator then Out(s, [Numeric("481")], false)
    else match FindNick(s, nick)
    case None => Out(s, [Numeric("401")], false)
    case Some(t) => Out(RemoveClient(s, t), [], true)
  }

  function Invite(s: State, id: Id, nick: string, chan: string): Out
    requires id in s.clients
  {
    var k := Canonical(chan);
    match FindNick(s, nick)
    case None => Out(s, [Numeric("401")], false)
    case Some(t) =>
      if k !in s.channels then Out(s, [Numeric("403")], false)
      else
        var ch := s.channels[k];
        if !ch.CanInvite(id) then Out(s, [Numeric("482")], false)
        else if t in ch.members then Out(s, [Numeric("443")], false)
        else if t in ch.invites then Out(s, [], false)
        else
          var ev := Invited(NickOf(s, id), nick, k);
          var aware := set m | m in ch.members && m != id && m in s.clients
                              && "invite-notify" in s.clients[m].caps && ch.CanInvite(m);
          Out(State(Push(Push(s.clients, {t}, ev), aware, ev), s.nicks, s.channels[k := ch.(invites := ch.invites + {t})]),
              [Numeric("341")] + (if t in s.clients && s.clients[t].away.Some? then [Numeric("301")] else []), true)
  }

  function AsEvents(replies: seq<C.Reply>): (r: seq<Event>)
    ensures forall e :: e in r ==> e.ModeReply?
  {
    seq(|replies|, k requires 0 <= k < |replies| => ModeReply(replies[k]))
  }

  /** MODE on a channel: all or nothing by privilege, then every change that applies. */
  ghost function Mode(cfg: Config, s: State, id: Id, chan: string, modes: string, params: seq<string>): Out
    requires id in s.clients
  {
    var k := Canonical(chan);
    if k !in s.channels then Out(s, [Numeric("403")], false)
    else if id !in s.channels[k].members then Out(s, [Numeric("442")], false)
    else
      var ch, items := s.channels[k], M.Query(modes, params);
      if !s.clients[id].operator && !C.CanChange(ch.members[id], items) then Out(s, [Numeric("482")], false)
      else
        var (final, applied) := C.ApplyAll(ch, items, cfg.keylen, NickMap(s, ch));
        var answers := AsEvents(C.AllReplies(ch, items, cfg.keylen, NickMap(s, ch)));
        var changed := s.(channels := s.channels[k := final]);
        if applied == [] then Out(changed, answers, true)
        else
          var ev := ModeChanged(NickOf(s, id), k, M.PrintModes(applied, None), M.PrintParams(applied));
          Out(changed.(clients := Push(s.clients, final.members.Keys - {id}, ev)), answers + [ev], true)
  }

  function NamesAll(s: State, rb: seq<Event>, id: Id, list: seq<string>): seq<Event>
    decreases list
  {
    if list == [] then rb else NamesAll(s, rb + SendNames(s, id, Canonical(list[0])), id, list[1..])
  }

  // ---- one message

  ghost function Dispatch(cfg: Config, s: State, id: Id, req: R.Request): Out
    requires id in s.clients
  {
    match req
    case Nick(nick) => Nick(s, id, nick)
    case User(username, realname) => User(cfg, s, id, username, realname)
    case Pass(password) => Pass(cfg, s, id, password)
    case CapReq(diff) => CapReq(s, id, diff)
    case Quit => Out(RemoveClient(s, id), [], true)
    case Join(channels) => var (s1, rb) := JoinAll(cfg, s, [], id, channels); Out(s1, rb, true)
    case Part(leaving) => PartAll(s, [], true, id, leaving)
    case PartAll(order) => PartEverywhere(s, [], id, order)
    case Kick(from, who) => Kick(s, id, from, who)
    case Kill(target) => Kill(s, id, target)
    case Mode(channel, modes, params) => Mode(cfg, s, id, channel, modes, params)
    case Invite(guest, to) => Invite(s, id, guest, to)
    case Oper(name, password) => Oper(cfg, s, id, name, password)
    case Away(reason) => Away(cfg, s, id, reason)
    case SetName(name) => SetName(cfg, s, id, name)
    case Names(listed) => Out(s, NamesAll(s, [], id, listed), true)
    case ModeUser(user, modes) => ModeUser(s, id, user, modes)
    case CapEnd | Pong => Out(s, [], true)
    case CapLs | CapList | Authenticate | Ping | ReadOnly => Out(s, [Numeric("")], true)  // some reply
  }

  /** Replies go on the issuer's queue when the handler is done. */
  function Deliver(s: State, id: Id, rb: seq<Event>): State
    requires id in s.clients
  {
    s.(clients := s.clients[id := s.clients[id].(queue := s.clients[id].queue + rb)])
  }

  /** The connection state advances after a successful request; the first registration is welcomed. */
  function Advance(s: State, id: Id, req: R.Request, next: R.ConnState): State
    requires id in s.clients
  {
    s.(clients := s.clients[id := s.clients[id].(state := next, log := s.clients[id].log + [req])])
  }

  function Greeting(before: R.ConnState, after: R.ConnState): seq<Event>
  {
    if after == R.Registered && before != R.Registered then [Welcome] else []
  }

  /** What the server does after the handler. */
  function Finish(out: Out, id: Id, req: R.Request): State
  {
    if id !in out.s.clients then out.s
    else
      var c := out.s.clients[id];
      var next := R.Apply(c.state, req);
      if out.ok && next.Some? then
        Deliver(Advance(out.s, id, req, next.value), id, out.rb + Greeting(c.state, next.value))
      else Deliver(out.s, id, out.rb)
  }

  /** `handle_message` for a request that was parsed. */
  ghost function Handle(cfg: Config, s: State, id: Id, req: R.Request): State
  {
    if id !in s.clients then s
    else if req.Nick? && !IsNickname(req.nick) then Deliver(s, id, [Numeric("432")])
    else if R.Apply(s.clients[id].state, req).None? then
      Deliver(s, id, [Numeric(if s.clients[id].state == R.Registered then "462" else "451")])
    else Finish(Dispatch(cfg, s, id, req), id, req)
  }

  /** Everything that can happen to the server. */
  datatype Input =
    | Arrive(id: Id, host: string)        // a connection gets a free identifier, possibly a used one
    | Request(id: Id, req: R.Request)
    | Malformed(id: Id, code: string)     // a line that is no request is answered with an error
    | Hangup(id: Id)
    | Timeout(id: Id)                     // a client that has not registered in time

  ghost function Step(cfg: Config, s: State, input: Input): State
  {
    match input
    case Arrive(id, host) => Connect(s, id, host)
    case Request(id, req) => Handle(cfg, s, id, req)
    case Malformed(id, code) => if id in s.clients then Deliver(s, id, [Numeric(code)]) else s
    case Hangup(id) => RemoveClient(s, id)
    case Timeout(id) => if id in s.clients && s.clients[id].state != R.Registered then RemoveClient(s, id) else s
  }

  const INITIAL := State(map[], map[], map[])

  ghost function Run(cfg: Config, s: State, inputs: seq<Input>): State
    decreases inputs
  {
    if inputs == [] then s else Run(cfg, Step(cfg, s, inputs[0]), inputs[1..])
  }
}
