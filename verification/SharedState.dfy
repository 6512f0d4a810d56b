/**
 * The object behind the server's mutex (src/state/mod.rs): its handlers update the maps in place, and
 * no lookup of theirs can fail.
 */
module SharedState {
  import opened Text
  import opened Names
  import opened Server
  import opened ServerInvariant
  import Caps
  import Connections
  import Mirror
  import Notifications
  import M = Modes
  import C = Channels
  import R = Registration

  // ---- facts about pushing events

  lemma PushNone(clients: map<Id, Client>, ev: Event)
    ensures Push(clients, {}, ev) == clients
  {
  }

  lemma PushOneMore(clients: map<Id, Client>, done: set<Id>, i: Id, ev: Event)
    requires i in clients && i !in done
    ensures Push(clients, done, ev)[i] == clients[i]
    ensures Push(clients, done, ev)[i := clients[i].(queue := clients[i].queue + [ev])] == Push(clients, done + {i}, ev)
  {
  }

  /** The identifiers in use that are still ahead of a search. */
  function From(ids: set<Id>, id: Id): set<Id>
  {
    set i | i in ids && id <= i
  }

  lemma FewerFrom(ids: set<Id>, id: Id)
    requires id in ids
    ensures |From(ids, id + 1)| < |From(ids, id)|
  {
    assert From(ids, id + 1) == From(ids, id) - {id};
  }

  predicate Wants(clients: map<Id, Client>, i: Id, issuer: Id, cap: Option<string>)
  {
    i in clients && issuer != i && (cap.None? || cap.value in clients[i].caps)
  }

  lemma NoticedAreMates(s: State, issuer: Id, cap: Option<string>, mates: set<Id>)
    requires forall i :: i in mates <==> Shares(s, issuer, i)
    ensures Noticed(s, issuer, cap) - mates == {}
  {
  }

  /** The next client to be offered a copy takes it exactly when it is to be noticed. */
  lemma NextOffer(s: State, issuer: Id, cap: Option<string>, mates: set<Id>, todo: set<Id>, i: Id)
    requires (forall m :: m in mates <==> Shares(s, issuer, m)) && todo <= mates && i in todo
    ensures var all := Noticed(s, issuer, cap);
            all - (todo - {i}) == if Wants(s.clients, i, issuer, cap) then all - todo + {i} else all - todo
  {
  }

  /** The channels walked so far, with `id` taken out and emptied ones dropped. */
  predicate Retained(before: map<string, C.Channel>, now: map<string, C.Channel>, todo: set<string>, id: Id)
  {
    && todo <= before.Keys && now.Keys <= before.Keys
    && (forall k :: k in todo ==> k in now && now[k] == before[k])
    && (forall k :: k in before && k !in todo ==>
          (k in now <==> before[k].RemoveMember(id).members != map[]) && (k in now ==> now[k] == before[k].RemoveMember(id)))
  }

  lemma AllRetained(before: map<string, C.Channel>, now: map<string, C.Channel>, id: Id)
    requires Retained(before, now, {}, id)
    ensures now == WithoutMember(before, id)
  {
  }

  lemma MembersAreClients(s: State, k: string)
    requires Core(s) && k in s.channels
    ensures s.channels[k].members.Keys <= s.clients.Keys
  {
  }

  /** Members can be told apart by their nicknames. */
  lemma MembersNicknamed(s: State, k: string)
    requires Core(s) && k in s.channels
    ensures C.Nicknamed(s.channels[k], NickMap(s, s.channels[k]))
  {
  }

  lemma MemberNicks(s: State, ch: C.Channel, nickOf: map<Id, string>)
    requires nickOf.Keys == ch.members.Keys <= s.clients.Keys
    requires forall m :: m in nickOf ==> nickOf[m] == s.clients[m].nick
    ensures nickOf == NickMap(s, ch)
  {
  }

  lemma {:induction false} PartEverywhereSnoc(s: State, rb: seq<Event>, id: Id, order: seq<string>, k: string)
    ensures var before := PartEverywhere(s, rb, id, order);
            PartEverywhere(s, rb, id, order + [k]) == PartEverywhere(before.s, before.rb, id, [k])
    decreases order
  {
    if order == [] {
      assert [] + [k] == [k];
    } else {
      assert (order + [k])[1..] == order[1..] + [k];
      var j := order[0];
      if j in s.channels && id in s.channels[j].members {
        PartEverywhereSnoc(Leave(s, id, j), rb + [Parted(NickOf(s, id), j)], id, order[1..], k);
      } else {
        PartEverywhereSnoc(s, rb, id, order[1..], k);
      }
    }
  }

  lemma {:induction false} RunSnoc(cfg: Config, s: State, inputs: seq<Input>, input: Input)
    ensures Run(cfg, s, inputs + [input]) == Step(cfg, Run(cfg, s, inputs), input)
    decreases inputs
  {
    hide Step;
    if inputs == [] {
      assert [] + [input] == [input];
    } else {
      assert (inputs + [input])[1..] == inputs[1..] + [input];
      RunSnoc(cfg, Step(cfg, s, inputs[0]), inputs[1..], input);
    }
  }

  lemma PartNowhere(s: State, id: Id)
    ensures PartEverywhere(s, [], id, []) == Out(s, [], true)
  {
  }

  lemma PartOneMore(s: State, rb: seq<Event>, id: Id, k: string)
    requires k in s.channels
    ensures PartEverywhere(s, rb, id, [k])
         == if id in s.channels[k].members then Out(Leave(s, id, k), rb + [Parted(NickOf(s, id), k)], true) else Out(s, rb, true)
  {
  }

  lemma OneMoreKey(all: set<string>, todo: set<string>, k: string, order: seq<string>)
    requires todo <= all && k in todo && multiset(order) == multiset(all - todo)
    ensures multiset(order + [k]) == multiset(all - (todo - {k}))
  {
  }

  lemma LeaveKeepsClients(s: State, id: Id, k: string)
    requires k in s.channels
    ensures Leave(s, id, k).clients.Keys == s.clients.Keys
  {
  }

  /** RequestHeard says nothing of JOIN 0, whatever the order. */
  lemma OrderNotHeard(cfg: Config, s: State, id: Id, req: R.Request)
    requires req.PartAll?
    ensures forall t: State :: Live(s, id) ==> Notifications.RequestHeard(cfg, s, t, id, req)
  {
  }

  /** Leaving a channel touches no other channel, and leaves the member out. */
  lemma LeaveTouchesOne(s: State, id: Id, k: string)
    requires k in s.channels
    ensures var t := Leave(s, id, k);
            && (forall j :: j != k ==> (j in t.channels <==> j in s.channels))
            && (forall j :: j != k && j in t.channels ==> t.channels[j] == s.channels[j])
            && (k in t.channels ==> id !in t.channels[k].members)
  {
  }

  /** `check_join`, with the mask lists of the channel. */
  method CheckEntry(c: Client, ch: C.Channel, id: Id, key: Option<string>) returns (r: JoinCheck)
    ensures r == CheckJoin(c, ch, id, key)
  {
    if id in ch.members { return AlreadyIn; }
    if ch.key != key { return Refused("475"); }
    if ch.userLimit.Some? && ch.userLimit.value <= |ch.members| { return Refused("471"); }
    var invited := C.TestInvitation(ch, id, c.nick);
    if !invited { return Refused("473"); }
    var nickBanned := C.TestBan(ch, c.nick);
    var nameBanned := C.TestBan(ch, FullName(c));
    if nickBanned || nameBanned { return Refused("474"); }
    return Admitted;
  }

  /** Requests served without looking at other clients' channels. */
  predicate OwnRequest(req: R.Request)
  {
    !(req.Join? || req.Part? || req.PartAll? || req.Kick? || req.Kill? || req.Mode? || req.Invite? || req.Names?)
  }

  class StateInner {
    const cfg: Config
    var clients: map<Id, Client>
    var nicks: map<string, NickEntry>
    var channels: map<string, C.Channel>
    ghost var trace: seq<Input>  // everything that happened so far

    function View(): State
      reads this
    {
      State(clients, nicks, channels)
    }

    /** The fields are what the history leads to. */
    ghost predicate Valid()
      reads this
    {
      View() == Run(cfg, INITIAL, trace)
    }

    constructor (cfg: Config)
      ensures Valid() && trace == [] && this.cfg == cfg && View() == INITIAL
    {
      this.cfg := cfg;
      clients, nicks, channels, trace := map[], map[], map[], [];
    }

    /** What always holds between two inputs. */
    lemma Invariant()
      requires Valid()
      ensures Core(View()) && Connections.ClientsOk(cfg, View())
    {
      Connections.ReachableInvariant(cfg, trace);
    }

    /** A member of a channel knows from its own queue who is on it. */
    lemma MembersKnowEachOther(o: Id, k: string)
      requires Valid() && k in channels && o in channels[k].members
      ensures o in clients && Mirror.View(clients[o].queue, k) == NickSet(View(), channels[k])
    {
      Mirror.MembershipMirror(cfg, trace, o, k);
    }

    // ---- sending

    /** One copy for each target; every target must be in the slab. */
    method SendTo(targets: set<Id>, ev: Event)
      requires targets <= clients.Keys
      modifies `clients
      ensures clients == Push(old(clients), targets, ev)
    {
      PushNone(clients, ev);
      var todo := targets;
      assert targets - todo == {};
      while todo != {}
        invariant todo <= targets
        invariant clients == Push(old(clients), targets - todo, ev)
        decreases |todo|
      {
        var i :| i in todo;
        PushOneMore(old(clients), targets - todo, i, ev);
        clients := clients[i := clients[i].(queue := clients[i].queue + [ev])];
        assert targets - todo + {i} == targets - (todo - {i});
        todo := todo - {i};
      }
      assert targets - todo == targets;
    }

    /** The clients that share a channel with the issuer, itself included. */
    method ChannelMates(issuer: Id) returns (mates: set<Id>)
      ensures forall i :: i in mates <==> Shares(View(), issuer, i)
    {
      mates := {};
      var todo := channels.Keys;
      while todo != {}
        invariant todo <= channels.Keys
        invariant forall i :: i in mates <==>
                    exists k :: k in channels && k !in todo && issuer in channels[k].members && i in channels[k].members
        decreases |todo|
      {
        var k :| k in todo;
        todo := todo - {k};
        if issuer in channels[k].members {
          mates := mates + channels[k].members.Keys;
        }
      }
    }

    /** Sends to one client unless it is gone, the issuer, or filtered out. */
    method Offer(i: Id, issuer: Id, ev: Event, cap: Option<string>, ghost before: map<Id, Client>, ghost done: set<Id>)
      requires clients == Push(before, done, ev) && i !in done
      modifies `clients
      ensures clients == Push(before, if Wants(before, i, issuer, cap) then done + {i} else done, ev)
    {
      if i in clients {
        PushOneMore(before, done, i, ev);
        if issuer != i && (cap.None? || cap.value in clients[i].caps) {
          clients := clients[i := clients[i].(queue := clients[i].queue + [ev])];
        }
      }
    }

    /** `send_notification`: identifiers that are no longer in the slab are skipped. */
    method SendNotification(issuer: Id, ev: Event, cap: Option<string>)
      modifies `clients
      ensures clients == Push(old(clients), Noticed(old(View()), issuer, cap), ev)
    {
      hide Push, Wants, Noticed, Shares;
      var mates := ChannelMates(issuer);
      ghost var s := View();
      ghost var all := Noticed(s, issuer, cap);
      PushNone(clients, ev);
      NoticedAreMates(s, issuer, cap, mates);
      var todo := mates;
      while todo != {}
        invariant todo <= mates
        invariant clients == Push(s.clients, all - todo, ev)
        decreases |todo|
      {
        var i :| i in todo;
        NextOffer(s, issuer, cap, mates, todo, i);
        Offer(i, issuer, ev, cap, s.clients, all - todo);
        todo := todo - {i};
      }
      assert all - todo == all;
    }

    /** Replies go on the issuer's own queue. */
    method Reply(id: Id, rb: seq<Event>)
      requires id in clients
      modifies `clients
      ensures View() == Deliver(old(View()), id, rb)
    {
      clients := clients[id := clients[id].(queue := clients[id].queue + rb)];
    }

    // ---- connections

    /** The slab gives out some free identifier; which one is its own business. */
    method Insert(host: string) returns (id: Id)
      modifies `clients
      ensures id !in old(clients) && View() == Connect(old(View()), id, host)
    {
      id := 0;
      while id in clients
        invariant clients == old(clients)
        decreases |From(clients.Keys, id)|
      {
        FewerFrom(clients.Keys, id);
        id := id + 1;
      }
      clients := clients[id := NewClient(host)];
    }

    /** Takes `id` out of every channel and keeps the channels that still have members. */
    method RetainOthers(id: Id)
      modifies `channels
      ensures channels == WithoutMember(old(channels), id)
    {
      var todo := channels.Keys;
      while todo != {}
        invariant Retained(old(channels), channels, todo, id)
        decreases |todo|
      {
        var k :| k in todo;
        var ch := channels[k].RemoveMember(id);
        todo := todo - {k};
        if ch.members == map[] {
          channels := channels - {k};
        } else {
          channels := channels[k := ch];
        }
      }
      AllRetained(old(channels), channels, id);
    }

    /** `remove_client`. */
    method Remove(id: Id)
      modifies `clients, `nicks, `channels
      ensures View() == RemoveClient(old(View()), id)
    {
      if id !in clients { return; }
      var client := clients[id];
      clients := clients - {id};
      nicks := nicks - {Canonical(client.nick)};
      if client.state == R.Registered {
        SendNotification(id, Quitted(client.nick), None);
        RetainOthers(id);
      }
    }

    // ---- the issuer's own record

    /** `cmd_nick`. */
    method CmdNick(id: Id, nick: string) returns (rb: seq<Event>, ok: bool)
      requires id in clients
      modifies `clients, `nicks
      ensures Out(View(), rb, ok) == Nick(old(View()), id, nick)
    {
      var issuer, key := clients[id], Canonical(nick);
      if key in nicks {
        if nicks[key].id != id { return [Numeric("433")], false; }
        if issuer.nick == nick { return [], true; }
      }
      nicks := nicks - {Canonical(issuer.nick)};
      nicks := nicks[key := NickEntry(nick, id)];
      clients := clients[id := issuer.(nick := nick)];
      if issuer.state != R.Registered { return [], true; }
      SendNotification(id, Renamed(issuer.nick, nick), None);
      return [Renamed(issuer.nick, nick)], true;
    }

    /** `cmd_user`. */
    method CmdUser(id: Id, username: string, realname: string) returns (rb: seq<Event>, ok: bool)
      requires id in clients
      modifies `clients, `nicks, `channels
      ensures Out(View(), rb, ok) == User(cfg, old(View()), id, username, realname)
    {
      if cfg.password != "" && !clients[id].hasPass {
        Remove(id);
        return [Numeric("464")], false;
      }
      clients := clients[id := clients[id].(user := UpTo(username, cfg.userlen))];
      clients := clients[id := clients[id].(realname := UpTo(realname, cfg.namelen))];
      return [], true;
    }

    /** `cmd_pass`. */
    method CmdPass(id: Id, password: string) returns (rb: seq<Event>, ok: bool)
      requires id in clients
      modifies `clients
      ensures Out(View(), rb, ok) == Pass(cfg, old(View()), id, password)
    {
      if cfg.password == password {
        clients := clients[id := clients[id].(hasPass := true)];
      }
      return [], true;
    }

    /** `cmd_cap_req`. */
    method CmdCapReq(id: Id, diff: Caps.Diff) returns (rb: seq<Event>, ok: bool)
      requires id in clients
      modifies `clients
      ensures Out(View(), rb, ok) == CapReq(old(View()), id, diff)
    {
      clients := clients[id := clients[id].(caps := Caps.Update(clients[id].caps, diff))];
      return [CapAck(diff)], true;
    }

    /** `cmd_oper`. */
    method CmdOper(id: Id, name: string, password: string) returns (rb: seq<Event>, ok: bool)
      requires id in clients
      modifies `clients
      ensures Out(View(), rb, ok) == Oper(cfg, old(View()), id, name, password)
    {
      for k := 0 to |cfg.opers|
        invariant (name, password) !in cfg.opers[..k]
        invariant clients == old(clients)
      {
        if cfg.opers[k] == (name, password) {
          clients := clients[id := clients[id].(operator := true)];
          return [UserModeChanged(clients[id].nick, "+o"), Numeric("381")], true;
        }
      }
      assert cfg.opers[..|cfg.opers|] == cfg.opers;
      return [Numeric("464")], false;
    }

    /** `cmd_away`. */
    method CmdAway(id: Id, reason: Option<string>) returns (rb: seq<Event>, ok: bool)
      requires id in clients
      modifies `clients
      ensures Out(View(), rb, ok) == Away(cfg, old(View()), id, reason)
    {
      var client := clients[id];
      if client.away.Some? == reason.Some? { return [], false; }
      var message := if reason.Some? then Some(UpTo(reason.value, cfg.awaylen)) else None;
      clients := clients[id := client.(away := message)];
      SendNotification(id, AwayNotice(client.nick, message), Some("away-notify"));
      return [Numeric(if reason.Some? then "306" else "305")], true;
    }

    /** `cmd_setname`. */
    method CmdSetName(id: Id, name: string) returns (rb: seq<Event>, ok: bool)
      requires id in clients
      modifies `clients
      ensures Out(View(), rb, ok) == SetName(cfg, old(View()), id, name)
    {
      if name == "" || cfg.namelen < |name| { return [Numeric("FAIL")], false; }
      var client := clients[id];
      clients := clients[id := client.(realname := name)];
      SendNotification(id, RealName(client.nick, name), Some("setname"));
      return [RealName(client.nick, name)], true;
    }

    /** `cmd_mode_user_set`. */
    method CmdModeUser(id: Id, user: string, modes: string) returns (rb: seq<Event>, ok: bool)
      requires id in clients
      modifies `clients
      ensures Out(View(), rb, ok) == ModeUser(old(View()), id, user, modes)
    {
      if Canonical(clients[id].nick) != Canonical(user) { return [Numeric("502")], false; }
      var client, nick, applied, items := clients[id], clients[id].nick, "", M.UserQuery(modes);
      hide M.UserQuery;
      rb := [];
      assert items[0..] == items;
      for n := 0 to |items|
        invariant UserModes(client, rb, applied, items[n..]) == UserModes(old(clients)[id], [], "", items)
        invariant clients == old(clients)
      {
        assert items[n..][1..] == items[n + 1..];
        match items[n]
        case UserGood(change) =>
          var did;
          client, did := ApplyUser(client, change).0, ApplyUser(client, change).1;
          if did { applied := applied + [if change.Value() then '+' else '-', change.Symbol()]; }
        case UserUnknown(_) => rb := rb + [Numeric("501")];
        case UserUnchangeable(_) =>
      }
      assert items[|items|..] == [];
      assert (client, rb, applied) == UserModes(old(clients)[id], [], "", items);
      clients := clients[id := client];
      return rb + (if applied == "" then [] else [UserModeChanged(nick, applied)]), true;
    }

    // ---- joining

    /** `send_names`: every member must be in the slab. */
    method NamesReply(id: Id, k: string) returns (rb: seq<Event>)
      requires k in channels ==> channels[k].members.Keys <= clients.Keys
      ensures rb == SendNames(View(), id, k)
    {
      if k !in channels { return []; }
      var ch := channels[k];
      if ch.secret && id !in ch.members { return []; }
      if ch.members == map[] { return [Numeric("366")]; }
      var names: set<string> := {};
      var todo := ch.members.Keys;
      while todo != {}
        invariant todo <= ch.members.Keys
        invariant names == set m | m in ch.members && m !in todo :: Canonical(NickOf(View(), m))
        decreases |todo|
      {
        var m :| m in todo;
        names := names + {Canonical(clients[m].nick)};
        todo := todo - {m};
      }
      assert names == NickSet(View(), ch);
      return [NamesList(k, names), Numeric("366")];
    }

    /** `send_join`: every member of the channel must be in the slab. */
    method SendJoin(id: Id, k: string, client: Client)
      requires k in channels && channels[k].members.Keys <= clients.Keys
      modifies `clients
      ensures var others := channels[k].members.Keys - {id};
              var told := Push(old(clients), others, Joined(client.nick, k));
              var aware := set m | m in others && m in old(clients) && "away-notify" in old(clients)[m].caps;
              clients == if client.away.Some? then Push(told, aware, AwayNotice(client.nick, client.away)) else told
    {
      var others := channels[k].members.Keys - {id};
      SendTo(others, Joined(client.nick, k));
      if client.away.Some? {
        var aware := set m | m in others && "away-notify" in clients[m].caps;
        assert aware == set m | m in others && m in old(clients) && "away-notify" in old(clients)[m].caps;
        SendTo(aware, AwayNotice(client.nick, client.away));
      }
    }

    /** One channel of `cmd_join`. */
    method JoinChannel(id: Id, rb0: seq<Event>, name: string, key: Option<string>) returns (rb: seq<Event>)
      requires Core(View()) && Live(View(), id)
      modifies `clients, `channels
      ensures (View(), rb) == JoinOne(cfg, old(View()), rb0, id, name, key)
      ensures Core(View()) && Live(View(), id)
    {
      hide Core;
      var k := Canonical(name);
      var check := Admitted;
      if k in channels {
        MembersAreClients(View(), k);
        check := CheckEntry(clients[id], channels[k], id, key);
      }
      match check
      case AlreadyIn => return rb0;
      case Refused(code) => return rb0 + [Numeric(code)];
      case Admitted =>
        EnterCore(cfg, View(), id, k);
        rb := Enter(id, k);
        rb := rb0 + [Joined(clients[id].nick, k)] + rb;
    }

    method Enter(id: Id, k: string) returns (names: seq<Event>)
      requires id in clients && (k in channels ==> channels[k].members.Keys <= clients.Keys)
      modifies `clients, `channels
      ensures View() == EnterChannel(cfg, old(View()), id, k) && names == SendNames(View(), id, k)
    {
      C.NewChannelIsEmpty(cfg.defaultModes);
      var client := clients[id];
      if k !in channels {
        var fresh_ := C.CreateChannel(cfg.defaultModes);
        channels := channels[k := fresh_];
      }
      channels := channels[k := channels[k].AddMember(id)];
      SendJoin(id, k, client);
      names := NamesReply(id, k);
    }

    /** `cmd_join`. */
    method CmdJoin(id: Id, list: seq<(string, Option<string>)>) returns (rb: seq<Event>)
      requires Core(View()) && Live(View(), id)
      modifies `clients, `channels
      ensures (View(), rb) == JoinAll(cfg, old(View()), [], id, list)
    {
      hide Core, JoinOne;
      rb := [];
      assert list[0..] == list;
      for n := 0 to |list|
        invariant Core(View()) && Live(View(), id)
        invariant JoinAll(cfg, View(), rb, id, list[n..]) == JoinAll(cfg, old(View()), [], id, list)
      {
        assert list[n..][1..] == list[n + 1..];
        rb := JoinChannel(id, rb, list[n].0, list[n].1);
      }
    }

    // ---- leaving

    /** Takes a member off a channel; the others are told, and an emptied channel is dropped. */
    method LeaveChannel(id: Id, k: string)
      requires id in clients && k in channels && channels[k].members.Keys <= clients.Keys
      modifies `clients, `channels
      ensures View() == Leave(old(View()), id, k)
    {
      var ch := channels[k].RemoveMember(id);
      channels := channels[k := ch];
      if ch.members == map[] {
        assert channels - {k} == old(channels) - {k};
        channels := channels - {k};
      } else {
        SendTo(ch.members.Keys, Parted(clients[id].nick, k));
      }
    }

    /** `cmd_part`. */
    method CmdPart(id: Id, leaving: seq<string>) returns (rb: seq<Event>, ok: bool)
      requires Core(View()) && id in clients
      modifies `clients, `channels
      ensures Out(View(), rb, ok) == PartAll(old(View()), [], true, id, leaving)
    {
      hide Core, Leave;
      rb, ok := [], true;
      assert leaving[0..] == leaving;
      for n := 0 to |leaving|
        invariant Core(View()) && id in clients
        invariant PartAll(View(), rb, ok, id, leaving[n..]) == PartAll(old(View()), [], true, id, leaving)
      {
        assert leaving[n..][1..] == leaving[n + 1..];
        var k := Canonical(leaving[n]);
        if k !in channels || id !in channels[k].members {
          rb, ok := rb + [Numeric("442")], false;
        } else {
          MembersAreClients(View(), k);
          LeaveCore(View(), id, k);
          LeaveKeepsClients(View(), id, k);
          rb := rb + [Parted(clients[id].nick, k)];
          LeaveChannel(id, k);
        }
      }
    }

    /** `cmd_part_all`: walks the channel map in some order, each channel once. */
    method CmdPartAll(id: Id) returns (rb: seq<Event>, order: seq<string>)
      requires Core(View()) && id in clients
      modifies `clients, `channels
      ensures Out(View(), rb, true) == PartEverywhere(old(View()), [], id, order)
      ensures forall k :: k in channels ==> id !in channels[k].members
      ensures multiset(order) == multiset(old(channels).Keys)
    {
      hide Core, Leave, PartEverywhere;
      rb, order := [], [];
      PartNowhere(View(), id);
      var todo := channels.Keys;
      while todo != {}
        invariant Core(View()) && id in clients && todo <= old(channels).Keys
        invariant Out(View(), rb, true) == PartEverywhere(old(View()), [], id, order)
        invariant multiset(order) == multiset(old(channels).Keys - todo)
        invariant forall k :: k in channels && k !in todo ==> id !in channels[k].members
        invariant forall k :: k in todo ==> k in channels
        decreases |todo|
      {
        var k :| k in todo;
        PartEverywhereSnoc(old(View()), [], id, order, k);
        PartOneMore(View(), rb, id, k);
        OneMoreKey(old(channels).Keys, todo, k, order);
        order := order + [k];
        todo := todo - {k};
        if id in channels[k].members {
          MembersAreClients(View(), k);
          LeaveCore(View(), id, k);
          LeaveTouchesOne(View(), id, k);
          LeaveKeepsClients(View(), id, k);
          rb := rb + [Parted(clients[id].nick, k)];
          LeaveChannel(id, k);
        }
      }
      assert old(channels).Keys - todo == old(channels).Keys;
    }

    // ---- acting on others

    /** `find_nick`: the nick index never leads outside the slab. */
    method Lookup(nick: string) returns (r: Option<Id>)
      requires NicksExact(View())
      ensures r == FindNick(View(), nick)
    {
      var key := Canonical(nick);
      if key !in nicks { return None; }
      var t := nicks[key].id;
      return if clients[t].state == R.Registered then Some(t) else None;
    }

    /** Takes a client off a channel and tells those left, the kicker aside. */
    method Eject(id: Id, k: string, t: Id, nick: string)
      requires id in clients && k in channels && channels[k].members.Keys <= clients.Keys
      modifies `clients, `channels
      ensures View() == Expel(old(View()), id, k, t, nick)
    {
      channels := channels[k := channels[k].RemoveMember(t)];
      SendTo(channels[k].members.Keys - {id}, Kicked(clients[id].nick, nick, k));
    }

    method KickNick(id: Id, rb0: seq<Event>, k: string, nick: string) returns (rb: seq<Event>)
      requires Core(View()) && id in clients && k in channels
      modifies `clients, `channels
      ensures (View(), rb) == KickOne(old(View()), rb0, id, k, nick)
      ensures Core(View()) && id in clients
    {
      hide ChannelsOk, NicksExact, FindNick, Expel;
      var found := Lookup(nick);
      match found
      case None => return rb0 + [Numeric("401"), Numeric("441")];
      case Some(t) =>
        if t !in channels[k].members { return rb0 + [Numeric("441")]; }
        MembersAreClients(View(), k);
        ExpelCore(View(), id, k, t, nick);
        rb := rb0 + [Kicked(clients[id].nick, nick, k)];
        Eject(id, k, t, nick);
    }

    /** `cmd_kick`. */
    method CmdKick(id: Id, chan: string, who: seq<string>) returns (rb: seq<Event>, ok: bool)
      requires Core(View()) && id in clients
      modifies `clients, `channels
      ensures Out(View(), rb, ok) == Kick(old(View()), id, chan, who)
    {
      hide Core, KickOne;
      var k := Canonical(chan);
      if k !in channels { return [Numeric("403")], false; }
      if id !in channels[k].members { return [Numeric("442")], false; }
      if !channels[k].members[id].operator { return [Numeric("482")], false; }
      rb := [];
      assert who[0..] == who;
      for n := 0 to |who|
        invariant Core(View()) && id in clients && k in channels
        invariant KickAll(View(), rb, id, k, who[n..]) == KickAll(old(View()), [], id, k, who)
      {
        assert who[n..][1..] == who[n + 1..];
        rb := KickNick(id, rb, k, who[n]);
      }
      return rb, true;
    }

    /** `cmd_kill`. */
    method CmdKill(id: Id, nick: string) returns (rb: seq<Event>, ok: bool)
      requires Core(View()) && id in clients
      modifies `clients, `nicks, `channels
      ensures Out(View(), rb, ok) == Kill(old(View()), id, nick)
    {
      hide FindNick, RemoveClient;
      if !clients[id].operator { return [Numeric("481")], false; }
      var found := Lookup(nick);
      if found.None? { return [Numeric("401")], false; }
      Remove(found.value);
      return [], true;
    }

    /** `cmd_invite`. */
    method CmdInvite(id: Id, nick: string, chan: string) returns (rb: seq<Event>, ok: bool)
      requires Core(View()) && id in clients
      modifies `clients, `channels
      ensures Out(View(), rb, ok) == Invite(old(View()), id, nick, chan)
    {
      hide Push;
      var found := Lookup(nick);
      if found.None? { return [Numeric("401")], false; }
      var t, k := found.value, Canonical(chan);
      if k !in channels { return [Numeric("403")], false; }
      var ch := channels[k];
      if !ch.CanInvite(id) { return [Numeric("482")], false; }
      if t in ch.members { return [Numeric("443")], false; }
      if t in ch.invites { return [], false; }
      MembersAreClients(View(), k);
      hide FindNick, Core;
      rb := [Numeric("341")] + (if clients[t].away.Some? then [Numeric("301")] else []);
      channels := channels[k := ch.(invites := ch.invites + {t})];
      SendInvite(id, t, ch, Invited(clients[id].nick, nick, k));
      return rb, true;
    }

    /** The one invited hears of it, and the members that asked to hear of invitations and may invite. */
    method SendInvite(id: Id, t: Id, ch: C.Channel, ev: Event)
      requires t in clients && ch.members.Keys <= clients.Keys
      modifies `clients
      ensures clients == Push(Push(old(clients), {t}, ev),
                              (set m | m in ch.members && m != id && m in old(clients)
                                       && "invite-notify" in old(clients)[m].caps && ch.CanInvite(m)), ev)
    {
      var aware := set m | m in ch.members && m != id && "invite-notify" in clients[m].caps && ch.CanInvite(m);
      assert aware == set m | m in ch.members && m != id && m in clients
                              && "invite-notify" in clients[m].caps && ch.CanInvite(m);
      hide Push;
      SendTo({t}, ev);
      SendTo(aware, ev);
    }

    /** `cmd_mode_channel_set`. */
    method CmdMode(id: Id, chan: string, modes: string, params: seq<string>) returns (rb: seq<Event>, ok: bool)
      requires Core(View()) && id in clients
      modifies `clients, `channels
      ensures Out(View(), rb, ok) == Mode(cfg, old(View()), id, chan, modes, params)
    {
      hide Core, Push, NickMap, AsEvents, C.ApplyAll, C.AllReplies, C.CanChange, C.Nicknamed, M.Query, M.PrintModes,
           M.PrintParams;
      var k := Canonical(chan);
      if k !in channels { return [Numeric("403")], false; }
      var ch := channels[k];
      if id !in ch.members { return [Numeric("442")], false; }
      if !clients[id].operator && !C.CanChange(ch.members[id], M.Query(modes, params)) { return [Numeric("482")], false; }
      MembersNicknamed(View(), k);
      MembersAreClients(View(), k);
      var nickOf := map m | m in ch.members :: clients[m].nick;
      assert nickOf == NickMap(View(), ch) by { MemberNicks(View(), ch, nickOf); }
      var final, replies, appliedModes, appliedParams := C.ApplyRequest(ch, modes, params, cfg.keylen, nickOf);
      channels := channels[k := final];
      if appliedModes == "" { return AsEvents(replies), true; }
      var ev := ModeChanged(clients[id].nick, k, appliedModes, appliedParams);
      SendTo(final.members.Keys - {id}, ev);
      return AsEvents(replies) + [ev], true;
    }

    /** `cmd_names`. */
    method CmdNames(id: Id, listed: seq<string>) returns (rb: seq<Event>)
      requires Core(View())
      ensures rb == NamesAll(View(), [], id, listed)
    {
      hide Core, SendNames;
      rb := [];
      assert listed[0..] == listed;
      for n := 0 to |listed|
        invariant NamesAll(View(), rb, id, listed[n..]) == NamesAll(View(), [], id, listed)
      {
        assert listed[n..][1..] == listed[n + 1..];
        var k := Canonical(listed[n]);
        if k in channels { MembersAreClients(View(), k); }
        var names := NamesReply(id, k);
        rb := rb + names;
      }
    }

    // ---- one message

    /** The handlers that only look at, or change, the issuer and what it is in. */
    method ServeOwn(id: Id, req: R.Request) returns (rb: seq<Event>, ok: bool)
      requires id in clients && OwnRequest(req)
      modifies `clients, `nicks, `channels
      ensures Out(View(), rb, ok) == Dispatch(cfg, old(View()), id, req)
    {
      hide Nick, User, Pass, CapReq, Oper, Away, SetName, ModeUser, RemoveClient;
      match req
      case Nick(nick) => rb, ok := CmdNick(id, nick);
      case User(username, realname) => rb, ok := CmdUser(id, username, realname);
      case Pass(password) => rb, ok := CmdPass(id, password);
      case CapReq(diff) => rb, ok := CmdCapReq(id, diff);
      case Quit => Remove(id); rb, ok := [], true;
      case Oper(name, password) => rb, ok := CmdOper(id, name, password);
      case Away(reason) => rb, ok := CmdAway(id, reason);
      case SetName(name) => rb, ok := CmdSetName(id, name);
      case ModeUser(user, modes) => rb, ok := CmdModeUser(id, user, modes);
      case CapEnd | Pong => rb, ok := [], true;
      case CapLs | CapList | Authenticate | Ping | ReadOnly => rb, ok := [Numeric("")], true;
    }

    /** The handlers about channels and other clients; JOIN 0 reports the order it walked the channels in. */
    method ServeShared(id: Id, req: R.Request) returns (rb: seq<Event>, ok: bool, served: R.Request)
      requires Core(View()) && id in clients && !OwnRequest(req)
      requires req.Join? ==> Live(View(), id)
      modifies `clients, `nicks, `channels
      ensures Out(View(), rb, ok) == Dispatch(cfg, old(View()), id, served)
      ensures served == req || (req.PartAll? && served.PartAll?)
    {
      hide Core, JoinAll, PartAll, PartEverywhere, Kick, Kill, Mode, Invite, NamesAll;
      ok, served := true, req;
      match req
      case Join(list) => rb := CmdJoin(id, list);
      case Part(leaving) => rb, ok := CmdPart(id, leaving);
      case PartAll(_) =>
        var order;
        rb, order := CmdPartAll(id);
        served := R.PartAll(order);
      case Kick(from, who) => rb, ok := CmdKick(id, from, who);
      case Kill(target) => rb, ok := CmdKill(id, target);
      case Mode(channel, modes, params) => rb, ok := CmdMode(id, channel, modes, params);
      case Invite(guest, to) => rb, ok := CmdInvite(id, guest, to);
      case Names(listed) => rb := CmdNames(id, listed);
    }

    /** The match of `handle_message`. */
    method Serve(id: Id, req: R.Request) returns (rb: seq<Event>, ok: bool, served: R.Request)
      requires Core(View()) && id in clients
      requires req.Join? ==> Live(View(), id)
      modifies `clients, `nicks, `channels
      ensures Out(View(), rb, ok) == Dispatch(cfg, old(View()), id, served)
      ensures served == req || (req.PartAll? && served.PartAll?)
    {
      hide Core, Dispatch;
      if OwnRequest(req) {
        served := req;
        rb, ok := ServeOwn(id, req);
      } else {
        rb, ok, served := ServeShared(id, req);
      }
    }

    /**
     * `apply_request`, the welcome, and the delivery of the replies. The gate was passed, so the state
     * can advance: the `unwrap` never fails.
     */
    method Conclude(id: Id, req: R.Request, rb0: seq<Event>, ok: bool)
      requires id in clients ==> R.Apply(clients[id].state, req).Some?
      modifies `clients
      ensures View() == Finish(Out(old(View()), rb0, ok), id, req)
    {
      hide R.Apply;
      if id !in clients { return; }
      var rb := rb0;
      if ok {
        var before := clients[id].state;
        var after := R.Apply(before, req).value;
        clients := clients[id := clients[id].(state := after, log := clients[id].log + [req])];
        rb := rb + Greeting(before, after);
      }
      Reply(id, rb);
    }

    /** `handle_message`: the nickname check, the gate, the handler, and what follows it. */
    method Process(id: Id, req: R.Request) returns (served: R.Request)
      requires Core(View())
      modifies `clients, `nicks, `channels
      ensures served == req || (req.PartAll? && served.PartAll?)
      ensures View() == Handle(cfg, old(View()), id, served)
    {
      hide Core, Dispatch, Finish, Deliver;
      served := req;
      if id !in clients { return; }
      if req.Nick? && !IsNickname(req.nick) {
        Reply(id, [Numeric("432")]);
      } else if R.Apply(clients[id].state, req).None? {
        Reply(id, [Numeric(if clients[id].state == R.Registered then "462" else "451")]);
      } else {
        Connections.OnlyRegisteredJoin(View(), id, req);
        var rb, ok;
        rb, ok, served := Serve(id, req);
        Connections.AdvanceNeverFails(cfg, old(View()), id, served);
        Conclude(id, served, rb, ok);
      }
    }

    // ---- the inputs of the server, each added to the history

    ghost method Record(input: Input)
      requires View() == Step(cfg, Run(cfg, INITIAL, trace), input)
      modifies `trace
      ensures Valid() && trace == old(trace) + [input]
    {
      RunSnoc(cfg, INITIAL, trace, input);
      trace := trace + [input];
    }

    /** `peer_joined`. */
    method PeerJoined(host: string) returns (id: Id)
      requires Valid()
      modifies this
      ensures Valid() && trace == old(trace) + [Arrive(id, host)]
      ensures id !in old(clients) && View() == Connect(old(View()), id, host)
    {
      hide Run;
      id := Insert(host);
      Record(Arrive(id, host));
    }

    /** A request; JOIN 0 is recorded with the order in which the channel map was walked. */
    method HandleMessage(id: Id, req: R.Request) returns (served: R.Request)
      requires Valid()
      modifies this
      ensures Valid() && trace == old(trace) + [Request(id, served)]
      ensures served == req || (req.PartAll? && served.PartAll?)
      ensures View() == Handle(cfg, old(View()), id, served)
      ensures old(Live(View(), id)) ==> Notifications.RequestHeard(cfg, old(View()), View(), id, req)
    {
      Invariant();
      if Live(View(), id) { Notifications.HandleHeard(cfg, View(), id, req); }
      hide Run, Handle, Core, Live, Notifications.RequestHeard;
      if req.PartAll? { OrderNotHeard(cfg, View(), id, req); }
      served := Process(id, req);
      Record(Request(id, served));
    }

    /** A line that is no request. */
    method HandleMalformed(id: Id, code: string)
      requires Valid()
      modifies this
      ensures Valid() && trace == old(trace) + [Malformed(id, code)]
      ensures View() == if id in old(clients) then Deliver(old(View()), id, [Numeric(code)]) else old(View())
    {
      hide Run;
      if id in clients { Reply(id, [Numeric(code)]); }
      Record(Malformed(id, code));
    }

    /** `peer_quit`. */
    method PeerQuit(id: Id)
      requires Valid()
      modifies this
      ensures Valid() && trace == old(trace) + [Hangup(id)]
      ensures View() == RemoveClient(old(View()), id)
      ensures old(Live(View(), id)) ==>
                Notifications.HeardOnce(old(View()), View(), id, Quitted(old(clients)[id].nick), None)
    {
      if Live(View(), id) { Notifications.QuitHeard(View(), id); }
      hide Run, RemoveClient, Live, Notifications.HeardOnce;
      Remove(id);
      Record(Hangup(id));
    }

    /** `remove_if_unregistered`. */
    method RemoveIfUnregistered(id: Id)
      requires Valid()
      modifies this
      ensures Valid() && trace == old(trace) + [Timeout(id)]
      ensures View() == if id in old(clients) && old(clients)[id].state != R.Registered then RemoveClient(old(View()), id)
                        else old(View())
    {
      hide Run, RemoveClient;
      if id in clients && clients[id].state != R.Registered { Remove(id); }
      Record(Timeout(id));
    }
  }
}
