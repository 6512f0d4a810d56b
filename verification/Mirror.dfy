/** The membership mirror: what a member can tell from its own queue is who is on the channel. */
module Mirror {
  import opened Text
  import opened Names
  import opened Server
  import opened ServerInvariant
  import Connections
  import M = Modes
  import C = Channels
  import R = Registration

  // ---- what an observer makes of its events

  /** One event, for an observer of channel `k` that believes `v` is on it. */
  function Observe(v: set<string>, e: Event, k: string): set<string>
  {
    match e
    case Joined(who, chan) => if chan == k then v + {Canonical(who)} else v
    case Parted(who, chan) => if chan == k then v - {Canonical(who)} else v
    case Kicked(_, who, chan) => if chan == k then v - {Canonical(who)} else v
    case Quitted(who) => v - {Canonical(who)}
    case Renamed(from, to) => if Canonical(from) in v then v - {Canonical(from)} + {Canonical(to)} else v
    case NamesList(chan, nicks) => if chan == k then nicks else v
    case _ => v
  }

  /** The events of a queue folded in order. */
  function View(q: seq<Event>, k: string): set<string>
  {
    if q == [] then {} else Observe(View(q[..|q| - 1], k), q[|q| - 1], k)
  }

  lemma ViewSnoc(q: seq<Event>, e: Event, k: string)
    ensures View(q + [e], k) == Observe(View(q, k), e, k)
  {
  }

  /** An event that says nothing about channel `k`. */
  predicate Neutral(e: Event, k: string)
  {
    match e
    case Joined(_, chan) => chan != k
    case Parted(_, chan) => chan != k
    case Kicked(_, _, chan) => chan != k
    case NamesList(chan, _) => chan != k
    case Quitted(_) => false
    case Renamed(_, _) => false
    case _ => true
  }

  lemma NeutralKeeps(v: set<string>, e: Event, k: string)
    requires Neutral(e, k)
    ensures Observe(v, e, k) == v
  {
  }

  lemma {:induction false} ViewNeutral(q: seq<Event>, es: seq<Event>, k: string)
    requires forall e :: e in es ==> Neutral(e, k)
    ensures View(q + es, k) == View(q, k)
  {
    if es == [] {
      assert q + es == q;
    } else {
      var init, last := es[..|es| - 1], es[|es| - 1];
      assert q + es == q + init + [last];
      ViewNeutral(q, init, k);
      ViewSnoc(q + init, last, k);
      assert Neutral(last, k);
      NeutralKeeps(View(q + init, k), last, k);
    }
  }

  /** An event followed by neutral ones. */
  lemma ViewHead(q: seq<Event>, tail: seq<Event>, k: string)
    requires tail != [] && forall e :: e in tail[1..] ==> Neutral(e, k)
    ensures View(q + tail, k) == Observe(View(q, k), tail[0], k)
  {
    hide View, Observe;
    assert q + tail == q + [tail[0]] + tail[1..];
    ViewNeutral(q + [tail[0]], tail[1..], k);
    ViewSnoc(q, tail[0], k);
  }

  /** A list of names replaces whatever was believed. */
  lemma ViewNames(q: seq<Event>, before: seq<Event>, names: set<string>, k: string)
    ensures View(q + (before + [NamesList(k, names), Numeric("366")]), k) == names
  {
  }

  /** What client `o` has been told while client `id` is being served with replies `rb` pending. */
  function Delivered(s: State, o: Id, id: Id, rb: seq<Event>): seq<Event>
    requires o in s.clients
  {
    if o == id then s.clients[o].queue + rb else s.clients[o].queue
  }

  predicate Sees(s: State, o: Id, k: string, id: Id, rb: seq<Event>)
    requires o in s.clients && k in s.channels
  {
    View(Delivered(s, o, id, rb), k) == NickSet(s, s.channels[k])
  }

  /** Every member of every channel sees exactly its members. */
  predicate Mirrored(s: State, id: Id, rb: seq<Event>)
  {
    forall k, o :: k in s.channels && o in s.channels[k].members && o in s.clients ==> Sees(s, o, k, id, rb)
  }

  // ---- one event more

  /** How the deliveries of a step compare: the same, or one event more, for each observer. */
  predicate Told(s: State, t: State, o: Id, id: Id, rb: seq<Event>, rb': seq<Event>, ev: Event)
    requires o in s.clients && o in t.clients
  {
    Delivered(t, o, id, rb') == Delivered(s, o, id, rb) + [ev]
  }

  predicate Untold(s: State, t: State, o: Id, id: Id, rb: seq<Event>, rb': seq<Event>)
    requires o in s.clients && o in t.clients
  {
    Delivered(t, o, id, rb') == Delivered(s, o, id, rb)
  }

  lemma PushTold(s: State, t: State, targets: set<Id>, ev: Event, o: Id, id: Id, rb: seq<Event>)
    requires o in s.clients && o in t.clients && t.clients[o].queue == Push(s.clients, targets, ev)[o].queue
    ensures o != id && o in targets ==> Told(s, t, o, id, rb, rb + [ev], ev)
    ensures o != id && o !in targets ==> Untold(s, t, o, id, rb, rb + [ev])
    ensures o == id && id !in targets ==> Told(s, t, o, id, rb, rb + [ev], ev)
  {
  }

  lemma SeesMore(s: State, t: State, o: Id, k: string, id: Id, rb: seq<Event>, rb': seq<Event>, ev: Event)
    requires o in s.clients && o in t.clients && k in s.channels && k in t.channels
    requires Sees(s, o, k, id, rb) && Told(s, t, o, id, rb, rb', ev)
    requires NickSet(t, t.channels[k]) == Observe(NickSet(s, s.channels[k]), ev, k)
    ensures Sees(t, o, k, id, rb')
  {
  }

  lemma SeesSame(s: State, t: State, o: Id, k: string, id: Id, rb: seq<Event>, rb': seq<Event>)
    requires o in s.clients && o in t.clients && k in s.channels && k in t.channels
    requires Sees(s, o, k, id, rb) && Untold(s, t, o, id, rb, rb')
    requires NickSet(t, t.channels[k]) == NickSet(s, s.channels[k])
    ensures Sees(t, o, k, id, rb')
  {
  }

  // ---- nick sets

  predicate SameNicks(a: map<Id, Client>, b: map<Id, Client>)
  {
    a.Keys == b.Keys && forall i :: i in a ==> a[i].nick == b[i].nick
  }

  lemma NickSetSame(s: State, t: State, ch: C.Channel, ch': C.Channel)
    requires SameNicks(s.clients, t.clients) && ch.members.Keys == ch'.members.Keys
    ensures NickSet(s, ch) == NickSet(t, ch')
  {
  }

  /** Taking a member out takes its nickname out: no other member has it. */
  lemma NickSetWithout(s: State, k: string, id: Id)
    requires Core(s) && k in s.channels && Live(s, id)
    ensures NickSet(s, s.channels[k].RemoveMember(id)) == NickSet(s, s.channels[k]) - {Canonical(NickOf(s, id))}
  {
    var ch := s.channels[k];
    assert ChannelOk(s, ch);
    forall m | m in ch.members && m != id ensures Canonical(NickOf(s, m)) != Canonical(NickOf(s, id)) {
      if Canonical(NickOf(s, m)) == Canonical(NickOf(s, id)) { DistinctNicks(s, m, id); }
    }
  }

  // ---- joining

  lemma EnterMirror(cfg: Config, s: State, rb: seq<Event>, id: Id, k: string)
    requires Core(s) && Live(s, id) && Mirrored(s, id, rb)
    requires k in s.channels ==> id !in s.channels[k].members
    ensures var t := EnterChannel(cfg, s, id, k);
            Mirrored(t, id, rb + [Joined(s.clients[id].nick, k)] + SendNames(t, id, k))
  {
    var t := EnterChannel(cfg, s, id, k);
    var rb' := rb + [Joined(s.clients[id].nick, k)] + SendNames(t, id, k);
    EnterCore(cfg, s, id, k);
    EnterShape(cfg, s, id, k);
    forall j, o | j in t.channels && o in t.channels[j].members && o in t.clients ensures Sees(t, o, j, id, rb') {
      if j != k {
        assert Sees(s, o, j, id, rb);
        EnterElsewhere(cfg, s, rb, id, k, j, o);
      } else if o != id {
        assert Sees(s, o, k, id, rb);
        EnterHere(cfg, s, rb, rb', id, k, o);
      } else {
        EnterSelf(cfg, s, rb, id, k);
      }
    }
  }

  lemma EnterShape(cfg: Config, s: State, id: Id, k: string)
    requires id in s.clients
    ensures var t := EnterChannel(cfg, s, id, k);
            && SameNicks(s.clients, t.clients)
            && t.channels == s.channels[k := ChannelFor(cfg, s, k).AddMember(id)]
            && t.clients[id] == s.clients[id]
            && (k in s.channels ==> t.channels[k].members.Keys == s.channels[k].members.Keys + {id})
  {
  }

  /** Neutral news changes no view. */
  lemma SeesNeutral(s: State, t: State, o: Id, j: string, id: Id, rb: seq<Event>, rb': seq<Event>, more: seq<Event>)
    requires o in s.clients && o in t.clients && j in s.channels && j in t.channels && Sees(s, o, j, id, rb)
    requires Delivered(t, o, id, rb') == Delivered(s, o, id, rb) + more && forall e :: e in more ==> Neutral(e, j)
    requires NickSet(t, t.channels[j]) == NickSet(s, s.channels[j])
    ensures Sees(t, o, j, id, rb')
  {
    hide View, NickSet;
    ViewNeutral(Delivered(s, o, id, rb), more, j);
  }

  /** Observers of other channels learn nothing about them. */
  lemma EnterElsewhere(cfg: Config, s: State, rb: seq<Event>, id: Id, k: string, j: string, o: Id)
    requires id in s.clients && j != k && j in s.channels && o in s.clients && Sees(s, o, j, id, rb)
    ensures var t := EnterChannel(cfg, s, id, k);
            j in t.channels && Sees(t, o, j, id, rb + [Joined(s.clients[id].nick, k)] + SendNames(t, id, k))
  {
    EnterShape(cfg, s, id, k);
    hide EnterChannel, View, NickSet, ChannelFor, Sees, Delivered;
    var t := EnterChannel(cfg, s, id, k);
    NickSetSame(s, t, s.channels[j], t.channels[j]);
    var more := ElsewhereNews(cfg, s, rb, id, k, j, o);
    SeesNeutral(s, t, o, j, id, rb, rb + [Joined(s.clients[id].nick, k)] + SendNames(t, id, k), more);
  }

  lemma ElsewhereNews(cfg: Config, s: State, rb: seq<Event>, id: Id, k: string, j: string, o: Id) returns (more: seq<Event>)
    requires id in s.clients && j != k && o in s.clients
    ensures var t := EnterChannel(cfg, s, id, k);
            Delivered(t, o, id, rb + [Joined(s.clients[id].nick, k)] + SendNames(t, id, k)) == Delivered(s, o, id, rb) + more
    ensures forall e :: e in more ==> Neutral(e, j)
  {
    var t := EnterChannel(cfg, s, id, k);
    if o == id {
      EnterShape(cfg, s, id, k);
      NamesNeutral(t, id, k, j);
      hide EnterChannel, SendNames;
      var own, names := [Joined(s.clients[id].nick, k)], SendNames(t, id, k);
      more := own + names;
      assert s.clients[o].queue + (rb + own + names) == s.clients[o].queue + rb + more;
    } else {
      more := EnterTail(cfg, s, id, k, o);
      hide EnterChannel;
      assert more != [] ==> more == [more[0]] + more[1..];
    }
  }

  lemma NamesNeutral(s: State, id: Id, k: string, j: string)
    requires j != k
    ensures forall e :: e in SendNames(s, id, k) ==> Neutral(e, j)
  {
  }

  /** What another client is told when `id` enters `k`. */
  lemma EnterTail(cfg: Config, s: State, id: Id, k: string, o: Id) returns (tail: seq<Event>)
    requires id in s.clients && o in s.clients && o != id
    ensures EnterChannel(cfg, s, id, k).clients[o].queue == s.clients[o].queue + tail
    ensures tail == [] <==> o !in ChannelFor(cfg, s, k).members
    ensures tail != [] ==> tail[0] == Joined(s.clients[id].nick, k) && forall e :: e in tail[1..] ==> e.AwayNotice?
  {
    var c, ch := s.clients[id], ChannelFor(cfg, s, k);
    var q, j, a := s.clients[o].queue, Joined(c.nick, k), AwayNotice(c.nick, c.away);
    if o !in ch.members {
      tail := [];
      assert q + [] == q;
    } else if c.away.Some? && "away-notify" in s.clients[o].caps {
      tail := [j, a];
      assert q + [j] + [a] == q + tail;
      assert tail[1..] == [a];
    } else {
      tail := [j];
    }
  }

  lemma NickSetWith(s: State, t: State, ch: C.Channel, ch': C.Channel, id: Id)
    requires SameNicks(s.clients, t.clients) && ch'.members.Keys == ch.members.Keys + {id}
    ensures NickSet(t, ch') == NickSet(s, ch) + {Canonical(NickOf(t, id))}
  {
  }

  lemma TailSees(s: State, t: State, id: Id, k: string, o: Id, rb: seq<Event>, rb': seq<Event>, tail: seq<Event>)
    requires o in s.clients && o in t.clients && id in t.clients && k in s.channels && k in t.channels && o != id
    requires Sees(s, o, k, id, rb) && t.clients[o].queue == s.clients[o].queue + tail
    requires tail != [] && tail[0] == Joined(t.clients[id].nick, k) && forall e :: e in tail[1..] ==> e.AwayNotice?
    requires NickSet(t, t.channels[k]) == NickSet(s, s.channels[k]) + {Canonical(NickOf(t, id))}
    ensures Sees(t, o, k, id, rb')
  {
    hide View, NickSet;
    ViewHead(s.clients[o].queue, tail, k);
  }

  /** The other members of the channel see the new one. */
  lemma EnterHere(cfg: Config, s: State, rb: seq<Event>, rb': seq<Event>, id: Id, k: string, o: Id)
    requires id in s.clients && o != id && o in s.clients && k in s.channels && o in s.channels[k].members
    requires Sees(s, o, k, id, rb)
    ensures Sees(EnterChannel(cfg, s, id, k), o, k, id, rb')
  {
    var t := EnterChannel(cfg, s, id, k);
    EnterShape(cfg, s, id, k);
    var tail := EnterTail(cfg, s, id, k, o);
    hide EnterChannel, View, NickSet, ChannelFor, SameNicks;
    assert ChannelFor(cfg, s, k) == s.channels[k];
    NickSetWith(s, t, s.channels[k], t.channels[k], id);
    TailSees(s, t, id, k, o, rb, rb', tail);
  }

  /** The new member sees the list it is sent. */
  lemma EnterSelf(cfg: Config, s: State, rb: seq<Event>, id: Id, k: string)
    requires id in s.clients
    ensures var t := EnterChannel(cfg, s, id, k);
            k in t.channels && Sees(t, id, k, id, rb + [Joined(s.clients[id].nick, k)] + SendNames(t, id, k))
  {
    var t := EnterChannel(cfg, s, id, k);
    EnterShape(cfg, s, id, k);
    hide EnterChannel, View, NickSet;
    NamesOfMember(t, id, k);
    ViewNames(t.clients[id].queue, rb + [Joined(s.clients[id].nick, k)], NickSet(t, t.channels[k]), k);
  }

  lemma NamesOfMember(s: State, id: Id, k: string)
    requires k in s.channels && id in s.channels[k].members
    ensures SendNames(s, id, k) == [NamesList(k, NickSet(s, s.channels[k])), Numeric("366")]
  {
  }

  /** Replies that say nothing about any channel change no view. */
  lemma NeutralReplies(s: State, id: Id, rb: seq<Event>, more: seq<Event>)
    requires Mirrored(s, id, rb)
    requires forall e, k :: e in more ==> Neutral(e, k)
    ensures Mirrored(s, id, rb + more)
  {
    forall k, o | k in s.channels && o in s.channels[k].members && o in s.clients ensures Sees(s, o, k, id, rb + more) {
      assert Sees(s, o, k, id, rb);
      if o == id {
        assert s.clients[o].queue + (rb + more) == s.clients[o].queue + rb + more;
        ViewNeutral(s.clients[o].queue + rb, more, k);
      }
    }
  }

  lemma {:induction false} JoinMirror(cfg: Config, s: State, rb: seq<Event>, id: Id, list: seq<(string, Option<string>)>)
    requires Core(s) && Live(s, id) && Mirrored(s, id, rb)
    ensures var r := JoinAll(cfg, s, rb, id, list); Mirrored(r.0, id, r.1)
    decreases list
  {
    hide Mirrored, EnterChannel, SendNames, Core;
    if list != [] {
      var k := Canonical(list[0].0);
      var (s1, rb1) := JoinOne(cfg, s, rb, id, list[0].0, list[0].1);
      JoinOneMirror(cfg, s, rb, id, list[0].0, list[0].1);
      JoinMirror(cfg, s1, rb1, id, list[1..]);
    }
  }

  lemma JoinOneMirror(cfg: Config, s: State, rb: seq<Event>, id: Id, chan: string, key: Option<string>)
    requires Core(s) && Live(s, id) && Mirrored(s, id, rb)
    ensures var r := JoinOne(cfg, s, rb, id, chan, key); Core(r.0) && Live(r.0, id) && Mirrored(r.0, id, r.1)
  {
    hide Mirrored, EnterChannel, SendNames, Core;
    var k := Canonical(chan);
    var check := if k in s.channels then CheckJoin(s.clients[id], s.channels[k], id, key) else Admitted;
    match check
    case AlreadyIn =>
    case Refused(code) => NeutralReplies(s, id, rb, [Numeric(code)]);
    case Admitted =>
      EnterCore(cfg, s, id, k);
      EnterMirror(cfg, s, rb, id, k);
  }

  // ---- leaving

  /** The event takes the nickname of `gone` off channel `k` and says nothing about other channels. */
  predicate TakesOff(s: State, ev: Event, k: string, gone: Id)
  {
    match ev
    case Parted(who, chan) => chan == k && Canonical(who) == Canonical(NickOf(s, gone))
    case Kicked(_, who, chan) => chan == k && Canonical(who) == Canonical(NickOf(s, gone))
    case _ => false
  }

  /** `gone` is off channel `k`, and every member left there is told, as is `id`. */
  lemma TakenOffSees(s: State, u: State, rb: seq<Event>, id: Id, k: string, gone: Id, targets: set<Id>, ev: Event,
                     j: string, o: Id)
    requires Core(s) && k in s.channels && gone in s.channels[k].members && TakesOff(s, ev, k, gone)
    requires o in s.clients && u.clients == Push(s.clients, targets, ev) && id !in targets
    requires s.channels[k].members.Keys - {gone, id} <= targets
    requires j in s.channels && j in u.channels && o in u.channels[j].members
    requires u.channels[j].members.Keys == if j == k then s.channels[k].members.Keys - {gone} else s.channels[j].members.Keys
    requires Sees(s, o, j, id, rb)
    ensures Sees(u, o, j, id, rb + [ev])
  {
    hide Core, NickSet, View, Delivered, Sees;
    ChannelIsOk(s, k);
    NickSetWithout(s, k, gone);
    PushTold(s, u, targets, ev, o, id, rb);
    if j == k {
      NickSetSame(s, u, s.channels[k].RemoveMember(gone), u.channels[k]);
      SeesMore(s, u, o, j, id, rb, rb + [ev], ev);
    } else {
      NickSetSame(s, u, s.channels[j], u.channels[j]);
      TellOne(s, u, o, j, id, rb, ev);
    }
  }

  lemma LeaveShape(s: State, id: Id, k: string)
    requires k in s.channels && id in s.channels[k].members
    ensures var t := Leave(s, id, k);
            && t.clients == Push(s.clients, s.channels[k].members.Keys - {id}, Parted(NickOf(s, id), k))
            && (forall j :: j in t.channels ==>
                  j in s.channels && t.channels[j].members == if j == k then s.channels[k].members - {id} else s.channels[j].members)
  {
  }

  lemma LeaveMirror(s: State, rb: seq<Event>, id: Id, k: string)
    requires Core(s) && k in s.channels && id in s.channels[k].members && Mirrored(s, id, rb)
    ensures Mirrored(Leave(s, id, k), id, rb + [Parted(NickOf(s, id), k)])
  {
    hide Core, Leave, Push, Sees;
    var t, ev := Leave(s, id, k), Parted(NickOf(s, id), k);
    LeaveShape(s, id, k);
    forall j, o | j in t.channels && o in t.channels[j].members && o in t.clients ensures Sees(t, o, j, id, rb + [ev]) {
      assert Sees(s, o, j, id, rb);
      TakenOffSees(s, t, rb, id, k, id, s.channels[k].members.Keys - {id}, ev, j, o);
    }
  }

  /** An observer that was told the event, or not told while nothing changed for it, still sees the channel. */
  lemma TellOne(s: State, t: State, o: Id, j: string, id: Id, rb: seq<Event>, ev: Event)
    requires o in s.clients && o in t.clients && j in s.channels && j in t.channels && Sees(s, o, j, id, rb)
    requires Told(s, t, o, id, rb, rb + [ev], ev) || Untold(s, t, o, id, rb, rb + [ev])
    requires Told(s, t, o, id, rb, rb + [ev], ev) ==> NickSet(t, t.channels[j]) == Observe(NickSet(s, s.channels[j]), ev, j)
    requires !Told(s, t, o, id, rb, rb + [ev], ev) ==> NickSet(t, t.channels[j]) == NickSet(s, s.channels[j])
    ensures Sees(t, o, j, id, rb + [ev])
  {
  }

  lemma {:induction false} PartMirror(s: State, rb: seq<Event>, ok: bool, id: Id, list: seq<string>)
    requires Core(s) && Mirrored(s, id, rb)
    ensures var r := PartAll(s, rb, ok, id, list); Mirrored(r.s, id, r.rb)
    decreases list
  {
    hide Mirrored, Leave, Core;
    if list != [] {
      var k := Canonical(list[0]);
      var (s1, rb1, ok1) := PartOne(s, rb, id, list[0]);
      if k in s.channels && id in s.channels[k].members {
        LeaveCore(s, id, k);
        LeaveMirror(s, rb, id, k);
      } else {
        NeutralReplies(s, id, rb, [Numeric("442")]);
      }
      PartMirror(s1, rb1, ok && ok1, id, list[1..]);
    }
  }

  lemma {:induction false} PartEverywhereMirror(s: State, rb: seq<Event>, id: Id, order: seq<string>)
    requires Core(s) && Mirrored(s, id, rb)
    ensures var r := PartEverywhere(s, rb, id, order); Mirrored(r.s, id, r.rb)
    decreases order
  {
    hide Mirrored, Leave, Core;
    if order != [] {
      var k := order[0];
      if k in s.channels && id in s.channels[k].members {
        LeaveCore(s, id, k);
        LeaveMirror(s, rb, id, k);
        PartEverywhereMirror(Leave(s, id, k), rb + [Parted(NickOf(s, id), k)], id, order[1..]);
      } else {
        PartEverywhereMirror(s, rb, id, order[1..]);
      }
    }
  }

  lemma ExpelMirror(s: State, rb: seq<Event>, id: Id, k: string, t: Id, nick: string)
    requires Core(s) && k in s.channels && t in s.channels[k].members && Mirrored(s, id, rb)
    requires Canonical(nick) == Canonical(NickOf(s, t))
    ensures Mirrored(Expel(s, id, k, t, nick), id, rb + [Kicked(NickOf(s, id), nick, k)])
  {
    hide Core, Push, Sees;
    var u, ev := Expel(s, id, k, t, nick), Kicked(NickOf(s, id), nick, k);
    forall j, o | j in u.channels && o in u.channels[j].members && o in u.clients ensures Sees(u, o, j, id, rb + [ev]) {
      assert Sees(s, o, j, id, rb);
      TakenOffSees(s, u, rb, id, k, t, s.channels[k].RemoveMember(t).members.Keys - {id}, ev, j, o);
    }
  }

  lemma FoundByNick(s: State, nick: string)
    requires Core(s) && FindNick(s, nick).Some?
    ensures Live(s, FindNick(s, nick).value) && Canonical(NickOf(s, FindNick(s, nick).value)) == Canonical(nick)
  {
  }

  lemma {:induction false} KickMirror(s: State, rb: seq<Event>, id: Id, k: string, who: seq<string>)
    requires Core(s) && k in s.channels && Mirrored(s, id, rb)
    ensures var r := KickAll(s, rb, id, k, who); Mirrored(r.0, id, r.1)
    decreases who
  {
    hide Mirrored, Expel, Core, FindNick;
    if who != [] {
      var found := FindNick(s, who[0]);
      if found.Some? {
        FoundByNick(s, who[0]);
        ExpelCore(s, id, k, found.value, who[0]);
        if found.value in s.channels[k].members { ExpelMirror(s, rb, id, k, found.value, who[0]); }
      }
      NeutralReplies(s, id, rb, [Numeric("401"), Numeric("441")]);
      NeutralReplies(s, id, rb, [Numeric("441")]);
      var (s1, rb1) := KickOne(s, rb, id, k, who[0]);
      KickMirror(s1, rb1, id, k, who[1..]);
    }
  }

  // ---- quitting

  /** `o` got one copy of the event if it shares a channel with `id`, and nothing otherwise. */
  predicate ToldOf(s: State, t: State, id: Id, o: Id, ev: Event)
    requires o in s.clients && o in t.clients
  {
    var told := Live(s, id) && o != id && Shares(s, id, o);
    t.clients[o].queue == s.clients[o].queue + if told then [ev] else []
  }

  lemma RemoveShape(s: State, id: Id)
    requires Core(s) && id in s.clients
    ensures var t := RemoveClient(s, id);
            && t.clients.Keys == s.clients.Keys - {id}
            && (forall i :: i in t.clients ==> t.clients[i].nick == s.clients[i].nick)
            && (forall k :: k in t.channels ==> k in s.channels && t.channels[k].members == s.channels[k].members - {id})
            && (forall o :: o in t.clients ==> ToldOf(s, t, id, o, Quitted(s.clients[id].nick)))
  {
    RemoveFacts(s, id);
    hide RemoveClient, ToldOf;
    forall k | k in RemoveClient(s, id).channels
      ensures k in s.channels && RemoveClient(s, id).channels[k].members == s.channels[k].members - {id}
    {
      RemoveMembers(s, id, k);
    }
    forall o | o in RemoveClient(s, id).clients ensures ToldOf(s, RemoveClient(s, id), id, o, Quitted(s.clients[id].nick)) {
      RemoveTold(s, id, o);
    }
  }

  /** A quit puts one copy on the queue of each client that shares a channel, none elsewhere. */
  lemma RemoveTold(s: State, id: Id, o: Id)
    requires id in s.clients && o in s.clients && o != id
    ensures o in RemoveClient(s, id).clients && ToldOf(s, RemoveClient(s, id), id, o, Quitted(s.clients[id].nick))
  {
  }

  /** A quit reaches exactly the clients that share a channel, so every view stays right. */
  lemma RemoveMirror(s: State, id: Id, t: Id)
    requires Core(s) && t in s.clients && Mirrored(s, id, [])
    ensures Mirrored(RemoveClient(s, t), id, [])
  {
    hide RemoveClient, Core, Sees;
    var u := RemoveClient(s, t);
    RemoveShape(s, t);
    forall k, o | k in u.channels && o in u.channels[k].members && o in u.clients ensures Sees(u, o, k, id, []) {
      assert Sees(s, o, k, id, []);
      RemoveSees(s, id, t, k, o);
    }
  }

  lemma RemoveSees(s: State, id: Id, t: Id, k: string, o: Id)
    requires Core(s) && t in s.clients && k in s.channels && o in s.clients && o != t && o in s.channels[k].members
    requires Sees(s, o, k, id, [])
    ensures var u := RemoveClient(s, t); o in u.clients && k in u.channels ==> Sees(u, o, k, id, [])
  {
    hide RemoveClient, Core, NickSet, View;
    var u := RemoveClient(s, t);
    if k in u.channels && o in u.clients {
      RemoveShape(s, t);
      ChannelIsOk(s, k);
      NickSetGone(s, u, k, t);
      QuitSees(s, u, id, t, k, o);
    }
  }

  lemma QuitSees(s: State, u: State, id: Id, t: Id, k: string, o: Id)
    requires Core(s) && t in s.clients && k in s.channels && o in s.clients && o != t && o in s.channels[k].members
    requires Sees(s, o, k, id, []) && o in u.clients && k in u.channels
    requires ToldOf(s, u, t, o, Quitted(s.clients[t].nick))
    requires NickSet(u, u.channels[k]) == NickSet(s, s.channels[k].RemoveMember(t))
    ensures Sees(u, o, k, id, [])
  {
    hide Core, NickSet, View;
    ChannelIsOk(s, k);
    var q := s.clients[o].queue;
    assert q + [] == q && u.clients[o].queue + [] == u.clients[o].queue;
    if Live(s, t) && Shares(s, t, o) {
      ViewSnoc(q, Quitted(s.clients[t].nick), k);
      NickSetWithout(s, k, t);
    } else {
      assert t !in s.channels[k].members;
      assert s.channels[k].members - {t} == s.channels[k].members;
    }
  }

  lemma NickSetGone(s: State, u: State, k: string, t: Id)
    requires k in s.channels && k in u.channels && u.channels[k].members == s.channels[k].members - {t}
    requires u.clients.Keys == s.clients.Keys - {t}
    requires forall i :: i in u.clients ==> u.clients[i].nick == s.clients[i].nick
    ensures NickSet(u, u.channels[k]) == NickSet(s, s.channels[k].RemoveMember(t))
  {
  }

  // ---- renaming

  /** The issuer has its new name, and it and those who share a channel with it are told once. */
  predicate WasRenamed(s: State, out: Out, id: Id, nick: string)
    requires id in s.clients
  {
    var ev := Renamed(s.clients[id].nick, nick);
    && out.s.clients.Keys == s.clients.Keys && out.s.clients[id].nick == nick
    && out.rb == (if Live(s, id) then [ev] else [])
    && forall o :: o in s.clients ==> ToldOf(s, out.s, id, o, ev)
  }

  lemma RenameShape(s: State, id: Id, nick: string)
    requires Core(s) && id in s.clients
    ensures var t := Nick(s, id, nick).s;
            && t.clients.Keys == s.clients.Keys && t.channels == s.channels
            && (forall i :: i in t.clients && i != id ==> t.clients[i].nick == s.clients[i].nick)
    ensures var out := Nick(s, id, nick); out.ok && out.s != s ==> WasRenamed(s, out, id, nick)
    ensures var out := Nick(s, id, nick);
            !(out.ok && out.s != s) ==> out.s == s && (out.rb == [] || out.rb == [Numeric("433")])
  {
    var c, out := s.clients[id], Nick(s, id, nick);
    assert forall q: seq<Event> :: q + [] == q;
    if out.ok && out.s != s && Live(s, id) {
      var named := s.(nicks := (s.nicks - {Canonical(c.nick)})[Canonical(nick) := NickEntry(nick, id)],
                      clients := s.clients[id := c.(nick := nick)]);
      forall o | o in s.clients && o != id ensures o in Noticed(named, id, None) <==> Shares(s, id, o) {
        assert Shares(named, id, o) <==> Shares(s, id, o);
      }
    }
  }

  lemma NickSetRenamed(s: State, t: State, k: string, id: Id)
    requires Core(s) && k in s.channels && Live(s, id) && t.clients.Keys == s.clients.Keys
    requires forall i :: i in t.clients && i != id ==> t.clients[i].nick == s.clients[i].nick
    ensures NickSet(t, s.channels[k]) == Observe(NickSet(s, s.channels[k]), Renamed(NickOf(s, id), NickOf(t, id)), k)
    ensures id !in s.channels[k].members ==> NickSet(t, s.channels[k]) == NickSet(s, s.channels[k])
  {
    hide Core;
    var ch := s.channels[k];
    NickSetWithout(s, k, id);
    OthersSame(s, t, ch.RemoveMember(id), id);
    if id in ch.members {
      NickSetPlus(t, ch, id);
      assert Canonical(NickOf(s, id)) in NickSet(s, ch);
    } else {
      assert ch.members - {id} == ch.members;
    }
  }

  lemma OthersSame(s: State, t: State, ch: C.Channel, id: Id)
    requires id !in ch.members && t.clients.Keys == s.clients.Keys
    requires forall i :: i in t.clients && i != id ==> t.clients[i].nick == s.clients[i].nick
    ensures NickSet(t, ch) == NickSet(s, ch)
  {
  }

  lemma NickSetPlus(s: State, ch: C.Channel, id: Id)
    requires id in ch.members
    ensures NickSet(s, ch) == NickSet(s, ch.RemoveMember(id)) + {Canonical(NickOf(s, id))}
  {
  }

  lemma NickMirror(s: State, id: Id, nick: string)
    requires Core(s) && id in s.clients && Mirrored(s, id, [])
    ensures var out := Nick(s, id, nick); Mirrored(out.s, id, out.rb)
  {
    hide Nick;
    var out := Nick(s, id, nick);
    RenameShape(s, id, nick);
    assert forall q: seq<Event> :: q + [] == q;
    if out.ok && out.s != s {
      forall k, o | k in out.s.channels && o in out.s.channels[k].members && o in out.s.clients
        ensures Sees(out.s, o, k, id, out.rb)
      {
        assert Sees(s, o, k, id, []);
        RenameSees(s, out, id, nick, k, o);
      }
    } else {
      if out.rb != [] { NeutralReplies(s, id, [], [Numeric("433")]); }
      assert [] + [Numeric("433")] == [Numeric("433")];
    }
  }

  lemma RenameSees(s: State, out: Out, id: Id, nick: string, k: string, o: Id)
    requires Core(s) && id in s.clients && out == Nick(s, id, nick) && out.ok && out.s != s
    requires k in s.channels && o in s.channels[k].members && o in s.clients && Sees(s, o, k, id, [])
    ensures k in out.s.channels && o in out.s.clients && Sees(out.s, o, k, id, out.rb)
  {
    hide Nick;
    RenameShape(s, id, nick);
    assert forall q: seq<Event> :: q + [] == q;
    var ev := Renamed(s.clients[id].nick, nick);
    if Live(s, id) {
      NickSetRenamed(s, out.s, k, id);
      if o == id || Shares(s, id, o) {
        ViewSnoc(s.clients[o].queue, ev, k);
      }
    } else {
      assert ChannelOk(s, s.channels[k]);
      forall m | m in s.channels[k].members ensures NickOf(out.s, m) == NickOf(s, m) {}
    }
  }

  // ---- everything else is neutral

  /** Pushing a neutral event, and replying neutral events, keeps every view; members stay who they are. */
  lemma NeutralMirror(s: State, t: State, id: Id, rb: seq<Event>)
    requires Mirrored(s, id, []) && SameNicks(s.clients, t.clients)
    requires forall k :: k in t.channels ==> k in s.channels && t.channels[k].members.Keys == s.channels[k].members.Keys
    requires forall o :: o in s.clients ==> GrewNeutral(s.clients[o].queue, t.clients[o].queue)
    requires forall e, k :: e in rb ==> Neutral(e, k)
    ensures Mirrored(t, id, rb)
  {
    forall k, o | k in t.channels && o in t.channels[k].members && o in t.clients ensures Sees(t, o, k, id, []) {
      assert Sees(s, o, k, id, []);
      assert forall q: seq<Event> :: q + [] == q;
      NickSetSame(s, t, s.channels[k], t.channels[k]);
      assert GrewNeutral(s.clients[o].queue, t.clients[o].queue);
      var q := s.clients[o].queue;
      ViewNeutral(q, t.clients[o].queue[|q|..], k);
    }
    NeutralReplies(t, id, [], rb);
    assert [] + rb == rb;
  }

  ghost predicate GrewNeutral(q: seq<Event>, q': seq<Event>)
  {
    |q| <= |q'| && q' == q + q'[|q|..] && forall e, k :: e in q'[|q|..] ==> Neutral(e, k)
  }

  lemma PushNeutral(clients: map<Id, Client>, targets: set<Id>, ev: Event)
    requires forall k :: Neutral(ev, k)
    ensures SameNicks(clients, Push(clients, targets, ev))
    ensures forall o :: o in clients ==> GrewNeutral(clients[o].queue, Push(clients, targets, ev)[o].queue)
  {
  }

  lemma GrowNothing(clients: map<Id, Client>)
    ensures forall o :: o in clients ==> GrewNeutral(clients[o].queue, clients[o].queue)
  {
  }

  lemma ModeMirror(cfg: Config, s: State, id: Id, chan: string, modes: string, params: seq<string>)
    requires id in s.clients && Mirrored(s, id, [])
    ensures var out := Mode(cfg, s, id, chan, modes, params); Mirrored(out.s, id, out.rb)
  {
    hide Push, NickMap, C.CanChange, C.ApplyAll, C.AllReplies, M.Query, Mirrored, GrewNeutral, M.PrintModes, M.PrintParams;
    var out := Mode(cfg, s, id, chan, modes, params);
    GrowNothing(s.clients);
    forall targets, ev | forall k :: Neutral(ev, k)
      ensures SameNicks(s.clients, Push(s.clients, targets, ev))
      ensures forall o :: o in s.clients ==> GrewNeutral(s.clients[o].queue, Push(s.clients, targets, ev)[o].queue)
    {
      PushNeutral(s.clients, targets, ev);
    }
    NeutralMirror(s, out.s, id, out.rb);
  }

  lemma PushTwiceNeutral(clients: map<Id, Client>, targets: set<Id>, more: set<Id>, ev: Event)
    requires forall k :: Neutral(ev, k)
    ensures var twice := Push(Push(clients, targets, ev), more, ev);
            && SameNicks(clients, twice)
            && forall o :: o in clients ==> GrewNeutral(clients[o].queue, twice[o].queue)
  {
  }

  lemma InviteMirror(s: State, id: Id, nick: string, chan: string)
    requires id in s.clients && Mirrored(s, id, [])
    ensures var out := Invite(s, id, nick, chan); Mirrored(out.s, id, out.rb)
  {
    hide Push, Mirrored, GrewNeutral, FindNick;
    var out, k, t := Invite(s, id, nick, chan), Canonical(chan), FindNick(s, nick);
    GrowNothing(s.clients);
    if out.ok {
      var ev, ch := Invited(NickOf(s, id), nick, k), s.channels[k];
      var aware := set m | m in ch.members && m != id && m in s.clients
                          && "invite-notify" in s.clients[m].caps && ch.CanInvite(m);
      PushTwiceNeutral(s.clients, {t.value}, aware, ev);
      NeutralMirror(s, out.s, id, out.rb);
    } else {
      NeutralMirror(s, s, id, out.rb);
    }
  }

  lemma OwnRecordMirror(s: State, t: State, id: Id, rb: seq<Event>)
    requires id in s.clients && Mirrored(s, id, []) && t.channels == s.channels && id in t.clients
    requires t.clients == s.clients[id := t.clients[id]]
    requires t.clients[id].nick == s.clients[id].nick && t.clients[id].queue == s.clients[id].queue
    requires forall e, k :: e in rb ==> Neutral(e, k)
    ensures Mirrored(t, id, rb)
  {
    GrowNothing(s.clients);
    NeutralMirror(s, t, id, rb);
  }

  /** The issuer's own record changed and a neutral notification went out. */
  lemma NoticeMirror(s: State, id: Id, c: Client, ev: Event, cap: Option<string>, rb: seq<Event>)
    requires id in s.clients && Mirrored(s, id, []) && c.nick == s.clients[id].nick && c.queue == s.clients[id].queue
    requires forall k :: Neutral(ev, k)
    requires forall e, k :: e in rb ==> Neutral(e, k)
    ensures Mirrored(Notify(s.(clients := s.clients[id := c]), id, ev, cap), id, rb)
  {
    var s1 := s.(clients := s.clients[id := c]);
    OwnRecordMirror(s, s1, id, []);
    PushNeutral(s1.clients, Noticed(s1, id, cap), ev);
    NeutralMirror(s1, Notify(s1, id, ev, cap), id, rb);
  }

  /** NAMES tells a member what it already sees, and others nothing they are members of. */
  lemma {:induction false} NamesMirror(s: State, rb: seq<Event>, id: Id, list: seq<string>)
    requires Mirrored(s, id, rb)
    ensures Mirrored(s, id, NamesAll(s, rb, id, list))
    decreases list
  {
    hide Mirrored;
    if list != [] {
      NamesOneMirror(s, rb, id, Canonical(list[0]));
      NamesMirror(s, rb + SendNames(s, id, Canonical(list[0])), id, list[1..]);
    }
  }

  lemma NamesOneMirror(s: State, rb: seq<Event>, id: Id, k: string)
    requires Mirrored(s, id, rb)
    ensures Mirrored(s, id, rb + SendNames(s, id, k))
  {
    hide SendNames, Sees;
    var more := SendNames(s, id, k);
    forall j, o | j in s.channels && o in s.channels[j].members && o in s.clients ensures Sees(s, o, j, id, rb + more) {
      assert Sees(s, o, j, id, rb);
      if o == id {
        NamesSees(s, rb, id, k, j);
      } else {
        SeesSame(s, s, o, j, id, rb, rb + more);
      }
    }
  }

  lemma NamesSees(s: State, rb: seq<Event>, id: Id, k: string, j: string)
    requires id in s.clients && j in s.channels && id in s.channels[j].members && Sees(s, id, j, id, rb)
    ensures Sees(s, id, j, id, rb + SendNames(s, id, k))
  {
    if j == k {
      NamesOfMember(s, id, k);
      hide View, NickSet, SendNames;
      ViewNames(s.clients[id].queue, rb, NickSet(s, s.channels[k]), k);
    } else {
      var q, more := s.clients[id].queue, SendNames(s, id, k);
      assert q + (rb + more) == q + rb + more;
      ViewNeutral(q + rb, more, j);
    }
  }

  lemma UserMirror(cfg: Config, s: State, id: Id, username: string, realname: string)
    requires Core(s) && id in s.clients && Mirrored(s, id, [])
    ensures var out := User(cfg, s, id, username, realname); Mirrored(out.s, id, if id in out.s.clients then out.rb else [])
  {
    hide Mirrored, RemoveClient, Core;
    var out := User(cfg, s, id, username, realname);
    if out.ok {
      OwnRecordMirror(s, out.s, id, []);
    } else {
      RemoveMirror(s, id, id);
      RemoveShape(s, id);
    }
  }

  lemma KickHandlerMirror(s: State, id: Id, chan: string, who: seq<string>)
    requires Core(s) && id in s.clients && Mirrored(s, id, [])
    ensures var out := Kick(s, id, chan, who); Mirrored(out.s, id, out.rb)
  {
    hide Mirrored, Core, KickAll;
    var k, out := Canonical(chan), Kick(s, id, chan, who);
    if out.ok {
      KickMirror(s, [], id, k, who);
    } else {
      AnswerMirror(s, id, out.rb);
    }
  }

  lemma KillMirror(s: State, id: Id, nick: string)
    requires Core(s) && id in s.clients && Mirrored(s, id, [])
    ensures var out := Kill(s, id, nick); Mirrored(out.s, id, if id in out.s.clients then out.rb else [])
  {
    hide Mirrored, Core, RemoveClient;
    var out := Kill(s, id, nick);
    if out.ok {
      RemoveMirror(s, id, FindNick(s, nick).value);
    } else {
      AnswerMirror(s, id, out.rb);
    }
  }

  /** Nothing changed and the replies are neutral. */
  lemma AnswerMirror(s: State, id: Id, rb: seq<Event>)
    requires Mirrored(s, id, []) && forall e, k :: e in rb ==> Neutral(e, k)
    ensures Mirrored(s, id, rb)
  {
    hide Mirrored;
    NeutralReplies(s, id, [], rb);
    assert [] + rb == rb;
  }

  /** Requests about channels. */
  lemma ChannelRequestMirror(cfg: Config, s: State, id: Id, req: R.Request)
    requires Core(s) && id in s.clients && Mirrored(s, id, [])
    requires req.Join? || req.Part? || req.PartAll? || req.Kick? || req.Mode? || req.Invite? || req.Names?
    requires req.Join? ==> Live(s, id)
    ensures var out := Dispatch(cfg, s, id, req); Mirrored(out.s, id, out.rb)
  {
    hide Mirrored, Core, Mode, Invite, JoinAll, PartAll, PartEverywhere, Kick, NamesAll;
    match req
    case Join(list) => JoinMirror(cfg, s, [], id, list);
    case Part(list) => PartMirror(s, [], true, id, list);
    case PartAll(order) => PartEverywhereMirror(s, [], id, order);
    case Kick(from, who) => KickHandlerMirror(s, id, from, who);
    case Mode(channel, modes, params) => ModeMirror(cfg, s, id, channel, modes, params);
    case Invite(nick, channel) => InviteMirror(s, id, nick, channel);
    case Names(listed) => NamesMirror(s, [], id, listed);
  }

  lemma ChannelRequestStays(cfg: Config, s: State, id: Id, req: R.Request)
    requires id in s.clients
    requires req.Join? || req.Part? || req.PartAll? || req.Kick? || req.Mode? || req.Invite? || req.Names?
    ensures id in Dispatch(cfg, s, id, req).s.clients
  {
    hide Mode, Invite, JoinAll, PartAll, PartEverywhere, KickAll, NamesAll, Connections.OnlyTold;
    match req
    case Join(list) => Connections.JoinTells(cfg, s, [], id, list);
    case Part(list) => Connections.PartTells(s, [], true, id, list);
    case PartAll(order) => Connections.PartEverywhereTells(s, [], id, order);
    case Kick(from, who) => if Canonical(from) in s.channels { Connections.KickTells(s, [], id, Canonical(from), who); }
    case Mode(channel, modes, params) => Connections.ModeTells(cfg, s, id, channel, modes, params);
    case Invite(nick, channel) => Connections.InviteTells(s, id, nick, channel);
    case Names(_) =>
  }

  /** Requests that change only the issuer's own record, or nothing. */
  lemma OwnRequestMirror(cfg: Config, s: State, id: Id, req: R.Request)
    requires id in s.clients && Mirrored(s, id, [])
    requires req.Pass? || req.CapReq? || req.Oper?
    ensures var out := Dispatch(cfg, s, id, req); id in out.s.clients && Mirrored(out.s, id, out.rb)
  {
    hide Mirrored;
    var out := Dispatch(cfg, s, id, req);
    assert s.clients[id := s.clients[id]] == s.clients;
    OwnRecordMirror(s, out.s, id, out.rb);
  }

  lemma ModeUserMirror(s: State, id: Id, user: string, modes: string)
    requires id in s.clients && Mirrored(s, id, [])
    ensures var out := ModeUser(s, id, user, modes); id in out.s.clients && Mirrored(out.s, id, out.rb)
  {
    hide Mirrored, UserModes;
    var out := ModeUser(s, id, user, modes);
    assert s.clients[id := s.clients[id]] == s.clients;
    UserModesShape(s.clients[id], [], "", M.UserQuery(modes));
    OwnRecordMirror(s, out.s, id, out.rb);
  }

  /** Every handler keeps the mirror, pending replies included. */
  lemma DispatchMirror(cfg: Config, s: State, id: Id, req: R.Request)
    requires Core(s) && id in s.clients && Mirrored(s, id, [])
    requires req.Join? ==> Live(s, id)
    ensures var out := Dispatch(cfg, s, id, req); Mirrored(out.s, id, if id in out.s.clients then out.rb else [])
  {
    hide Mirrored, Core, Mode, Nick, User, Pass, CapReq, Oper, ModeUser, Away, SetName, Kill, RemoveClient, Invite, JoinAll,
         PartAll, PartEverywhere, Kick, NamesAll;
    match req
    case Nick(nick) => NickMirror(s, id, nick); RenameShape(s, id, nick);
    case User(username, realname) => UserMirror(cfg, s, id, username, realname);
    case Pass(_) | CapReq(_) | Oper(_, _) => OwnRequestMirror(cfg, s, id, req);
    case ModeUser(user, modes) => ModeUserMirror(s, id, user, modes);
    case Quit => RemoveMirror(s, id, id); RemoveShape(s, id);
    case Kill(nick) => KillMirror(s, id, nick);
    case Away(reason) => AwayMirror(cfg, s, id, reason);
    case SetName(name) => SetNameMirror(cfg, s, id, name);
    case CapEnd | Pong =>
    case CapLs | CapList | Authenticate | Ping | ReadOnly => AnswerMirror(s, id, [Numeric("")]);
    case _ => ChannelRequestMirror(cfg, s, id, req); ChannelRequestStays(cfg, s, id, req);
  }

  lemma AwayMirror(cfg: Config, s: State, id: Id, reason: Option<string>)
    requires id in s.clients && Mirrored(s, id, [])
    ensures var out := Away(cfg, s, id, reason); id in out.s.clients && Mirrored(out.s, id, out.rb)
  {
    hide Mirrored, Notify;
    var c, out := s.clients[id], Away(cfg, s, id, reason);
    if out.ok {
      var c' := c.(away := if reason.Some? then Some(UpTo(reason.value, cfg.awaylen)) else None);
      NoticeMirror(s, id, c', AwayNotice(c.nick, c'.away), Some("away-notify"), out.rb);
    }
  }

  lemma SetNameMirror(cfg: Config, s: State, id: Id, name: string)
    requires id in s.clients && Mirrored(s, id, [])
    ensures var out := SetName(cfg, s, id, name); id in out.s.clients && Mirrored(out.s, id, out.rb)
  {
    hide Mirrored, Notify;
    var c, out := s.clients[id], SetName(cfg, s, id, name);
    if out.ok {
      NoticeMirror(s, id, c.(realname := name), RealName(c.nick, name), Some("setname"), out.rb);
    } else {
      assert s.clients[id := s.clients[id]] == s.clients;
      OwnRecordMirror(s, s, id, out.rb);
    }
  }

  // ---- between messages

  /** With nothing pending it does not matter who is being served. */
  predicate AllMirrored(s: State)
  {
    forall k, o :: k in s.channels && o in s.channels[k].members && o in s.clients ==>
      View(s.clients[o].queue, k) == NickSet(s, s.channels[k])
  }

  lemma NothingPending(s: State, id: Id)
    ensures AllMirrored(s) <==> Mirrored(s, id, [])
  {
    assert forall q: seq<Event> :: q + [] == q;
    if AllMirrored(s) {
      forall k, o | k in s.channels && o in s.channels[k].members && o in s.clients ensures Sees(s, o, k, id, []) {
        assert View(s.clients[o].queue, k) == NickSet(s, s.channels[k]);
      }
    }
    if Mirrored(s, id, []) {
      forall k, o | k in s.channels && o in s.channels[k].members && o in s.clients
        ensures View(s.clients[o].queue, k) == NickSet(s, s.channels[k])
      {
        assert Sees(s, o, k, id, []);
      }
    }
  }

  /** Putting the pending replies on the issuer's queue, with more neutral ones. */
  lemma DeliverMirror(s: State, t: State, id: Id, rb: seq<Event>, more: seq<Event>)
    requires Mirrored(s, id, rb) && id in s.clients && id in t.clients && t.channels == s.channels
    requires t.clients == s.clients[id := t.clients[id]] && t.clients[id].nick == s.clients[id].nick
    requires t.clients[id].queue == s.clients[id].queue + (rb + more)
    requires forall e, k :: e in more ==> Neutral(e, k)
    ensures AllMirrored(t)
  {
    NeutralReplies(s, id, rb, more);
    forall k, o | k in t.channels && o in t.channels[k].members && o in t.clients
      ensures View(t.clients[o].queue, k) == NickSet(t, t.channels[k])
    {
      assert Sees(s, o, k, id, rb + more);
      NickSetSame(s, t, t.channels[k], t.channels[k]);
    }
  }

  /** A request that is not served is answered with one numeric. */
  lemma ReplyMirror(s: State, id: Id, code: string)
    requires id in s.clients && AllMirrored(s)
    ensures AllMirrored(Deliver(s, id, [Numeric(code)]))
  {
    hide Mirrored, AllMirrored;
    NothingPending(s, id);
    var more := [Numeric(code)];
    assert [] + more == more;
    DeliverMirror(s, Deliver(s, id, more), id, [], more);
  }

  lemma FinishMirror(out: Out, id: Id, req: R.Request)
    requires Mirrored(out.s, id, if id in out.s.clients then out.rb else [])
    ensures AllMirrored(Finish(out, id, req))
  {
    hide Mirrored, AllMirrored, R.Apply;
    if id in out.s.clients {
      var t, c := Finish(out, id, req), out.s.clients[id];
      var next := R.Apply(c.state, req);
      var more := if out.ok && next.Some? then Greeting(c.state, next.value) else [];
      assert out.rb + [] == out.rb;
      DeliverMirror(out.s, t, id, out.rb, more);
    } else {
      NothingPending(out.s, id);
    }
  }

  lemma HandleMirror(cfg: Config, s: State, id: Id, req: R.Request)
    requires Core(s) && AllMirrored(s)
    ensures AllMirrored(Handle(cfg, s, id, req))
  {
    hide Core, Mirrored, AllMirrored, Dispatch, Finish, Deliver, R.Apply;
    if id in s.clients {
      NothingPending(s, id);
      if (req.Nick? && !IsNickname(req.nick)) || R.Apply(s.clients[id].state, req).None? {
        ReplyMirror(s, id, "432");
        ReplyMirror(s, id, "462");
        ReplyMirror(s, id, "451");
      } else {
        Connections.OnlyRegisteredJoin(s, id, req);
        DispatchMirror(cfg, s, id, req);
        FinishMirror(Dispatch(cfg, s, id, req), id, req);
      }
    }
  }

  lemma StepMirror(cfg: Config, s: State, input: Input)
    requires Core(s) && AllMirrored(s)
    ensures AllMirrored(Step(cfg, s, input))
  {
    hide Handle, Core, RemoveClient, Deliver, AllMirrored;
    match input
    case Arrive(id, host) => ArriveMirror(s, id, host);
    case Request(id, req) => HandleMirror(cfg, s, id, req);
    case Malformed(id, code) =>
      if id in s.clients {
        ReplyMirror(s, id, code);
      }
    case Hangup(id) => QuitMirror(s, id);
    case Timeout(id) => QuitMirror(s, id);
  }

  lemma QuitMirror(s: State, id: Id)
    requires Core(s) && AllMirrored(s)
    ensures AllMirrored(RemoveClient(s, id))
  {
    if id in s.clients {
      NothingPending(s, id);
      RemoveMirror(s, id, id);
      NothingPending(RemoveClient(s, id), id);
    }
  }

  /** A new connection is on no channel, even when its identifier was used before. */
  lemma ArriveMirror(s: State, id: Id, host: string)
    requires Core(s) && AllMirrored(s)
    ensures AllMirrored(Connect(s, id, host))
  {
    if id !in s.clients {
      var t := Connect(s, id, host);
      forall k, o | k in t.channels && o in t.channels[k].members && o in t.clients
        ensures View(t.clients[o].queue, k) == NickSet(t, t.channels[k])
      {
        assert ChannelOk(s, s.channels[k]);
        forall m | m in s.channels[k].members ensures NickOf(t, m) == NickOf(s, m) {}
      }
    }
  }

  lemma {:induction false} RunMirror(cfg: Config, s: State, inputs: seq<Input>)
    requires Core(s) && Connections.ClientsOk(cfg, s) && AllMirrored(s)
    ensures AllMirrored(Run(cfg, s, inputs))
    decreases inputs
  {
    hide Step, Core, Connections.ClientsOk, AllMirrored;
    if inputs != [] {
      StepMirror(cfg, s, inputs[0]);
      Connections.StepCore(cfg, s, inputs[0]);
      Connections.StepClientsOk(cfg, s, inputs[0]);
      RunMirror(cfg, Step(cfg, s, inputs[0]), inputs[1..]);
    }
  }

  /**
   * After every run, each client that is on a channel knows from its own queue alone who is on it:
   * folding the events since its list of names gives the nicknames of the members, up to case.
   */
  lemma MembershipMirror(cfg: Config, inputs: seq<Input>, o: Id, k: string)
    requires var s := Run(cfg, INITIAL, inputs); k in s.channels && o in s.channels[k].members
    ensures var s := Run(cfg, INITIAL, inputs);
            o in s.clients && View(s.clients[o].queue, k) == set m | m in s.channels[k].members :: Canonical(NickOf(s, m))
  {
    RunMirror(cfg, INITIAL, inputs);
    Connections.ReachableInvariant(cfg, inputs);
    hide Run;
    var s := Run(cfg, INITIAL, inputs);
    assert ChannelOk(s, s.channels[k]);
  }
}
