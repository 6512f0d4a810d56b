/** What each channel mode means to the other requests, from the letter sent to who gets in. */
module ModeMeanings {
  import opened Text
  import opened Names
  import opened Glob
  import opened MaskSets
  import opened Server
  import opened ServerInvariant
  import opened Admission
  import Connections
  import Gate
  import Ranks
  import M = Modes
  import C = Channels
  import R = Registration

  // ---- one letter

  /** A MODE text of one signed letter. */
  function Ask(on: bool, letter: char): string
  {
    [if on then '+' else '-', letter]
  }

  lemma AskOne(on: bool, letter: char, params: seq<string>)
    requires letter != '+' && letter != '-'
    ensures M.Query(Ask(on, letter), params) == [M.Interpret(on, letter, M.NonEmptyParams(params)).0]
  {
    var modes := Ask(on, letter);
    assert modes[1..] == [letter] && [letter][1..] == "";
    assert M.Letters([letter], on) == [(on, letter)];
    assert M.Letters(modes, true) == [(on, letter)];
    hide M.Interpret;
    var letters := [(on, letter)];
    assert letters[1..] == [];
    assert M.Items([], M.Interpret(on, letter, M.NonEmptyParams(params)).1) == [];
  }

  lemma OneParam(param: string)
    requires param != ""
    ensures M.NonEmptyParams([param]) == [param]
  {
    assert [param][1..] == [];
  }

  /** Somebody on the channel who may change its modes: an operator of it, or an IRC operator. */
  predicate Commands(s: State, op: Id, chan: string)
  {
    && op in s.clients && Canonical(chan) in s.channels && op in s.channels[Canonical(chan)].members
    && (s.clients[op].operator || s.channels[Canonical(chan)].members[op].operator)
  }

  /** The clients are the same persons: what they are told and have sent aside, nothing changed. */
  predicate SamePersons(a: map<Id, Client>, b: map<Id, Client>)
  {
    a.Keys == b.Keys && forall i :: i in a ==> b[i] == a[i].(queue := b[i].queue, log := b[i].log)
  }

  /** A MODE request by somebody who commands: the channel afterwards is what the change makes of it. */
  lemma OneChange(cfg: Config, s: State, op: Id, chan: string, modes: string, params: seq<string>, change: M.Change)
    requires Core(s) && Connections.ClientsOk(cfg, s) && Commands(s, op, chan)
    requires M.Query(modes, params) == [M.Good(change)]
    ensures var t, k := Step(cfg, s, Request(op, R.Mode(chan, modes, params))), Canonical(chan);
            && Core(t) && Connections.ClientsOk(cfg, t) && SamePersons(s.clients, t.clients)
            && t.channels == s.channels[k := C.Apply(s.channels[k], change, cfg.keylen, NickMap(s, s.channels[k])).0]
  {
    var req := R.Mode(chan, modes, params);
    assert Live(s, op) by { ChannelIsOk(s, Canonical(chan)); }
    hide Core, Connections.ClientsOk, Dispatch, Step, C.Apply, NickMap, M.Query, SameFaces, SamePersons;
    Connections.StepCore(cfg, s, Request(op, req));
    Connections.StepClientsOk(cfg, s, Request(op, req));
    ModeOfOne(cfg, s, op, chan, modes, params, change);
    DispatchMode(cfg, s, op, chan, modes, params);
    FacesKeep(s.clients, op, Mode(cfg, s, op, chan, modes, params).s.clients);
    hide Mode;
    Gate.LiveIsRecorded(cfg, s, op, req);
    RecordedPersons(s, Dispatch(cfg, s, op, req).s.clients, Step(cfg, s, Request(op, req)).clients, op);
  }

  lemma DispatchMode(cfg: Config, s: State, op: Id, chan: string, modes: string, params: seq<string>)
    requires op in s.clients
    ensures Dispatch(cfg, s, op, R.Mode(chan, modes, params)) == Mode(cfg, s, op, chan, modes, params)
  {
    hide Mode;
  }

  lemma FacesKeep(a: map<Id, Client>, i: Id, b: map<Id, Client>)
    requires SameFaces(a, b) && i in a
    ensures i in b
  {
  }

  lemma RecordedPersons(s: State, told: map<Id, Client>, recorded: map<Id, Client>, op: Id)
    requires Live(s, op) && SameFaces(s.clients, told) && recorded.Keys == told.Keys
    requires forall o :: o in recorded && o != op ==> recorded[o] == told[o]
    requires op in recorded && recorded[op] == told[op].(state := R.Registered, log := recorded[op].log,
                                                         queue := recorded[op].queue)
    ensures SamePersons(s.clients, recorded)
  {
  }

  lemma ModeOfOne(cfg: Config, s: State, op: Id, chan: string, modes: string, params: seq<string>, change: M.Change)
    requires Core(s) && Commands(s, op, chan) && M.Query(modes, params) == [M.Good(change)]
    ensures var out, k := Mode(cfg, s, op, chan, modes, params), Canonical(chan);
            && SameFaces(s.clients, out.s.clients)
            && out.s.channels == s.channels[k := C.Apply(s.channels[k], change, cfg.keylen, NickMap(s, s.channels[k])).0]
  {
    hide Core, Mode, C.Apply, C.ApplyAll, NickMap, M.Query, SameFaces;
    var k := Canonical(chan);
    Ranks.CommandPasses(cfg, s, op, chan, modes, params);
    ApplyOne(s.channels[k], change, cfg.keylen, NickMap(s, s.channels[k]));
    ModePushes(cfg, s, op, chan, modes, params);
  }

  lemma ApplyOne(ch: C.Channel, change: M.Change, keylen: nat, nickOf: map<Id, string>)
    requires ch.members.Keys <= nickOf.Keys
    ensures C.ApplyAll(ch, [M.Good(change)], keylen, nickOf).0 == C.Apply(ch, change, keylen, nickOf).0
  {
    var items := [M.Good(change)];
    assert items[1..] == [];
    C.UnappliedKeeps(ch, change, keylen, nickOf);
    hide C.Apply;
  }

  lemma ModePushes(cfg: Config, s: State, op: Id, chan: string, modes: string, params: seq<string>)
    requires op in s.clients && Canonical(chan) in s.channels
    requires Mode(cfg, s, op, chan, modes, params).ok && op in s.channels[Canonical(chan)].members
    ensures var t, ch := Mode(cfg, s, op, chan, modes, params).s, s.channels[Canonical(chan)];
            && SameFaces(s.clients, t.clients)
            && t.channels == s.channels[Canonical(chan) :=
                 C.ApplyAll(ch, M.Query(modes, params), cfg.keylen, NickMap(s, ch)).0]
  {
    forall targets, ev ensures SameFaces(s.clients, Push(s.clients, targets, ev)) { PushFaces(s.clients, targets, ev); }
    hide C.CanChange, C.ApplyAll, NickMap, M.Query, M.PrintModes, M.PrintParams, C.AllReplies, Push, AsEvents, SameFaces;
    NobodyTold(s.clients);
  }

  lemma NobodyTold(clients: map<Id, Client>)
    ensures SameFaces(clients, clients)
  {
  }

  /** Who gets in after the change, read off the channel that it makes. */
  lemma JoinAfter(cfg: Config, s: State, op: Id, chan: string, modes: string, params: seq<string>, change: M.Change, id: Id,
                  key: Option<string>)
    requires Core(s) && Connections.ClientsOk(cfg, s) && Commands(s, op, chan)
    requires M.Query(modes, params) == [M.Good(change)]
    requires Live(s, id) && id !in s.channels[Canonical(chan)].members
    ensures var t, ch := Step(cfg, s, Request(op, R.Mode(chan, modes, params))), s.channels[Canonical(chan)];
            Joins(cfg, t, id, chan, key) <==>
              MayEnter(C.Apply(ch, change, cfg.keylen, NickMap(s, ch)).0, id, s.clients[id], key)
  {
    var t, ch := Step(cfg, s, Request(op, R.Mode(chan, modes, params))), s.channels[Canonical(chan)];
    OneChange(cfg, s, op, chan, modes, params, change);
    C.UnappliedKeeps(ch, change, cfg.keylen, NickMap(s, ch));
    hide Core, Connections.ClientsOk, Step, C.Apply, NickMap, M.Query, Joins, MayEnter;
    JoinsIff(cfg, t, id, chan, key);
    SamePersonEnters(t.channels[Canonical(chan)], id, s.clients[id], t.clients[id], key);
  }

  lemma SamePersonEnters(ch: C.Channel, id: Id, c: Client, c': Client, key: Option<string>)
    requires c' == c.(queue := c'.queue, log := c'.log)
    ensures MayEnter(ch, id, c', key) <==> MayEnter(ch, id, c, key)
  {
    hide Masked;
  }

  // ---- the request and what it makes of the channel

  /** A single letter that asks for one change, by somebody who commands. */
  predicate AsksFor(cfg: Config, s: State, op: Id, chan: string, on: bool, letter: char, params: seq<string>,
                    change: M.Change)
  {
    && Core(s) && Connections.ClientsOk(cfg, s) && Commands(s, op, chan)
    && letter != '+' && letter != '-' && M.Interpret(on, letter, M.NonEmptyParams(params)).0 == M.Good(change)
  }

  ghost function After(cfg: Config, s: State, op: Id, chan: string, on: bool, letter: char, params: seq<string>): State
  {
    Step(cfg, s, Request(op, R.Mode(chan, Ask(on, letter), params)))
  }

  /** A registered client that is not on the channel. */
  predicate Outsider(s: State, id: Id, chan: string)
  {
    Live(s, id) && Canonical(chan) in s.channels && id !in s.channels[Canonical(chan)].members
  }

  lemma Makes(cfg: Config, s: State, op: Id, chan: string, on: bool, letter: char, params: seq<string>, change: M.Change)
    requires AsksFor(cfg, s, op, chan, on, letter, params, change)
    ensures var t, k := After(cfg, s, op, chan, on, letter, params), Canonical(chan);
            && Core(t) && Connections.ClientsOk(cfg, t) && SamePersons(s.clients, t.clients)
            && t.channels == s.channels[k := C.Apply(s.channels[k], change, cfg.keylen, NickMap(s, s.channels[k])).0]
  {
    hide Core, Connections.ClientsOk, Step, C.Apply, NickMap, SamePersons, M.Interpret;
    AskOne(on, letter, params);
    OneChange(cfg, s, op, chan, Ask(on, letter), params, change);
  }

  lemma Admits(cfg: Config, s: State, op: Id, chan: string, on: bool, letter: char, params: seq<string>, change: M.Change,
               id: Id, key: Option<string>)
    requires AsksFor(cfg, s, op, chan, on, letter, params, change) && Outsider(s, id, chan)
    ensures var ch := s.channels[Canonical(chan)];
            Joins(cfg, After(cfg, s, op, chan, on, letter, params), id, chan, key) <==>
              MayEnter(C.Apply(ch, change, cfg.keylen, NickMap(s, ch)).0, id, s.clients[id], key)
  {
    hide Core, Connections.ClientsOk, Step, C.Apply, NickMap, M.Interpret, Joins, MayEnter;
    AskOne(on, letter, params);
    JoinAfter(cfg, s, op, chan, Ask(on, letter), params, change, id, key);
  }

  /** What a request leaves of a channel, and that it leaves all others alone. */
  predicate Leaves(s: State, t: State, chan: string, ch: C.Channel)
  {
    Core(t) && SamePersons(s.clients, t.clients) && t.channels == s.channels[Canonical(chan) := ch]
  }

  /** The state in which somebody commands channel `chan`. */
  predicate Ready(cfg: Config, s: State, op: Id, chan: string)
  {
    Core(s) && Connections.ClientsOk(cfg, s) && Commands(s, op, chan)
  }

  // ---- +i, +s, +m, +n, +t

  lemma InviteOnlySets(cfg: Config, s: State, op: Id, chan: string, on: bool)
    requires Ready(cfg, s, op, chan)
    ensures Leaves(s, After(cfg, s, op, chan, on, 'i', []), chan, s.channels[Canonical(chan)].(inviteOnly := on))
  {
    hide Core, Connections.ClientsOk, After, NickMap, SamePersons;
    Makes(cfg, s, op, chan, on, 'i', [], M.InviteOnly(on));
  }

  /** After +i only the invited, by name or by mask, get in; -i asks nobody for an invitation. */
  lemma InviteOnlyMeans(cfg: Config, s: State, op: Id, chan: string, on: bool, id: Id, key: Option<string>)
    requires Ready(cfg, s, op, chan) && Outsider(s, id, chan)
    ensures var ch, c := s.channels[Canonical(chan)], s.clients[id];
            Joins(cfg, After(cfg, s, op, chan, on, 'i', []), id, chan, key) <==>
              ch.key == key && HasRoom(ch) && Tolerated(ch, c) && (on ==> id in ch.invites || Masked(ch.invexMask, c.nick))
  {
    hide Core, Connections.ClientsOk, After, NickMap, Joins, Masked;
    Admits(cfg, s, op, chan, on, 'i', [], M.InviteOnly(on), id, key);
  }

  lemma SecretSets(cfg: Config, s: State, op: Id, chan: string, on: bool)
    requires Ready(cfg, s, op, chan)
    ensures Leaves(s, After(cfg, s, op, chan, on, 's', []), chan, s.channels[Canonical(chan)].(secret := on))
  {
    hide Core, Connections.ClientsOk, After, NickMap, SamePersons;
    Makes(cfg, s, op, chan, on, 's', [], M.Secret(on));
  }

  lemma ModeratedSets(cfg: Config, s: State, op: Id, chan: string, on: bool)
    requires Ready(cfg, s, op, chan)
    ensures Leaves(s, After(cfg, s, op, chan, on, 'm', []), chan, s.channels[Canonical(chan)].(moderated := on))
  {
    hide Core, Connections.ClientsOk, After, NickMap, SamePersons;
    Makes(cfg, s, op, chan, on, 'm', [], M.Moderated(on));
  }

  lemma NoOutsidersSets(cfg: Config, s: State, op: Id, chan: string, on: bool)
    requires Ready(cfg, s, op, chan)
    ensures Leaves(s, After(cfg, s, op, chan, on, 'n', []), chan, s.channels[Canonical(chan)].(noMsgFromOutside := on))
  {
    hide Core, Connections.ClientsOk, After, NickMap, SamePersons;
    Makes(cfg, s, op, chan, on, 'n', [], M.NoPrivMsgFromOutside(on));
  }

  lemma TopicRestrictedSets(cfg: Config, s: State, op: Id, chan: string, on: bool)
    requires Ready(cfg, s, op, chan)
    ensures Leaves(s, After(cfg, s, op, chan, on, 't', []), chan, s.channels[Canonical(chan)].(topicRestricted := on))
  {
    hide Core, Connections.ClientsOk, After, NickMap, SamePersons;
    Makes(cfg, s, op, chan, on, 't', [], M.TopicRestricted(on));
  }

  /** After +s NAMES shows the channel to its members only; after -s to everybody. */
  lemma SecretMeans(cfg: Config, s: State, op: Id, chan: string, on: bool, id: Id)
    requires Ready(cfg, s, op, chan) && Live(s, id)
    ensures var t, ch := After(cfg, s, op, chan, on, 's', []), s.channels[Canonical(chan)];
            var u := Step(cfg, t, Request(id, R.Names([chan])));
            && id in t.clients && id in u.clients
            && u.clients[id].queue == t.clients[id].queue +
                 if on && id !in ch.members then [] else [NamesList(Canonical(chan), NickSet(s, ch)), Numeric("366")]
  {
    hide Core, Connections.ClientsOk, After, Step, NickMap, NickSet, SamePersons;
    var t, ch := After(cfg, s, op, chan, on, 's', []), s.channels[Canonical(chan)];
    Makes(cfg, s, op, chan, on, 's', [], M.Secret(on));
    SamePersonsNicks(s, t, ch, id);
    NickSetOfMembers(t, ch, ch.(secret := on));
    NamesStep(cfg, t, id, chan);
    assert [NamesList(Canonical(chan), NickSet(s, ch))] + [Numeric("366")]
        == [NamesList(Canonical(chan), NickSet(s, ch)), Numeric("366")];
  }

  lemma SamePersonsNicks(s: State, t: State, ch: C.Channel, id: Id)
    requires SamePersons(s.clients, t.clients) && Live(s, id)
    ensures Live(t, id) && NickSet(t, ch) == NickSet(s, ch)
  {
    assert forall m :: m in ch.members ==> NickOf(t, m) == NickOf(s, m);
  }

  lemma NickSetOfMembers(s: State, ch: C.Channel, ch': C.Channel)
    requires ch'.members == ch.members
    ensures NickSet(s, ch') == NickSet(s, ch)
  {
  }

  /** After +m only members with some rank or voice can talk; after +n only members; after +t only operators set the topic. */
  lemma TalkMeans(cfg: Config, s: State, op: Id, chan: string, on: bool, id: Id)
    requires Ready(cfg, s, op, chan)
    ensures var ch, k := s.channels[Canonical(chan)], Canonical(chan);
            var rank := if id in ch.members then ch.members[id] else C.NO_MODES;
            && (k in After(cfg, s, op, chan, on, 'm', []).channels
                && (After(cfg, s, op, chan, on, 'm', []).channels[k].CanTalk(id) <==>
                      if on then rank.voice || rank.halfop || rank.operator else ch.noMsgFromOutside ==> id in ch.members))
            && (k in After(cfg, s, op, chan, on, 'n', []).channels
                && (!ch.moderated ==>
                      (After(cfg, s, op, chan, on, 'n', []).channels[k].CanTalk(id) <==> on ==> id in ch.members)))
            && (k in After(cfg, s, op, chan, on, 't', []).channels
                && (After(cfg, s, op, chan, on, 't', []).channels[k].CanSetTopic(id) <==>
                      id in ch.members && (on ==> rank.operator)))
  {
    ChannelIsOk(s, Canonical(chan));
    ModeratedSets(cfg, s, op, chan, on);
    NoOutsidersSets(cfg, s, op, chan, on);
    TopicRestrictedSets(cfg, s, op, chan, on);
    hide Core, Connections.ClientsOk, After, SamePersons, Commands;
  }

  // ---- letters with a parameter

  lemma TakesParam(on: bool, param: string)
    requires param != ""
    ensures var q := M.NonEmptyParams([param]);
            && M.Interpret(on, 'k', q).0 == M.Good(M.Key(on, param))
            && (on ==> M.Interpret(on, 'l', q).0 == M.Good(M.UserLimit(Some(param))))
            && M.Interpret(on, 'b', q).0 == M.Good(M.ChangeBan(on, param))
            && M.Interpret(on, 'e', q).0 == M.Good(M.ChangeException(on, param))
            && M.Interpret(on, 'I', q).0 == M.Good(M.ChangeInvitation(on, param))
            && M.Interpret(on, 'o', q).0 == M.Good(M.ChangeOperator(on, param))
            && M.Interpret(on, 'h', q).0 == M.Good(M.ChangeHalfop(on, param))
            && M.Interpret(on, 'v', q).0 == M.Good(M.ChangeVoice(on, param))
  {
    OneParam(param);
  }

  lemma TakesNone(on: bool)
    ensures M.NonEmptyParams([]) == []
    ensures M.Interpret(false, 'k', []).0 == M.Good(M.Key(false, "*"))
    ensures M.Interpret(false, 'l', []).0 == M.Good(M.UserLimit(None))
    ensures M.Interpret(on, 'b', []).0 == M.Good(M.GetBans)
    ensures M.Interpret(on, 'e', []).0 == M.Good(M.GetExceptions)
    ensures M.Interpret(on, 'I', []).0 == M.Good(M.GetInvitations)
  {
  }

  // ---- +k and -k

  lemma KeyApplied(ch: C.Channel, on: bool, key: string, keylen: nat, nickOf: map<Id, string>)
    requires ch.members.Keys <= nickOf.Keys
    ensures C.Apply(ch, M.Key(on, key), keylen, nickOf).0 ==
              if !on then ch.(key := None) else if ch.key.Some? then ch else ch.(key := Some(UpTo(key, keylen)))
  {
  }

  /** -k, with or without a parameter, takes the key away. */
  lemma KeyRemoved(cfg: Config, s: State, op: Id, chan: string)
    requires Ready(cfg, s, op, chan)
    ensures Leaves(s, After(cfg, s, op, chan, false, 'k', []), chan, s.channels[Canonical(chan)].(key := None))
  {
    hide Core, Connections.ClientsOk, After, NickMap, SamePersons, C.Apply, M.Interpret;
    TakesNone(false);
    KeyApplied(s.channels[Canonical(chan)], false, "*", cfg.keylen, NickMap(s, s.channels[Canonical(chan)]));
    Makes(cfg, s, op, chan, false, 'k', [], M.Key(false, "*"));
  }

  lemma NamedKeyRemoved(cfg: Config, s: State, op: Id, chan: string, param: string)
    requires Ready(cfg, s, op, chan) && param != ""
    ensures Leaves(s, After(cfg, s, op, chan, false, 'k', [param]), chan, s.channels[Canonical(chan)].(key := None))
  {
    hide Core, Connections.ClientsOk, After, NickMap, SamePersons, C.Apply, M.Interpret;
    TakesParam(false, param);
    KeyApplied(s.channels[Canonical(chan)], false, param, cfg.keylen, NickMap(s, s.channels[Canonical(chan)]));
    Makes(cfg, s, op, chan, false, 'k', [param], M.Key(false, param));
  }

  /** +k sets the key, cut to its maximal length, unless there is one already. */
  lemma KeySets(cfg: Config, s: State, op: Id, chan: string, key: string)
    requires Ready(cfg, s, op, chan) && key != ""
    ensures var ch := s.channels[Canonical(chan)];
            Leaves(s, After(cfg, s, op, chan, true, 'k', [key]), chan,
                   if ch.key.Some? then ch else ch.(key := Some(UpTo(key, cfg.keylen))))
  {
    hide Core, Connections.ClientsOk, After, NickMap, SamePersons, C.Apply, M.Interpret;
    TakesParam(true, key);
    KeyApplied(s.channels[Canonical(chan)], true, key, cfg.keylen, NickMap(s, s.channels[Canonical(chan)]));
    Makes(cfg, s, op, chan, true, 'k', [key], M.Key(true, key));
  }

  lemma OtherKey(ch: C.Channel, k: Option<string>, id: Id, c: Client, key: Option<string>)
    ensures MayEnter(ch.(key := k), id, c, key) <==> key == k && HasRoom(ch) && LetIn(ch, id, c.nick) && Tolerated(ch, c)
  {
    hide Masked;
  }

  /** After +k on a channel without a key only that key gets in. */
  lemma KeyMeans(cfg: Config, s: State, op: Id, chan: string, word: string, id: Id, key: Option<string>)
    requires Ready(cfg, s, op, chan) && Outsider(s, id, chan) && word != "" && s.channels[Canonical(chan)].key.None?
    ensures var ch, c := s.channels[Canonical(chan)], s.clients[id];
            Joins(cfg, After(cfg, s, op, chan, true, 'k', [word]), id, chan, key) <==>
              key == Some(UpTo(word, cfg.keylen)) && HasRoom(ch) && LetIn(ch, id, c.nick) && Tolerated(ch, c)
  {
    hide Core, Connections.ClientsOk, After, NickMap, Joins, MayEnter, HasRoom, LetIn, Tolerated, C.Apply, M.Interpret;
    TakesParam(true, word);
    KeyApplied(s.channels[Canonical(chan)], true, word, cfg.keylen, NickMap(s, s.channels[Canonical(chan)]));
    Admits(cfg, s, op, chan, true, 'k', [word], M.Key(true, word), id, key);
    OtherKey(s.channels[Canonical(chan)], Some(UpTo(word, cfg.keylen)), id, s.clients[id], key);
  }

  /** After -k only a JOIN without a key gets in. */
  lemma NoKeyMeans(cfg: Config, s: State, op: Id, chan: string, id: Id, key: Option<string>)
    requires Ready(cfg, s, op, chan) && Outsider(s, id, chan)
    ensures var ch, c := s.channels[Canonical(chan)], s.clients[id];
            Joins(cfg, After(cfg, s, op, chan, false, 'k', []), id, chan, key) <==>
              key == None && HasRoom(ch) && LetIn(ch, id, c.nick) && Tolerated(ch, c)
  {
    hide Core, Connections.ClientsOk, After, NickMap, Joins, MayEnter, HasRoom, LetIn, Tolerated, C.Apply, M.Interpret;
    TakesNone(false);
    KeyApplied(s.channels[Canonical(chan)], false, "*", cfg.keylen, NickMap(s, s.channels[Canonical(chan)]));
    Admits(cfg, s, op, chan, false, 'k', [], M.Key(false, "*"), id, key);
    OtherKey(s.channels[Canonical(chan)], None, id, s.clients[id], key);
  }

  // ---- +l and -l

  /** A number in decimal digits. */
  function Decimal(n: nat): string
  {
    if n < 10 then [('0' as int + n) as char] else Decimal(n / 10) + [('0' as int + n % 10) as char]
  }

  lemma {:induction false} ParseDigitsSnoc(digits: string, c: char, acc: nat)
    ensures var n := C.ParseDigits(digits, acc);
            C.ParseDigits(digits + [c], acc) == if n.None? then None else C.ParseDigits([c], n.value)
    decreases digits
  {
    if digits == "" {
      assert "" + [c] == [c];
    } else {
      assert (digits + [c])[1..] == digits[1..] + [c];
      if '0' <= digits[0] <= '9' {
        ParseDigitsSnoc(digits[1..], c, acc * 10 + (digits[0] as int - '0' as int));
      }
    }
  }

  lemma {:induction false} DigitsReadBack(n: nat)
    ensures C.ParseDigits(Decimal(n), 0) == if n <= C.USIZE_MAX then Some(n) else None
    ensures Decimal(n) != "" && Decimal(n)[0] != '+'
  {
    var last := ('0' as int + n % 10) as char;
    assert [last][1..] == "";
    if n < 10 {
      assert C.ParseDigits([last], 0) == C.ParseDigits("", n);
    } else {
      DigitsReadBack(n / 10);
      ParseDigitsSnoc(Decimal(n / 10), last, 0);
      assert n / 10 * 10 + n % 10 == n;
      assert n / 10 <= C.USIZE_MAX ==>
               C.ParseDigits([last], n / 10) == if n <= C.USIZE_MAX then C.ParseDigits("", n) else None;
    }
  }

  lemma LimitApplied(ch: C.Channel, n: nat, keylen: nat, nickOf: map<Id, string>)
    requires ch.members.Keys <= nickOf.Keys && n <= C.USIZE_MAX
    ensures C.Apply(ch, M.UserLimit(Some(Decimal(n))), keylen, nickOf).0 == ch.(userLimit := Some(n))
    ensures C.Apply(ch, M.UserLimit(None), keylen, nickOf).0 == ch.(userLimit := None)
  {
    DigitsReadBack(n);
    hide Decimal, C.ParseDigits;
  }

  lemma LimitSets(cfg: Config, s: State, op: Id, chan: string, n: nat)
    requires Ready(cfg, s, op, chan) && n <= C.USIZE_MAX
    ensures Leaves(s, After(cfg, s, op, chan, true, 'l', [Decimal(n)]), chan,
                   s.channels[Canonical(chan)].(userLimit := Some(n)))
  {
    hide Core, Connections.ClientsOk, After, NickMap, SamePersons, C.Apply, M.Interpret;
    DigitsReadBack(n);
    hide Decimal;
    TakesParam(true, Decimal(n));
    LimitApplied(s.channels[Canonical(chan)], n, cfg.keylen, NickMap(s, s.channels[Canonical(chan)]));
    Makes(cfg, s, op, chan, true, 'l', [Decimal(n)], M.UserLimit(Some(Decimal(n))));
  }

  lemma LimitRemoved(cfg: Config, s: State, op: Id, chan: string)
    requires Ready(cfg, s, op, chan)
    ensures Leaves(s, After(cfg, s, op, chan, false, 'l', []), chan, s.channels[Canonical(chan)].(userLimit := None))
  {
    hide Core, Connections.ClientsOk, After, NickMap, SamePersons, C.Apply, M.Interpret;
    TakesNone(false);
    LimitApplied(s.channels[Canonical(chan)], 0, cfg.keylen, NickMap(s, s.channels[Canonical(chan)]));
    Makes(cfg, s, op, chan, false, 'l', [], M.UserLimit(None));
  }

  lemma OtherLimit(ch: C.Channel, limit: Option<nat>, id: Id, c: Client, key: Option<string>)
    ensures MayEnter(ch.(userLimit := limit), id, c, key) <==>
              ch.key == key && (limit.Some? ==> |ch.members| < limit.value) && LetIn(ch, id, c.nick) && Tolerated(ch, c)
  {
    hide Masked;
  }

  /** After +l n nobody gets in once there are n members. */
  lemma LimitMeans(cfg: Config, s: State, op: Id, chan: string, n: nat, id: Id, key: Option<string>)
    requires Ready(cfg, s, op, chan) && Outsider(s, id, chan) && n <= C.USIZE_MAX
    ensures var ch, c := s.channels[Canonical(chan)], s.clients[id];
            Joins(cfg, After(cfg, s, op, chan, true, 'l', [Decimal(n)]), id, chan, key) <==>
              ch.key == key && |ch.members| < n && LetIn(ch, id, c.nick) && Tolerated(ch, c)
  {
    hide Core, Connections.ClientsOk, After, NickMap, Joins, MayEnter, HasRoom, LetIn, Tolerated, C.Apply, M.Interpret;
    DigitsReadBack(n);
    hide Decimal;
    TakesParam(true, Decimal(n));
    LimitApplied(s.channels[Canonical(chan)], n, cfg.keylen, NickMap(s, s.channels[Canonical(chan)]));
    Admits(cfg, s, op, chan, true, 'l', [Decimal(n)], M.UserLimit(Some(Decimal(n))), id, key);
    OtherLimit(s.channels[Canonical(chan)], Some(n), id, s.clients[id], key);
  }

  /** After -l the number of members does not matter. */
  lemma NoLimitMeans(cfg: Config, s: State, op: Id, chan: string, id: Id, key: Option<string>)
    requires Ready(cfg, s, op, chan) && Outsider(s, id, chan)
    ensures var ch, c := s.channels[Canonical(chan)], s.clients[id];
            Joins(cfg, After(cfg, s, op, chan, false, 'l', []), id, chan, key) <==>
              ch.key == key && LetIn(ch, id, c.nick) && Tolerated(ch, c)
  {
    hide Core, Connections.ClientsOk, After, NickMap, Joins, MayEnter, HasRoom, LetIn, Tolerated, C.Apply, M.Interpret;
    TakesNone(false);
    LimitApplied(s.channels[Canonical(chan)], 0, cfg.keylen, NickMap(s, s.channels[Canonical(chan)]));
    Admits(cfg, s, op, chan, false, 'l', [], M.UserLimit(None), id, key);
    OtherLimit(s.channels[Canonical(chan)], None, id, s.clients[id], key);
  }

  // ---- the mask lists

  /** What a list matches once a mask was added to it, or taken off it. */
  predicate MaskedAfter(raw: string, on: bool, mask: string, name: string)
  {
    if on then Masked(raw, name) || Masked(mask, name)
    else if Times(raw, mask) <= 1 then exists m :: m in Members(raw) && m != mask && Matches(m, name)
    else Masked(raw, name)
  }

  lemma OneMask(mask: string, name: string)
    requires ',' !in mask && mask != ""
    ensures Masked(mask, name) <==> Matches(mask, name)
  {
    SplitWhole(mask, ',');
    assert NonEmpty([mask]) == [mask];
    assert Members(mask) == {mask};
  }

  lemma MaskEdited(raw: string, on: bool, mask: string, name: string)
    requires mask != ""
    ensures Masked(C.SetMask(raw, on, mask).0, name) <==> MaskedAfter(raw, on, mask, name)
  {
    InsertIsSetAdd(raw, mask);
    RemoveIsSetDelete(raw, mask);
    if on && mask in Entries(raw) {
      OneMask(mask, name);
      NonEmptyElements(Entries(raw), mask);
    }
    hide Members, Entries, InsertRaw, RemoveRaw, Matches, Times;
  }

  lemma MasksApplied(ch: C.Channel, on: bool, mask: string, keylen: nat, nickOf: map<Id, string>)
    requires ch.members.Keys <= nickOf.Keys
    ensures C.Apply(ch, M.ChangeBan(on, mask), keylen, nickOf).0 == ch.(banMask := C.SetMask(ch.banMask, on, mask).0)
    ensures C.Apply(ch, M.ChangeException(on, mask), keylen, nickOf).0
         == ch.(exceptionMask := C.SetMask(ch.exceptionMask, on, mask).0)
    ensures C.Apply(ch, M.ChangeInvitation(on, mask), keylen, nickOf).0
         == ch.(invexMask := C.SetMask(ch.invexMask, on, mask).0)
  {
    hide C.SetMask;
  }

  /** The same client without the ban that the three lists make up. */
  predicate Spared(ban: bool, exception: bool, invitation: bool)
  {
    ban ==> exception || invitation
  }

  lemma BanSets(cfg: Config, s: State, op: Id, chan: string, on: bool, mask: string)
    requires Ready(cfg, s, op, chan) && mask != ""
    ensures Leaves(s, After(cfg, s, op, chan, on, 'b', [mask]), chan,
                   s.channels[Canonical(chan)].(banMask := C.SetMask(s.channels[Canonical(chan)].banMask, on, mask).0))
  {
    hide Core, Connections.ClientsOk, After, NickMap, SamePersons, C.Apply, M.Interpret, C.SetMask;
    TakesParam(on, mask);
    MasksApplied(s.channels[Canonical(chan)], on, mask, cfg.keylen, NickMap(s, s.channels[Canonical(chan)]));
    Makes(cfg, s, op, chan, on, 'b', [mask], M.ChangeBan(on, mask));
  }

  predicate BanSpares(ch: C.Channel, on: bool, mask: string, name: string)
  {
    Spared(MaskedAfter(ch.banMask, on, mask, name), Masked(ch.exceptionMask, name), Masked(ch.invexMask, name))
  }

  lemma OtherBan(ch: C.Channel, on: bool, mask: string, id: Id, c: Client, key: Option<string>)
    requires mask != ""
    ensures MayEnter(ch.(banMask := C.SetMask(ch.banMask, on, mask).0), id, c, key) <==>
              ch.key == key && HasRoom(ch) && LetIn(ch, id, c.nick)
              && BanSpares(ch, on, mask, c.nick) && BanSpares(ch, on, mask, c.nick + "!~" + c.user + "@" + c.host)
  {
    hide Masked, MaskedAfter, C.SetMask;
    MaskEdited(ch.banMask, on, mask, c.nick);
    MaskEdited(ch.banMask, on, mask, c.nick + "!~" + c.user + "@" + c.host);
  }

  /** After +b a client that the mask matches is kept out unless an exception or invitation mask matches it; -b undoes it. */
  lemma BanMeans(cfg: Config, s: State, op: Id, chan: string, on: bool, mask: string, id: Id, key: Option<string>)
    requires Ready(cfg, s, op, chan) && Outsider(s, id, chan) && mask != ""
    ensures var ch, c := s.channels[Canonical(chan)], s.clients[id];
            Joins(cfg, After(cfg, s, op, chan, on, 'b', [mask]), id, chan, key) <==>
              ch.key == key && HasRoom(ch) && LetIn(ch, id, c.nick)
              && BanSpares(ch, on, mask, c.nick) && BanSpares(ch, on, mask, c.nick + "!~" + c.user + "@" + c.host)
  {
    hide Core, Connections.ClientsOk, After, NickMap, Joins, MayEnter, HasRoom, LetIn, MaskedAfter, C.Apply, M.Interpret,
         C.SetMask;
    hide BanSpares;
    TakesParam(on, mask);
    MasksApplied(s.channels[Canonical(chan)], on, mask, cfg.keylen, NickMap(s, s.channels[Canonical(chan)]));
    Admits(cfg, s, op, chan, on, 'b', [mask], M.ChangeBan(on, mask), id, key);
    OtherBan(s.channels[Canonical(chan)], on, mask, id, s.clients[id], key);
  }

  lemma ExceptionSets(cfg: Config, s: State, op: Id, chan: string, on: bool, mask: string)
    requires Ready(cfg, s, op, chan) && mask != ""
    ensures Leaves(s, After(cfg, s, op, chan, on, 'e', [mask]), chan,
                   s.channels[Canonical(chan)].(
                     exceptionMask := C.SetMask(s.channels[Canonical(chan)].exceptionMask, on, mask).0))
  {
    hide Core, Connections.ClientsOk, After, NickMap, SamePersons, C.Apply, M.Interpret, C.SetMask;
    TakesParam(on, mask);
    MasksApplied(s.channels[Canonical(chan)], on, mask, cfg.keylen, NickMap(s, s.channels[Canonical(chan)]));
    Makes(cfg, s, op, chan, on, 'e', [mask], M.ChangeException(on, mask));
  }

  predicate ExceptionSpares(ch: C.Channel, on: bool, mask: string, name: string)
  {
    Spared(Masked(ch.banMask, name), MaskedAfter(ch.exceptionMask, on, mask, name), Masked(ch.invexMask, name))
  }

  lemma OtherException(ch: C.Channel, on: bool, mask: string, id: Id, c: Client, key: Option<string>)
    requires mask != ""
    ensures MayEnter(ch.(exceptionMask := C.SetMask(ch.exceptionMask, on, mask).0), id, c, key) <==>
              ch.key == key && HasRoom(ch) && LetIn(ch, id, c.nick)
              && ExceptionSpares(ch, on, mask, c.nick) && ExceptionSpares(ch, on, mask, c.nick + "!~" + c.user + "@" + c.host)
  {
    hide Masked, MaskedAfter, C.SetMask;
    MaskEdited(ch.exceptionMask, on, mask, c.nick);
    MaskEdited(ch.exceptionMask, on, mask, c.nick + "!~" + c.user + "@" + c.host);
  }

  /** After +e a client that the mask matches is not kept out by a ban. */
  lemma ExceptionMeans(cfg: Config, s: State, op: Id, chan: string, on: bool, mask: string, id: Id, key: Option<string>)
    requires Ready(cfg, s, op, chan) && Outsider(s, id, chan) && mask != ""
    ensures var ch, c := s.channels[Canonical(chan)], s.clients[id];
            Joins(cfg, After(cfg, s, op, chan, on, 'e', [mask]), id, chan, key) <==>
              ch.key == key && HasRoom(ch) && LetIn(ch, id, c.nick)
              && ExceptionSpares(ch, on, mask, c.nick) && ExceptionSpares(ch, on, mask, c.nick + "!~" + c.user + "@" + c.host)
  {
    hide Core, Connections.ClientsOk, After, NickMap, Joins, MayEnter, HasRoom, LetIn, MaskedAfter, C.Apply, M.Interpret,
         C.SetMask;
    hide ExceptionSpares;
    TakesParam(on, mask);
    MasksApplied(s.channels[Canonical(chan)], on, mask, cfg.keylen, NickMap(s, s.channels[Canonical(chan)]));
    Admits(cfg, s, op, chan, on, 'e', [mask], M.ChangeException(on, mask), id, key);
    OtherException(s.channels[Canonical(chan)], on, mask, id, s.clients[id], key);
  }

  lemma InvitationSets(cfg: Config, s: State, op: Id, chan: string, on: bool, mask: string)
    requires Ready(cfg, s, op, chan) && mask != ""
    ensures Leaves(s, After(cfg, s, op, chan, on, 'I', [mask]), chan,
                   s.channels[Canonical(chan)].(invexMask := C.SetMask(s.channels[Canonical(chan)].invexMask, on, mask).0))
  {
    hide Core, Connections.ClientsOk, After, NickMap, SamePersons, C.Apply, M.Interpret, C.SetMask;
    TakesParam(on, mask);
    MasksApplied(s.channels[Canonical(chan)], on, mask, cfg.keylen, NickMap(s, s.channels[Canonical(chan)]));
    Makes(cfg, s, op, chan, on, 'I', [mask], M.ChangeInvitation(on, mask));
  }

  predicate InvitationSpares(ch: C.Channel, on: bool, mask: string, name: string)
  {
    Spared(Masked(ch.banMask, name), Masked(ch.exceptionMask, name), MaskedAfter(ch.invexMask, on, mask, name))
  }

  lemma OtherInvitation(ch: C.Channel, on: bool, mask: string, id: Id, c: Client, key: Option<string>)
    requires mask != ""
    ensures MayEnter(ch.(invexMask := C.SetMask(ch.invexMask, on, mask).0), id, c, key) <==>
              ch.key == key && HasRoom(ch)
              && (ch.inviteOnly ==> id in ch.invites || MaskedAfter(ch.invexMask, on, mask, c.nick))
              && InvitationSpares(ch, on, mask, c.nick)
              && InvitationSpares(ch, on, mask, c.nick + "!~" + c.user + "@" + c.host)
  {
    hide Masked, MaskedAfter, C.SetMask;
    MaskEdited(ch.invexMask, on, mask, c.nick);
    MaskEdited(ch.invexMask, on, mask, c.nick + "!~" + c.user + "@" + c.host);
  }

  /** After +I a client whose nickname the mask matches needs no invitation, and whom it matches no ban keeps out. */
  lemma InvitationMeans(cfg: Config, s: State, op: Id, chan: string, on: bool, mask: string, id: Id, key: Option<string>)
    requires Ready(cfg, s, op, chan) && Outsider(s, id, chan) && mask != ""
    ensures var ch, c := s.channels[Canonical(chan)], s.clients[id];
            Joins(cfg, After(cfg, s, op, chan, on, 'I', [mask]), id, chan, key) <==>
              ch.key == key && HasRoom(ch)
              && (ch.inviteOnly ==> id in ch.invites || MaskedAfter(ch.invexMask, on, mask, c.nick))
              && InvitationSpares(ch, on, mask, c.nick)
              && InvitationSpares(ch, on, mask, c.nick + "!~" + c.user + "@" + c.host)
  {
    hide Core, Connections.ClientsOk, After, NickMap, Joins, MayEnter, HasRoom, LetIn, MaskedAfter, C.Apply, M.Interpret,
         C.SetMask;
    hide InvitationSpares;
    TakesParam(on, mask);
    MasksApplied(s.channels[Canonical(chan)], on, mask, cfg.keylen, NickMap(s, s.channels[Canonical(chan)]));
    Admits(cfg, s, op, chan, on, 'I', [mask], M.ChangeInvitation(on, mask), id, key);
    OtherInvitation(s.channels[Canonical(chan)], on, mask, id, s.clients[id], key);
  }

  // ---- +o, +h, +v

  lemma FlagsApplied(ch: C.Channel, on: bool, m: Id, keylen: nat, nickOf: map<Id, string>)
    requires C.Nicknamed(ch, nickOf) && m in ch.members
    ensures C.Apply(ch, M.ChangeOperator(on, nickOf[m]), keylen, nickOf).0
         == ch.(members := ch.members[m := ch.members[m].(operator := on)])
    ensures C.Apply(ch, M.ChangeHalfop(on, nickOf[m]), keylen, nickOf).0
         == ch.(members := ch.members[m := ch.members[m].(halfop := on)])
    ensures C.Apply(ch, M.ChangeVoice(on, nickOf[m]), keylen, nickOf).0
         == ch.(members := ch.members[m := ch.members[m].(voice := on)])
  {
    assert C.MemberNamed(ch.members, nickOf, nickOf[m]) == Some(m);
  }

  lemma NicknamedMembers(s: State, k: string)
    requires Core(s) && k in s.channels
    ensures C.Nicknamed(s.channels[k], NickMap(s, s.channels[k]))
    ensures forall m :: m in s.channels[k].members ==>
              NickMap(s, s.channels[k])[m] == NickOf(s, m) && Live(s, m)
  {
  }

  /** The member of that nickname gets or loses the flag; nothing else of the channel changes. */
  lemma OperatorSets(cfg: Config, s: State, op: Id, chan: string, on: bool, m: Id)
    requires Ready(cfg, s, op, chan) && m in s.channels[Canonical(chan)].members
    ensures var ch := s.channels[Canonical(chan)];
            Leaves(s, After(cfg, s, op, chan, on, 'o', [NickOf(s, m)]), chan,
                   ch.(members := ch.members[m := ch.members[m].(operator := on)]))
  {
    hide Core, Connections.ClientsOk, After, NickMap, SamePersons, C.Apply, M.Interpret, C.Nicknamed;
    var nick := NickOf(s, m);
    MemberIsNamed(cfg, s, m, Canonical(chan));
    NicknamedMembers(s, Canonical(chan));
    TakesParam(on, nick);
    FlagsApplied(s.channels[Canonical(chan)], on, m, cfg.keylen, NickMap(s, s.channels[Canonical(chan)]));
    Makes(cfg, s, op, chan, on, 'o', [nick], M.ChangeOperator(on, nick));
  }

  /** The member of that nickname gets or loses the flag; nothing else of the channel changes. */
  lemma HalfopSets(cfg: Config, s: State, op: Id, chan: string, on: bool, m: Id)
    requires Ready(cfg, s, op, chan) && m in s.channels[Canonical(chan)].members
    ensures var ch := s.channels[Canonical(chan)];
            Leaves(s, After(cfg, s, op, chan, on, 'h', [NickOf(s, m)]), chan,
                   ch.(members := ch.members[m := ch.members[m].(halfop := on)]))
  {
    hide Core, Connections.ClientsOk, After, NickMap, SamePersons, C.Apply, M.Interpret, C.Nicknamed;
    var nick := NickOf(s, m);
    MemberIsNamed(cfg, s, m, Canonical(chan));
    NicknamedMembers(s, Canonical(chan));
    TakesParam(on, nick);
    FlagsApplied(s.channels[Canonical(chan)], on, m, cfg.keylen, NickMap(s, s.channels[Canonical(chan)]));
    Makes(cfg, s, op, chan, on, 'h', [nick], M.ChangeHalfop(on, nick));
  }

  /** The member of that nickname gets or loses the flag; nothing else of the channel changes. */
  lemma VoiceSets(cfg: Config, s: State, op: Id, chan: string, on: bool, m: Id)
    requires Ready(cfg, s, op, chan) && m in s.channels[Canonical(chan)].members
    ensures var ch := s.channels[Canonical(chan)];
            Leaves(s, After(cfg, s, op, chan, on, 'v', [NickOf(s, m)]), chan,
                   ch.(members := ch.members[m := ch.members[m].(voice := on)]))
  {
    hide Core, Connections.ClientsOk, After, NickMap, SamePersons, C.Apply, M.Interpret, C.Nicknamed;
    var nick := NickOf(s, m);
    MemberIsNamed(cfg, s, m, Canonical(chan));
    NicknamedMembers(s, Canonical(chan));
    TakesParam(on, nick);
    FlagsApplied(s.channels[Canonical(chan)], on, m, cfg.keylen, NickMap(s, s.channels[Canonical(chan)]));
    Makes(cfg, s, op, chan, on, 'v', [nick], M.ChangeVoice(on, nick));
  }

  lemma MemberIsNamed(cfg: Config, s: State, m: Id, k: string)
    requires Core(s) && Connections.ClientsOk(cfg, s) && k in s.channels && m in s.channels[k].members
    ensures NickOf(s, m) != ""
  {
    ChannelIsOk(s, k);
    LiveIsNamed(cfg, s, m);
  }

  // ---- what the issuer is answered

  lemma AnswerOfOne(cfg: Config, s: State, op: Id, chan: string, modes: string, params: seq<string>, change: M.Change)
    requires Core(s) && Commands(s, op, chan) && M.Query(modes, params) == [M.Good(change)]
    requires var ch := s.channels[Canonical(chan)]; C.Apply(ch, change, cfg.keylen, NickMap(s, ch)).1 != C.Applied
    ensures var ch := s.channels[Canonical(chan)];
            Mode(cfg, s, op, chan, modes, params)
              == Out(s, AsEvents(C.ItemReplies(ch, M.Good(change), cfg.keylen, NickMap(s, ch))), true)
  {
    hide Core, C.Apply, NickMap, M.Query, C.ItemReplies, AsEvents;
    var ch, items := s.channels[Canonical(chan)], [M.Good(change)];
    Ranks.CommandPasses(cfg, s, op, chan, modes, params);
    hide C.CanChange, Push, M.PrintModes, M.PrintParams;
    assert items[1..] == [];
    C.UnappliedKeeps(ch, change, cfg.keylen, NickMap(s, ch));
    var next := C.Apply(ch, change, cfg.keylen, NickMap(s, ch)).0;
    assert C.AllReplies(next, [], cfg.keylen, NickMap(s, ch)) == [];
    var answers := C.ItemReplies(ch, M.Good(change), cfg.keylen, NickMap(s, ch));
    assert C.AllReplies(ch, items, cfg.keylen, NickMap(s, ch)) == answers + [] == answers;
    assert C.ApplyAll(ch, items, cfg.keylen, NickMap(s, ch)) == (ch, [] + []);
    assert s.channels[Canonical(chan) := ch] == s.channels;
  }

  /** A single change that is not applied leaves every channel alone, and its issuer gets the answer to it. */
  lemma NotApplied(cfg: Config, s: State, op: Id, chan: string, on: bool, letter: char, params: seq<string>, change: M.Change)
    requires AsksFor(cfg, s, op, chan, on, letter, params, change)
    requires var ch := s.channels[Canonical(chan)]; C.Apply(ch, change, cfg.keylen, NickMap(s, ch)).1 != C.Applied
    ensures var t, ch := After(cfg, s, op, chan, on, letter, params), s.channels[Canonical(chan)];
            && t.channels == s.channels && op in t.clients
            && t.clients[op].queue == s.clients[op].queue
                 + AsEvents(C.ItemReplies(ch, M.Good(change), cfg.keylen, NickMap(s, ch)))
  {
    hide Core, Connections.ClientsOk, Step, C.Apply, NickMap, M.Interpret, C.ItemReplies, AsEvents;
    AskOne(on, letter, params);
    AnswerOfOne(cfg, s, op, chan, Ask(on, letter), params, change);
    DispatchMode(cfg, s, op, chan, Ask(on, letter), params);
    assert Live(s, op) by { ChannelIsOk(s, Canonical(chan)); }
    hide Mode, Dispatch;
    Gate.LiveIsRecorded(cfg, s, op, R.Mode(chan, Ask(on, letter), params));
  }

  lemma AnswerEvents(replies: seq<C.Reply>, reply: C.Reply)
    requires replies == [reply]
    ensures AsEvents(replies) == [ModeReply(reply)]
  {
  }

  lemma KeyIsSet(ch: C.Channel, word: string, keylen: nat, nickOf: map<Id, string>)
    requires ch.members.Keys <= nickOf.Keys && ch.key.Some?
    ensures C.Apply(ch, M.Key(true, word), keylen, nickOf) == (ch, C.KeySet)
    ensures C.ItemReplies(ch, M.Good(M.Key(true, word)), keylen, nickOf) == [C.Answer("467")]
  {
  }

  /** +k on a channel that has a key is refused. */
  lemma KeyStays(cfg: Config, s: State, op: Id, chan: string, word: string)
    requires Ready(cfg, s, op, chan) && word != "" && s.channels[Canonical(chan)].key.Some?
    ensures var t := After(cfg, s, op, chan, true, 'k', [word]);
            && t.channels == s.channels && op in t.clients
            && t.clients[op].queue == s.clients[op].queue + [ModeReply(C.Answer("467"))]
  {
    hide Core, Connections.ClientsOk, After, NickMap, C.Apply, M.Interpret, C.ItemReplies, AsEvents;
    var ch := s.channels[Canonical(chan)];
    TakesParam(true, word);
    KeyIsSet(ch, word, cfg.keylen, NickMap(s, ch));
    AnswerEvents(C.ItemReplies(ch, M.Good(M.Key(true, word)), cfg.keylen, NickMap(s, ch)), C.Answer("467"));
    NotApplied(cfg, s, op, chan, true, 'k', [word], M.Key(true, word));
  }

  lemma NobodyNamed(ch: C.Channel, on: bool, nick: string, keylen: nat, nickOf: map<Id, string>)
    requires ch.members.Keys <= nickOf.Keys && forall m :: m in ch.members ==> nickOf[m] != nick
    ensures forall change :: change == M.ChangeOperator(on, nick) || change == M.ChangeHalfop(on, nick)
                             || change == M.ChangeVoice(on, nick) ==>
              && C.Apply(ch, change, keylen, nickOf) == (ch, C.UserNotInChannel)
              && C.ItemReplies(ch, M.Good(change), keylen, nickOf) == [C.Answer("441")]
  {
    assert C.MemberNamed(ch.members, nickOf, nick) == None;
  }

  lemma NotSpelled(cfg: Config, s: State, op: Id, chan: string, on: bool, letter: char, nick: string, change: M.Change)
    requires AsksFor(cfg, s, op, chan, on, letter, [nick], change)
    requires change == M.ChangeOperator(on, nick) || change == M.ChangeHalfop(on, nick) || change == M.ChangeVoice(on, nick)
    requires forall m :: m in s.channels[Canonical(chan)].members ==> NickOf(s, m) != nick
    ensures var t := After(cfg, s, op, chan, on, letter, [nick]);
            && t.channels == s.channels && op in t.clients
            && t.clients[op].queue == s.clients[op].queue + [ModeReply(C.Answer("441"))]
  {
    hide Core, Connections.ClientsOk, After, NickMap, C.Apply, M.Interpret, C.ItemReplies, AsEvents, NickOf;
    var ch := s.channels[Canonical(chan)];
    var nickOf := NickMap(s, ch);
    NicknamedMembers(s, Canonical(chan));
    NobodyNamed(ch, on, nick, cfg.keylen, nickOf);
    AnswerEvents(C.ItemReplies(ch, M.Good(change), cfg.keylen, nickOf), C.Answer("441"));
    NotApplied(cfg, s, op, chan, on, letter, [nick], change);
  }

  /** A flag for a nickname that no member spells exactly so is refused, even if one spells it in other case. */
  lemma SpellingDecides(cfg: Config, s: State, op: Id, chan: string, on: bool, letter: char, nick: string)
    requires Ready(cfg, s, op, chan) && nick != "" && (letter == 'o' || letter == 'h' || letter == 'v')
    requires forall m :: m in s.channels[Canonical(chan)].members ==> NickOf(s, m) != nick
    ensures var t := After(cfg, s, op, chan, on, letter, [nick]);
            && t.channels == s.channels && op in t.clients
            && t.clients[op].queue == s.clients[op].queue + [ModeReply(C.Answer("441"))]
  {
    hide Core, Connections.ClientsOk, After, M.Interpret, NickOf;
    TakesParam(on, nick);
    var change := if letter == 'o' then M.ChangeOperator(on, nick) else if letter == 'h' then M.ChangeHalfop(on, nick)
                  else M.ChangeVoice(on, nick);
    NotSpelled(cfg, s, op, chan, on, letter, nick, change);
  }

  /** One line for every entry of a list, and its end. */
  function Listing(code: string, end: string, raw: string): seq<Event>
  {
    seq(|Entries(raw)|, k requires 0 <= k < |Entries(raw)| => ModeReply(C.Listed(code, Entries(raw)[k])))
    + [ModeReply(C.Answer(end))]
  }

  lemma ListingEvents(code: string, end: string, raw: string)
    ensures AsEvents(C.ListReplies(code, end, raw)) == Listing(code, end, raw)
  {
    var replies := C.ListReplies(code, end, raw);
    assert |replies| == |Entries(raw)| + 1;
  }

  lemma QueriesAnswered(ch: C.Channel, keylen: nat, nickOf: map<Id, string>)
    requires ch.members.Keys <= nickOf.Keys
    ensures C.ItemReplies(ch, M.Good(M.GetBans), keylen, nickOf) == C.ListReplies("367", "368", ch.banMask)
    ensures C.ItemReplies(ch, M.Good(M.GetExceptions), keylen, nickOf) == C.ListReplies("348", "349", ch.exceptionMask)
    ensures C.ItemReplies(ch, M.Good(M.GetInvitations), keylen, nickOf) == C.ListReplies("346", "347", ch.exceptionMask)
  {
    hide C.ListReplies;
  }

  /** b and e without a parameter list the bans and the exceptions; I lists the exceptions too. */
  lemma ListsAreShown(cfg: Config, s: State, op: Id, chan: string, on: bool, letter: char)
    requires Ready(cfg, s, op, chan) && (letter == 'b' || letter == 'e' || letter == 'I')
    ensures var t, ch := After(cfg, s, op, chan, on, letter, []), s.channels[Canonical(chan)];
            && t.channels == s.channels && op in t.clients
            && t.clients[op].queue == s.clients[op].queue +
                 (if letter == 'b' then Listing("367", "368", ch.banMask)
                  else Listing(if letter == 'e' then "348" else "346", if letter == 'e' then "349" else "347",
                               ch.exceptionMask))
  {
    hide Core, Connections.ClientsOk, After, NickMap, C.Apply, M.Interpret, C.ItemReplies, AsEvents, C.ListReplies, Listing;
    var ch := s.channels[Canonical(chan)];
    var change := if letter == 'b' then M.GetBans else if letter == 'e' then M.GetExceptions else M.GetInvitations;
    TakesNone(on);
    C.QueriesChangeNothing(ch, change, cfg.keylen, NickMap(s, ch));
    QueriesAnswered(ch, cfg.keylen, NickMap(s, ch));
    ListingEvents("367", "368", ch.banMask);
    ListingEvents("348", "349", ch.exceptionMask);
    ListingEvents("346", "347", ch.exceptionMask);
    NotApplied(cfg, s, op, chan, on, letter, [], change);
  }

  // ---- several letters

  /** A request of several letters is one request after the other, as far as the channel goes. */
  lemma {:induction false} ItemsInTurn(ch: C.Channel, a: seq<M.Item>, b: seq<M.Item>, keylen: nat, nickOf: map<Id, string>)
    requires ch.members.Keys <= nickOf.Keys
    ensures var (mid, first) := C.ApplyAll(ch, a, keylen, nickOf);
            var (final, second) := C.ApplyAll(mid, b, keylen, nickOf);
            C.ApplyAll(ch, a + b, keylen, nickOf) == (final, first + second)
    decreases a
  {
    hide C.Apply;
    if a == [] {
      assert [] + b == b;
      assert [] + C.ApplyAll(ch, b, keylen, nickOf).1 == C.ApplyAll(ch, b, keylen, nickOf).1;
    } else {
      assert (a + b)[1..] == a[1..] + b && (a + b)[0] == a[0];
      if a[0].Bad? {
        ItemsInTurn(ch, a[1..], b, keylen, nickOf);
      } else {
        C.UnappliedKeeps(ch, a[0].change, keylen, nickOf);
        var (next, outcome) := C.Apply(ch, a[0].change, keylen, nickOf);
        ItemsInTurn(next, a[1..], b, keylen, nickOf);
        var (mid, first) := C.ApplyAll(next, a[1..], keylen, nickOf);
        var one := if outcome == C.Applied then [a[0].change] else [];
        var second := C.ApplyAll(mid, b, keylen, nickOf).1;
        assert one + (first + second) == one + first + second;
      }
    }
  }

  // ---- who is told

  /** What others hear of a MODE request: the changes that were applied, in one notice, if there are any. */
  function Announced(s: State, op: Id, k: string, applied: seq<M.Change>): seq<Event>
    requires op in s.clients
  {
    if applied == [] then [] else [ModeChanged(s.clients[op].nick, k, M.PrintModes(applied, None), M.PrintParams(applied))]
  }

  lemma ModeTells(cfg: Config, s: State, op: Id, chan: string, modes: string, params: seq<string>, o: Id)
    requires op in s.clients && Canonical(chan) in s.channels && op in s.channels[Canonical(chan)].members && o in s.clients
    requires Mode(cfg, s, op, chan, modes, params).ok
    ensures var out, k := Mode(cfg, s, op, chan, modes, params), Canonical(chan);
            var ch, items := s.channels[k], M.Query(modes, params);
            var applied := C.ApplyAll(ch, items, cfg.keylen, NickMap(s, ch)).1;
            && o in out.s.clients
            && out.s.clients[o].queue == s.clients[o].queue
                 + (if o in ch.members && o != op then Announced(s, op, k, applied) else [])
            && out.rb == AsEvents(C.AllReplies(ch, items, cfg.keylen, NickMap(s, ch))) + Announced(s, op, k, applied)
  {
    var k, ch := Canonical(chan), s.channels[Canonical(chan)];
    var (final, applied) := C.ApplyAll(ch, M.Query(modes, params), cfg.keylen, NickMap(s, ch));
    var ev := ModeChanged(s.clients[op].nick, k, M.PrintModes(applied, None), M.PrintParams(applied));
    PushFaces(s.clients, final.members.Keys - {op}, ev);
    hide C.CanChange, C.ApplyAll, NickMap, M.Query, M.PrintModes, M.PrintParams, C.AllReplies, Push, AsEvents, SameFaces;
    assert s.clients[o].queue + [] == s.clients[o].queue;
    var answers := AsEvents(C.AllReplies(ch, M.Query(modes, params), cfg.keylen, NickMap(s, ch)));
    assert answers + [] == answers;
  }

  /** The notice of a MODE request goes once to every other member, after the answers to its issuer, and to nobody else. */
  lemma ModeIsTold(cfg: Config, s: State, op: Id, chan: string, modes: string, params: seq<string>, o: Id)
    requires Ready(cfg, s, op, chan) && o in s.clients
    ensures var t, k := Step(cfg, s, Request(op, R.Mode(chan, modes, params))), Canonical(chan);
            var ch, items := s.channels[k], M.Query(modes, params);
            var told := Announced(s, op, k, C.ApplyAll(ch, items, cfg.keylen, NickMap(s, ch)).1);
            && o in t.clients
            && (o != op ==> t.clients[o].queue == s.clients[o].queue + if o in ch.members then told else [])
            && (o == op ==> t.clients[o].queue == s.clients[o].queue
                                                  + (AsEvents(C.AllReplies(ch, items, cfg.keylen, NickMap(s, ch))) + told))
  {
    hide Core, Connections.ClientsOk, Step, Mode, NickMap, C.ApplyAll, C.AllReplies, M.Query, AsEvents, Announced;
    assert Live(s, op) by { ChannelIsOk(s, Canonical(chan)); }
    Ranks.CommandPasses(cfg, s, op, chan, modes, params);
    ModeTells(cfg, s, op, chan, modes, params, o);
    ModeTells(cfg, s, op, chan, modes, params, op);
    DispatchMode(cfg, s, op, chan, modes, params);
    hide Dispatch;
    Gate.LiveIsRecorded(cfg, s, op, R.Mode(chan, modes, params));
    assert s.clients[op].queue + [] == s.clients[op].queue;
  }
}
