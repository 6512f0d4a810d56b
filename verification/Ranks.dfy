/** What MODE lets a member do by its rank, in terms of the letters it sends. */
module Ranks {
  import opened Text
  import opened Names
  import opened Server
  import opened ServerInvariant
  import M = Modes
  import C = Channels
  import R = Registration

  /** The letters a halfop may use; an operator may use all, and everybody the list queries. */
  const HALFOP_LETTERS := "mtlbeIv"

  lemma {:induction false} ItemAt(letters: seq<(bool, char)>, params: seq<string>, i: nat) returns (left: seq<string>)
    requires i < |letters|
    ensures |M.Items(letters, params)| == |letters|
    ensures M.Items(letters, params)[i] == M.Interpret(letters[i].0, letters[i].1, left).0
    decreases letters
  {
    var (item, rest) := M.Interpret(letters[0].0, letters[0].1, params);
    ItemCount(letters, params);
    hide M.Interpret;
    if i == 0 {
      left := params;
    } else {
      left := ItemAt(letters[1..], rest, i - 1);
      assert M.Items(letters, params)[i] == M.Items(letters[1..], rest)[i - 1];
    }
  }

  lemma {:induction false} ItemCount(letters: seq<(bool, char)>, params: seq<string>)
    ensures |M.Items(letters, params)| == |letters|
    decreases letters
  {
    hide M.Interpret;
    if letters != [] { ItemCount(letters[1..], M.Interpret(letters[0].0, letters[0].1, params).1); }
  }

  /** An item is a list query, or its letter is among those given. */
  predicate QueryOrLetter(item: M.Item, letter: char, letters: string)
  {
    item.Good? ==> item.change.IsQuery() || letter in letters
  }

  lemma RankOfLetter(rank: C.MemberModes, value: bool, letter: char, params: seq<string>)
    requires !rank.founder
    ensures var item := M.Interpret(value, letter, params).0;
            item.Good? ==>
              && (rank.operator ==> C.MayChange(rank, item.change))
              && (!rank.operator && rank.halfop ==>
                    (C.MayChange(rank, item.change) <==> QueryOrLetter(item, letter, HALFOP_LETTERS)))
              && (!rank.operator && !rank.halfop ==> (C.MayChange(rank, item.change) <==> item.change.IsQuery()))
  {
  }

  /** The request passes by rank: all of it or nothing. */
  lemma CanChangeIff(rank: C.MemberModes, modes: string, params: seq<string>)
    requires !rank.founder
    ensures var items, letters := M.Query(modes, params), M.Letters(modes, true);
            && |items| == |letters|
            && (rank.operator ==> C.CanChange(rank, items))
            && (!rank.operator && rank.halfop ==>
                  (C.CanChange(rank, items) <==>
                     forall i :: 0 <= i < |items| ==> QueryOrLetter(items[i], letters[i].1, HALFOP_LETTERS)))
            && (!rank.operator && !rank.halfop ==>
                  (C.CanChange(rank, items) <==> forall i :: 0 <= i < |items| ==> QueryOrLetter(items[i], letters[i].1, "")))
  {
    var items, letters, given := M.Query(modes, params), M.Letters(modes, true), M.NonEmptyParams(params);
    ItemCount(letters, given);
    forall i | 0 <= i < |items| && items[i].Good?
      ensures rank.operator ==> C.MayChange(rank, items[i].change)
      ensures !rank.operator && rank.halfop ==>
                (C.MayChange(rank, items[i].change) <==> QueryOrLetter(items[i], letters[i].1, HALFOP_LETTERS))
      ensures !rank.operator && !rank.halfop ==>
                (C.MayChange(rank, items[i].change) <==> QueryOrLetter(items[i], letters[i].1, ""))
    {
      var left := ItemAt(letters, given, i);
      RankOfLetter(rank, letters[i].0, letters[i].1, left);
    }
    hide C.MayChange, QueryOrLetter, M.Items, M.Letters;
  }

  /** List queries change nothing. */
  lemma {:induction false} QueriesOnly(ch: C.Channel, items: seq<M.Item>, keylen: nat, nickOf: map<Id, string>)
    requires ch.members.Keys <= nickOf.Keys && forall i :: 0 <= i < |items| ==> QueryOrLetter(items[i], ' ', "")
    ensures C.ApplyAll(ch, items, keylen, nickOf) == (ch, [])
    decreases items
  {
    if items != [] {
      assert QueryOrLetter(items[0], ' ', "");
      if items[0].Good? { C.QueriesChangeNothing(ch, items[0].change, keylen, nickOf); }
      hide C.Apply;
      assert forall i :: 0 <= i < |items[1..]| ==> items[1..][i] == items[i + 1];
      QueriesOnly(ch, items[1..], keylen, nickOf);
      assert [] + C.ApplyAll(ch, items[1..], keylen, nickOf).1 == [];
    }
  }

  /**
   * MODE by a member: an operator of the channel and an IRC operator may ask anything, a halfop only
   * list queries and its letters, any other member only list queries, which change nothing at all.
   */
  lemma RankDecides(cfg: Config, s: State, id: Id, chan: string, modes: string, params: seq<string>)
    requires Core(s) && id in s.clients && Canonical(chan) in s.channels && id in s.channels[Canonical(chan)].members
    ensures var rank := s.channels[Canonical(chan)].members[id];
            var items, letters := M.Query(modes, params), M.Letters(modes, true);
            var out := Dispatch(cfg, s, id, R.Mode(chan, modes, params));
            && |items| == |letters|
            && (!out.ok ==> out == Out(s, [Numeric("482")], false))
            && (s.clients[id].operator || rank.operator ==> out.ok)
            && (!s.clients[id].operator && !rank.operator && rank.halfop ==>
                  (out.ok <==> forall i :: 0 <= i < |items| ==> QueryOrLetter(items[i], letters[i].1, HALFOP_LETTERS)))
            && (!s.clients[id].operator && !rank.operator && !rank.halfop ==>
                  && (out.ok <==> forall i :: 0 <= i < |items| ==> QueryOrLetter(items[i], letters[i].1, ""))
                  && out.s == s)
  {
    var k := Canonical(chan);
    var ch, items := s.channels[k], M.Query(modes, params);
    var rank := ch.members[id];
    assert !rank.founder by { ChannelIsOk(s, k); }
    CanChangeIff(rank, modes, params);
    ModePasses(cfg, s, id, chan, modes, params);
    hide Mode, Core, C.CanChange, M.Letters, M.Query, QueryOrLetter;
    if !s.clients[id].operator && !rank.operator && !rank.halfop && C.CanChange(rank, items) {
      NoLetter(items, M.Letters(modes, true));
      QueriesOnly(ch, items, cfg.keylen, NickMap(s, ch));
      ModeOfNothing(cfg, s, id, chan, modes, params);
    }
  }

  lemma CommandPasses(cfg: Config, s: State, id: Id, chan: string, modes: string, params: seq<string>)
    requires Core(s) && id in s.clients && Canonical(chan) in s.channels && id in s.channels[Canonical(chan)].members
    requires s.clients[id].operator || s.channels[Canonical(chan)].members[id].operator
    ensures Mode(cfg, s, id, chan, modes, params).ok
  {
    RankDecides(cfg, s, id, chan, modes, params);
    hide Mode, Core, C.CanChange, M.Letters, M.Query, QueryOrLetter;
  }

  lemma NoLetter(items: seq<M.Item>, letters: seq<(bool, char)>)
    requires |items| == |letters| && forall i :: 0 <= i < |items| ==> QueryOrLetter(items[i], letters[i].1, "")
    ensures forall i :: 0 <= i < |items| ==> QueryOrLetter(items[i], ' ', "")
  {
  }

  lemma ModePasses(cfg: Config, s: State, id: Id, chan: string, modes: string, params: seq<string>)
    requires id in s.clients && Canonical(chan) in s.channels && id in s.channels[Canonical(chan)].members
    ensures var out := Mode(cfg, s, id, chan, modes, params);
            && (out.ok <==> s.clients[id].operator
                            || C.CanChange(s.channels[Canonical(chan)].members[id], M.Query(modes, params)))
            && (!out.ok ==> out == Out(s, [Numeric("482")], false))
  {
    hide C.CanChange, C.ApplyAll, NickMap, M.Query, M.PrintModes, M.PrintParams, C.AllReplies, Push, AsEvents;
  }

  lemma ModeOfNothing(cfg: Config, s: State, id: Id, chan: string, modes: string, params: seq<string>)
    requires id in s.clients && Canonical(chan) in s.channels && id in s.channels[Canonical(chan)].members
    requires var ch := s.channels[Canonical(chan)];
             C.ApplyAll(ch, M.Query(modes, params), cfg.keylen, NickMap(s, ch)) == (ch, [])
    ensures Mode(cfg, s, id, chan, modes, params).s == s
  {
    hide C.CanChange, C.ApplyAll, NickMap, M.Query, M.PrintModes, M.PrintParams, C.AllReplies, Push, AsEvents;
    assert s.channels[Canonical(chan) := s.channels[Canonical(chan)]] == s.channels;
  }
}
