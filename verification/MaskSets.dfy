/** A set of masks kept as one comma-joined string and edited in place (src/util.rs). */
module MaskSets {
  import opened Text
  import opened Glob

  /** The entries of the joined string, empty ones included. */
  function Entries(raw: string): seq<string>
  {
    Split(raw, ',')
  }

  /** The entries that are masks: removing the last mask leaves an empty entry behind. */
  function NonEmpty(entries: seq<string>): seq<string>
  {
    if entries == [] then []
    else if entries[0] == "" then NonEmpty(entries[1..])
    else [entries[0]] + NonEmpty(entries[1..])
  }

  /** The set the string stands for. */
  function Members(raw: string): set<string>
  {
    set m | m in NonEmpty(Entries(raw))
  }

  predicate Distinct(ms: seq<string>)
  {
    forall i, j :: 0 <= i < j < |ms| ==> ms[i] != ms[j]
  }

  /** No mask is listed twice. */
  predicate DuplicateFree(raw: string)
  {
    Distinct(NonEmpty(Entries(raw)))
  }

  predicate IsMask(mask: string)
  {
    mask != "" && ',' !in mask
  }

  // ---- what the edits do to the entries

  function FirstIndex(entries: seq<string>, mask: string): (k: nat)
    requires mask in entries
    ensures k < |entries| && entries[k] == mask && mask !in entries[..k]
  {
    if entries[0] == mask then 0
    else
      assert mask in entries[1..];
      var k := FirstIndex(entries[1..], mask) + 1;
      assert entries[..k] == [entries[0]] + entries[1..][..k - 1];
      k
  }

  /** The entries without the one at `k`: an empty entry takes the place of the last one. */
  function WithoutAt(entries: seq<string>, k: nat): seq<string>
    requires k < |entries|
  {
    if k + 1 < |entries| then entries[..k] + entries[k + 1..] else entries[..k] + [""]
  }

  /** The entries after removing the first `mask`. */
  function WithoutFirst(entries: seq<string>, mask: string): seq<string>
    requires mask in entries
  {
    WithoutAt(entries, FirstIndex(entries, mask))
  }

  /** The string after `insert`; unchanged when the mask is an entry already. */
  function InsertRaw(raw: string, mask: string): string
  {
    if mask in Entries(raw) then raw
    else if raw == "" then mask
    else raw + "," + mask
  }

  /** The string after `remove`; unchanged when the mask is no entry. */
  function RemoveRaw(raw: string, mask: string): string
  {
    if mask in Entries(raw) then Join(WithoutFirst(Entries(raw), mask), ',') else raw
  }

  /** `is_match`: some entry matches. */
  predicate IsMatchRaw(raw: string, s: string)
  {
    exists m :: m in Entries(raw) && Matches(m, s)
  }

  // ---- the string refines a set

  lemma {:induction false} NonEmptyConcat(a: seq<string>, b: seq<string>)
    ensures NonEmpty(a + b) == NonEmpty(a) + NonEmpty(b)
  {
    if a == [] {
      assert a + b == b;
    } else {
      assert (a + b)[1..] == a[1..] + b;
      NonEmptyConcat(a[1..], b);
    }
  }

  lemma {:induction false} NonEmptyElements(entries: seq<string>, m: string)
    ensures m in NonEmpty(entries) <==> m in entries && m != ""
  {
    if entries != [] {
      NonEmptyElements(entries[1..], m);
    }
  }

  lemma EntriesAfterInsert(raw: string, mask: string)
    requires mask !in Entries(raw)
    ensures Entries(InsertRaw(raw, mask)) == (if raw == "" then [] else Entries(raw)) + Entries(mask)
  {
    if raw != "" {
      assert raw + "," + mask == raw + [','] + mask;
      SplitConcat(raw, mask, ',');
    }
  }

  lemma EntriesAfterRemove(raw: string, mask: string)
    requires mask in Entries(raw)
    ensures Entries(RemoveRaw(raw, mask)) == WithoutFirst(Entries(raw), mask)
  {
    SplitJoin(WithoutFirst(Entries(raw), mask), ',');
  }

  /** Inserting any text adds its masks; inserting one mask adds it and keeps the list duplicate-free. */
  lemma InsertIsSetAdd(raw: string, mask: string)
    ensures mask in Entries(raw) ==> InsertRaw(raw, mask) == raw
    ensures mask !in Entries(raw) ==> Members(InsertRaw(raw, mask)) == Members(raw) + Members(mask)
    ensures IsMask(mask) ==> Members(InsertRaw(raw, mask)) == Members(raw) + {mask}
    ensures IsMask(mask) ==> (mask in Entries(raw) <==> mask in Members(raw))
    ensures IsMask(mask) && DuplicateFree(raw) ==> DuplicateFree(InsertRaw(raw, mask))
  {
    NonEmptyElements(Entries(raw), mask);
    if mask !in Entries(raw) {
      EntriesAfterInsert(raw, mask);
      NonEmptyConcat(Entries(raw), Entries(mask));
      assert NonEmpty([""]) == [];
    }
    if IsMask(mask) {
      SplitWhole(mask, ',');
      assert NonEmpty([mask]) == [mask];
    }
  }

  /** Dropping the first occurrence of a mask takes one element out of the list of masks. */
  lemma DropOne(entries: seq<string>, mask: string) returns (before: seq<string>, after: seq<string>)
    requires mask in entries && mask != ""
    ensures NonEmpty(entries) == before + [mask] + after
    ensures NonEmpty(WithoutFirst(entries, mask)) == before + after
  {
    var k := FirstIndex(entries, mask);
    before, after := NonEmpty(entries[..k]), NonEmpty(entries[k + 1..]);
    assert entries == entries[..k] + ([mask] + entries[k + 1..]);
    NonEmptyAround(entries[..k], mask, entries[k + 1..]);
  }

  /** Replacing an entry by nothing, or by an empty entry, drops just its own contribution. */
  lemma NonEmptyAround(a: seq<string>, m: string, b: seq<string>)
    ensures NonEmpty(a + ([m] + b)) == NonEmpty(a) + (if m == "" then [] else [m]) + NonEmpty(b)
    ensures NonEmpty(a + b) == NonEmpty(a) + NonEmpty(b)
    ensures NonEmpty(a + [""]) == NonEmpty(a)
  {
    var one := if m == "" then [] else [m];
    NonEmptyConcat(a, [m] + b);
    NonEmptyConcat([m], b);
    assert NonEmpty([m]) == one;
    NonEmptyConcat(a, b);
    NonEmptyConcat(a, [""]);
    assert NonEmpty([""]) == [];
    assert NonEmpty(a) + (one + NonEmpty(b)) == NonEmpty(a) + one + NonEmpty(b);
  }

  lemma DistinctWithoutMiddle(before: seq<string>, mask: string, after: seq<string>)
    requires Distinct(before + [mask] + after)
    ensures Distinct(before + after)
    ensures mask !in before + after
    ensures (set m | m in before + after) == (set m | m in before + [mask] + after) - {mask}
  {
    var all, left := before + [mask] + after, before + after;
    assert forall i :: 0 <= i < |before| ==> left[i] == all[i];
    assert forall i :: |before| <= i < |left| ==> left[i] == all[i + 1];
    assert all[|before|] == mask;
  }

  /** How often a mask is listed. */
  function Times(raw: string, mask: string): nat
  {
    multiset(Entries(raw))[mask]
  }

  lemma {:induction false} NonEmptyCounts(entries: seq<string>, mask: string)
    requires mask != ""
    ensures multiset(NonEmpty(entries))[mask] == multiset(entries)[mask]
  {
    if entries != [] {
      NonEmptyCounts(entries[1..], mask);
      assert entries == [entries[0]] + entries[1..];
      assert multiset(entries) == multiset{entries[0]} + multiset(entries[1..]);
      var rest := NonEmpty(entries[1..]);
      assert multiset([entries[0]] + rest) == multiset{entries[0]} + multiset(rest);
    }
  }

  /** Removing a mask takes out one of its listings, and no listing of another mask. */
  lemma RemoveTakesOne(raw: string, mask: string)
    ensures multiset(NonEmpty(Entries(RemoveRaw(raw, mask)))) == multiset(NonEmpty(Entries(raw))) - multiset{mask}
    ensures DuplicateFree(raw) ==> DuplicateFree(RemoveRaw(raw, mask))
  {
    var kept := NonEmpty(Entries(raw));
    NonEmptyElements(Entries(raw), mask);
    if mask in Entries(raw) {
      EntriesAfterRemove(raw, mask);
      if mask == "" {
        RemoveEmptyEntry(Entries(raw));
      } else {
        var before, after := DropOne(Entries(raw), mask);
        assert multiset(before + [mask] + after) == multiset(before + after) + multiset{mask};
        if Distinct(kept) { DistinctWithoutMiddle(before, mask, after); }
      }
    }
  }

  /**
   * Removing a mask that is listed at most once deletes it from the set, and no other change happens;
   * a mask listed more than once stays a member.
   */
  lemma RemoveIsSetDelete(raw: string, mask: string)
    ensures Members(RemoveRaw(raw, mask)) == if Times(raw, mask) <= 1 then Members(raw) - {mask} else Members(raw)
    ensures mask != "" ==> (Members(RemoveRaw(raw, mask)) == Members(raw) - {mask} <==> Times(raw, mask) <= 1)
    ensures mask != "" ==> (mask in Entries(raw) <==> mask in Members(raw))
    ensures DuplicateFree(raw) ==> Times(raw, mask) <= 1 || mask == ""
  {
    var kept, left := NonEmpty(Entries(raw)), NonEmpty(Entries(RemoveRaw(raw, mask)));
    RemoveTakesOne(raw, mask);
    NonEmptyElements(Entries(raw), mask);
    OneFewer(kept, left, mask);
    if mask != "" {
      NonEmptyCounts(Entries(raw), mask);
      if Distinct(kept) { DistinctCounts(kept, mask); }
    }
  }

  lemma OneFewer(kept: seq<string>, left: seq<string>, mask: string)
    requires multiset(left) == multiset(kept) - multiset{mask}
    ensures var was, now := set m | m in kept, set m | m in left;
            && now == (if multiset(kept)[mask] <= 1 then was - {mask} else was)
            && (now == was - {mask} <==> multiset(kept)[mask] <= 1)
  {
    var was, now := set m | m in kept, set m | m in left;
    forall m ensures m in now <==> multiset(kept)[m] > if m == mask then 1 else 0 {
      assert m in left <==> m in multiset(left);
    }
    forall m ensures m in was <==> multiset(kept)[m] > 0 {
      assert m in kept <==> m in multiset(kept);
    }
  }

  lemma DistinctCounts(ms: seq<string>, mask: string)
    requires Distinct(ms)
    ensures multiset(ms)[mask] <= 1
  {
    if mask in ms {
      var k :| 0 <= k < |ms| && ms[k] == mask;
      assert ms == ms[..k] + [ms[k]] + ms[k + 1..];
      assert mask !in ms[..k] && mask !in ms[k + 1..];
    }
  }

  /** A mask text with a comma lists a mask twice, and one removal then leaves it in force. */
  lemma RemovedMaskStays()
    ensures InsertRaw("a", "b,a") == "a,b,a" && RemoveRaw("a,b,a", "a") == "b,a" && "a" in Members("b,a")
  {
    var two, three := ["b", "a"], ["a", "b", "a"];
    JoinTwo("b", "a");
    assert three[1..] == two && Join(three, ',') == "a" + "," + "b,a" == "a,b,a";
    SplitJoin(two, ',');
    SplitJoin(three, ',');
    SplitWhole("a", ',');
    assert "b,a"[0] == 'b';
    assert FirstIndex(three, "a") == 0;
    assert WithoutFirst(three, "a") == two;
    assert NonEmpty(two[1..]) == ["a"] && NonEmpty(two) == two;
    assert two[1] == "a";
  }

  lemma JoinTwo(a: string, b: string)
    ensures Join([a, b], ',') == a + "," + b
  {
    assert [a, b][1..] == [b];
  }

  lemma RemoveEmptyEntry(entries: seq<string>)
    requires "" in entries
    ensures NonEmpty(WithoutFirst(entries, "")) == NonEmpty(entries)
  {
    var k := FirstIndex(entries, "");
    assert entries == entries[..k] + ([""] + entries[k + 1..]);
    NonEmptyAround(entries[..k], "", entries[k + 1..]);
  }

  /** On a non-empty subject the leftover empty entries never match. */
  lemma MatchIsSomeMember(raw: string, s: string)
    requires s != ""
    ensures IsMatchRaw(raw, s) <==> exists m :: m in Members(raw) && Matches(m, s)
  {
    forall m ensures m in Members(raw) <==> m in Entries(raw) && m != "" {
      NonEmptyElements(Entries(raw), m);
    }
  }

  /** The object of src/util.rs: one string, edited at byte offsets. */
  class MaskSet {
    var raw: string

    constructor ()
      ensures raw == "" && Members(raw) == {} && DuplicateFree(raw)
    {
      raw := "";
    }

    method IsMatch(s: string) returns (r: bool)
      ensures r <==> IsMatchRaw(raw, s)
      ensures s != "" ==> (r <==> exists m :: m in Members(raw) && Matches(m, s))
    {
      if s != "" { MatchIsSomeMember(raw, s); }
      var entries := Entries(raw);
      for k := 0 to |entries|
        invariant forall j :: 0 <= j < k ==> !Matches(entries[j], s)
      {
        var ok := MatchMask(entries[k], s);
        if ok { return true; }
      }
      return false;
    }

    method Insert(mask: string) returns (inserted: bool)
      modifies this
      ensures raw == InsertRaw(old(raw), mask)
      ensures inserted <==> mask !in Entries(old(raw))
      ensures IsMask(mask) ==> Members(raw) == old(Members(raw)) + {mask}
      ensures IsMask(mask) ==> (inserted <==> mask !in old(Members(raw)))
      ensures IsMask(mask) && old(DuplicateFree(raw)) ==> DuplicateFree(raw)
    {
      InsertIsSetAdd(raw, mask);
      var entries := Entries(raw);
      for k := 0 to |entries|
        invariant mask !in entries[..k]
        invariant raw == old(raw)
      {
        if entries[k] == mask { return false; }
      }
      assert mask !in entries by { assert entries[..|entries|] == entries; }
      if raw != "" {
        raw := raw + ",";
      }
      raw := raw + mask;
      return true;
    }

    method Remove(mask: string) returns (removed: bool)
      modifies this
      ensures raw == RemoveRaw(old(raw), mask)
      ensures removed <==> mask in Entries(old(raw))
      ensures Members(raw) == if old(Times(raw, mask)) <= 1 then old(Members(raw)) - {mask} else old(Members(raw))
      ensures mask != "" ==> (removed <==> mask in old(Members(raw)))
      ensures old(DuplicateFree(raw)) ==> DuplicateFree(raw)
    {
      RemoveIsSetDelete(raw, mask);
      RemoveTakesOne(raw, mask);
      hide Members, Times, DuplicateFree, Distinct, NonEmpty, Entries, Split, Offset;
      var start, found := FindEntry(mask);
      if !found { return false; }
      var end := start + |mask|;
      CutOut(raw, mask, start);
      if end < |raw| { end := end + 1; }
      assert end == |raw| ==> raw[..start] + raw[end..] == raw[..start];
      raw := raw[..start] + raw[end..];
      return true;
    }

    /** The offset of the first entry equal to `mask`. */
    method FindEntry(mask: string) returns (start: nat, found: bool)
      ensures found <==> mask in Entries(raw)
      ensures found ==> start == Offset(Entries(raw), FirstIndex(Entries(raw), mask))
    {
      var entries := Entries(raw);
      start := 0;
      for k := 0 to |entries|
        invariant mask !in entries[..k]
        invariant start == Offset(entries, k)
      {
        if entries[k] == mask {
          FirstIndexIs(entries, mask, k);
          return start, true;
        }
        OffsetStep(entries, k);
        start := start + |entries[k]| + 1;
      }
      assert entries[..|entries|] == entries;
      return 0, false;
    }
  }

  // ---- where an entry starts in the string

  /** The offset of entry `k`: the entries before it and their separators. */
  function Offset(entries: seq<string>, k: nat): nat
    requires k <= |entries|
  {
    if k == 0 then 0 else |entries[0]| + 1 + Offset(entries[1..], k - 1)
  }

  lemma {:induction false} OffsetStep(entries: seq<string>, k: nat)
    requires k < |entries|
    ensures Offset(entries, k + 1) == Offset(entries, k) + |entries[k]| + 1
  {
    if k > 0 { OffsetStep(entries[1..], k - 1); }
  }

  /** The string around entry `k`. */
  lemma {:induction false} OffsetSplits(entries: seq<string>, k: nat)
    requires k < |entries|
    ensures Offset(entries, k) <= |Join(entries, ',')|
    ensures Join(entries, ',')[..Offset(entries, k)] == Before(entries, k)
    ensures Join(entries, ',')[Offset(entries, k)..] == Join(entries[k..], ',')
  {
    if k == 0 {
      assert entries[0..] == entries;
    } else {
      OffsetSplits(entries[1..], k - 1);
      var raw, tail := Join(entries, ','), Join(entries[1..], ',');
      assert raw == entries[0] + "," + tail;
      var o := Offset(entries[1..], k - 1);
      assert raw[..Offset(entries, k)] == entries[0] + "," + tail[..o];
      assert raw[Offset(entries, k)..] == tail[o..];
      assert entries[1..][k - 1..] == entries[k..];
      assert entries[..k][1..] == entries[1..][..k - 1];
    }
  }

  lemma FirstIndexIs(entries: seq<string>, mask: string, k: nat)
    requires k < |entries| && entries[k] == mask && mask !in entries[..k]
    ensures FirstIndex(entries, mask) == k
  {
  }

  /** The text from the separator after entry `k` on. */
  lemma AfterEntry(entries: seq<string>, k: nat)
    requires k < |entries|
    ensures Join(entries[k..], ',') ==
            if k + 1 < |entries| then entries[k] + "," + Join(entries[k + 1..], ',') else entries[k]
  {
  }

  lemma Cut(raw: string, start: nat, mask: string, sep: string, left: string)
    requires start <= |raw| && raw[start..] == mask + sep + left
    ensures start + |mask| + |sep| <= |raw| && raw[start + |mask| + |sep|..] == left
  {
  }

  /** What stands before entry `k`, separator included. */
  function Before(entries: seq<string>, k: nat): string
    requires k <= |entries|
  {
    if k == 0 then "" else Join(entries[..k], ',') + ","
  }

  lemma JoinBefore(entries: seq<string>, k: nat, more: seq<string>)
    requires k <= |entries| && |more| >= 1
    ensures Join(entries[..k] + more, ',') == Before(entries, k) + Join(more, ',')
  {
    if k > 0 {
      JoinConcat(entries[..k], more, ',');
    } else {
      assert entries[..k] + more == more;
    }
  }

  /** Cutting an entry and the separator after it out of the string drops the entry. */
  lemma SpliceMiddle(entries: seq<string>, k: nat, raw: string, start: nat)
    requires k + 1 < |entries| && raw == Join(entries, ',') && start == Offset(entries, k)
    ensures start + |entries[k]| < |raw|
    ensures raw[..start] + raw[start + |entries[k]| + 1..] == Join(entries[..k] + entries[k + 1..], ',')
  {
    OffsetSplits(entries, k);
    AfterEntry(entries, k);
    Cut(raw, start, entries[k], ",", Join(entries[k + 1..], ','));
    JoinBefore(entries, k, entries[k + 1..]);
  }

  /** Cutting the first entry equal to a mask, with the separator after it if there is one, removes it. */
  lemma CutOut(raw: string, mask: string, start: nat)
    requires mask in Entries(raw) && start == Offset(Entries(raw), FirstIndex(Entries(raw), mask))
    ensures start + |mask| <= |raw|
    ensures start + |mask| < |raw| ==> raw[..start] + raw[start + |mask| + 1..] == RemoveRaw(raw, mask)
    ensures start + |mask| == |raw| ==> raw[..start] == RemoveRaw(raw, mask)
  {
    hide *;
    RemoveRawIs(raw, mask);
    CutAt(Entries(raw), FirstIndex(Entries(raw), mask), raw, start);
  }

  lemma RemoveRawIs(raw: string, mask: string)
    requires mask in Entries(raw)
    ensures Join(Entries(raw), ',') == raw
    ensures RemoveRaw(raw, mask) == Join(WithoutAt(Entries(raw), FirstIndex(Entries(raw), mask)), ',')
  {
    JoinSplit(raw, ',');
  }

  lemma CutAt(entries: seq<string>, k: nat, raw: string, start: nat)
    requires k < |entries| && raw == Join(entries, ',') && start == Offset(entries, k)
    ensures var end := start + |entries[k]|;
            && end <= |raw|
            && (end < |raw| ==> raw[..start] + raw[end + 1..] == Join(WithoutAt(entries, k), ','))
            && (end == |raw| ==> raw[..start] == Join(WithoutAt(entries, k), ','))
  {
    hide Join, Offset;
    if k + 1 < |entries| {
      SpliceMiddle(entries, k, raw, start);
    } else {
      SpliceLast(entries, k, raw, start);
    }
  }

  /** Cutting the last entry leaves an empty one in its place. */
  lemma SpliceLast(entries: seq<string>, k: nat, raw: string, start: nat)
    requires k + 1 == |entries| && raw == Join(entries, ',') && start == Offset(entries, k)
    ensures start + |entries[k]| == |raw|
    ensures raw[..start] == Join(entries[..k] + [""], ',')
  {
    OffsetSplits(entries, k);
    AfterEntry(entries, k);
    JoinBefore(entries, k, [""]);
    assert Before(entries, k) + "" == Before(entries, k);
  }
}
