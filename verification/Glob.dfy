/** Wildcard masks: the greedy chunk matcher of src/util.rs against the meaning of `*` and `?`. */
module Glob {

  /** The declarative meaning: `*` is any run of characters, `?` one character, others themselves. */
  predicate Matches(mask: string, s: string)
    decreases |mask|
  {
    if mask == "" then s == ""
    else if mask[0] == '*' then exists i :: 0 <= i <= |s| && Matches(mask[1..], s[i..])
    else s != "" && (mask[0] == '?' || mask[0] == s[0]) && Matches(mask[1..], s[1..])
  }

  /** What a star in front of the mask asks for: the mask matches some suffix. */
  predicate Somewhere(mask: string, s: string)
  {
    exists i :: 0 <= i <= |s| && Matches(mask, s[i..])
  }

  /** A star-free chunk matches a prefix of `s`, character by character. */
  predicate ChunkAt(chunk: string, s: string)
  {
    |chunk| <= |s| && forall k :: 0 <= k < |chunk| ==> chunk[k] == '?' || chunk[k] == s[k]
  }

  /** A star-free chunk consumes exactly its own length. */
  lemma {:induction false} ChunkThenRest(chunk: string, rest: string, s: string)
    requires '*' !in chunk
    ensures Matches(chunk + rest, s) <==> ChunkAt(chunk, s) && Matches(rest, s[|chunk|..])
  {
    if chunk == "" {
      assert chunk + rest == rest && s[0..] == s;
    } else {
      assert (chunk + rest)[1..] == chunk[1..] + rest;
      if s != "" {
        ChunkThenRest(chunk[1..], rest, s[1..]);
        assert ChunkAt(chunk, s) <==> (chunk[0] == '?' || chunk[0] == s[0]) && ChunkAt(chunk[1..], s[1..]) by {
          if ChunkAt(chunk, s) {
            forall k | 0 <= k < |chunk| - 1 ensures chunk[1..][k] == '?' || chunk[1..][k] == s[1..][k] {
              assert chunk[k + 1] == '?' || chunk[k + 1] == s[k + 1];
            }
          }
          if (chunk[0] == '?' || chunk[0] == s[0]) && ChunkAt(chunk[1..], s[1..]) {
            forall k | 0 <= k < |chunk| ensures chunk[k] == '?' || chunk[k] == s[k] {
              if k > 0 { assert chunk[1..][k - 1] == '?' || chunk[1..][k - 1] == s[1..][k - 1]; }
            }
          }
        }
        if |chunk| <= |s| { assert s[1..][|chunk| - 1..] == s[|chunk|..]; }
      }
    }
  }

  /** A mask with a leading star loses no match when more characters come first. */
  lemma StarAbsorbs(mask: string, s: string, i: nat, j: nat)
    requires mask != "" && mask[0] == '*'
    requires i <= j <= |s|
    requires Matches(mask, s[j..])
    ensures Matches(mask, s[i..])
  {
    var k :| 0 <= k <= |s[j..]| && Matches(mask[1..], s[j..][k..]);
    assert s[j..][k..] == s[i..][j - i + k..];
  }

  /** A run of stars means the same as one star. */
  lemma {:induction false} StarRun(stars: nat, mask: string, s: string)
    requires stars >= 1
    ensures Matches(seq(stars, _ => '*') + mask, s) <==> Somewhere(mask, s)
  {
    var run := seq(stars, _ => '*') + mask;
    if stars == 1 {
      assert run[1..] == mask;
    } else {
      assert run[1..] == seq(stars - 1, _ => '*') + mask;
      StarRun(stars - 1, mask, s);
      if Matches(run, s) {
        var i :| 0 <= i <= |s| && Matches(run[1..], s[i..]);
        StarRun(stars - 1, mask, s[i..]);
        var j :| 0 <= j <= |s[i..]| && Matches(mask, s[i..][j..]);
        assert s[i..][j..] == s[i + j..];
      }
      if i :| 0 <= i <= |s| && Matches(mask, s[i..]) {
        assert Matches(run[1..], s[0..]) by { assert s[0..] == s; }
      }
    }
  }

  /**
   * The greedy choice is safe: when the mask goes on with a star, the leftmost place where the
   * chunk matches decides the whole match.
   */
  lemma LeftmostSuffices(chunk: string, rest: string, s: string, i: nat)
    requires '*' !in chunk && rest != "" && rest[0] == '*'
    requires i <= |s| && ChunkAt(chunk, s[i..])
    requires forall j :: 0 <= j < i ==> !ChunkAt(chunk, s[j..])
    ensures Somewhere(chunk + rest, s) <==> Matches(rest, s[i + |chunk|..])
  {
    ChunkThenRest(chunk, rest, s[i..]);
    assert s[i..][|chunk|..] == s[i + |chunk|..];
    if j :| 0 <= j <= |s| && Matches(chunk + rest, s[j..]) {
      ChunkThenRest(chunk, rest, s[j..]);
      assert s[j..][|chunk|..] == s[j + |chunk|..];
      StarAbsorbs(rest, s, i + |chunk|, j + |chunk|);
    }
  }

  /** No place for the chunk, no match. */
  lemma NowhereFails(chunk: string, rest: string, s: string)
    requires '*' !in chunk
    requires forall j :: 0 <= j <= |s| ==> !(ChunkAt(chunk, s[j..]) && Matches(rest, s[j + |chunk|..]))
    ensures !Somewhere(chunk + rest, s)
  {
    forall j | 0 <= j <= |s| ensures !Matches(chunk + rest, s[j..]) {
      ChunkThenRest(chunk, rest, s[j..]);
      if ChunkAt(chunk, s[j..]) { assert s[j..][|chunk|..] == s[j + |chunk|..]; }
    }
  }

  /** Cuts the leading stars and the star-free chunk after them off the mask. */
  method ScanChunk(mask: string) returns (star: bool, chunk: string, rest: string, ghost stars: nat)
    ensures mask == seq(stars, _ => '*') + chunk + rest
    ensures star <==> stars >= 1
    ensures '*' !in chunk
    ensures rest == "" || rest[0] == '*'
    ensures chunk == "" ==> rest == ""
  {
    var i := 0;
    while i < |mask| && mask[i] == '*'
      invariant 0 <= i <= |mask|
      invariant forall k :: 0 <= k < i ==> mask[k] == '*'
    {
      i := i + 1;
    }
    stars := i;
    star := i > 0;
    var j := i;
    while j < |mask| && mask[j] != '*'
      invariant i <= j <= |mask|
      invariant forall k :: i <= k < j ==> mask[k] != '*'
    {
      j := j + 1;
    }
    chunk := mask[i..j];
    rest := mask[j..];
    assert mask == mask[..i] + mask[i..j] + mask[j..];
    assert mask[..i] == seq(i, _ => '*');
  }

  /** Consumes the chunk from the front of `s`. */
  method MatchChunk(chunk: string, s: string) returns (rest: string, ok: bool)
    ensures ok <==> ChunkAt(chunk, s)
    ensures ok ==> rest == s[|chunk|..]
  {
    var i := 0;
    while i < |chunk|
      invariant 0 <= i <= |chunk| && i <= |s|
      invariant forall k :: 0 <= k < i ==> chunk[k] == '?' || chunk[k] == s[k]
    {
      if i == |s| { return "", false; }
      if chunk[i] != '?' && chunk[i] != s[i] { return "", false; }
      i := i + 1;
    }
    return s[i..], true;
  }

  /** The place the inner loop looks for: the chunk fits, and ends the subject when the mask ends. */
  predicate Fits(chunk: string, rest: string, s: string, i: nat)
  {
    i <= |s| && ChunkAt(chunk, s[i..]) && (rest != "" || i + |chunk| == |s|)
  }

  /** Where the first fitting place is decides the match after a star. */
  lemma FirstFitDecides(chunk: string, rest: string, s: string, i: nat)
    requires '*' !in chunk && (rest == "" || rest[0] == '*')
    requires Fits(chunk, rest, s, i)
    requires forall j :: 0 <= j < i ==> !Fits(chunk, rest, s, j)
    ensures Somewhere(chunk + rest, s) <==> Matches(rest, s[i + |chunk|..])
  {
    if rest == "" {
      ChunkThenRest(chunk, rest, s[i..]);
      assert s[i..][|chunk|..] == s[i + |chunk|..] == "";
    } else {
      forall j | 0 <= j < i ensures !ChunkAt(chunk, s[j..]) { assert !Fits(chunk, rest, s, j); }
      LeftmostSuffices(chunk, rest, s, i);
    }
  }

  lemma NoFitFails(chunk: string, rest: string, s: string)
    requires '*' !in chunk && (rest == "" || rest[0] == '*')
    requires forall j :: 0 <= j <= |s| ==> !Fits(chunk, rest, s, j)
    ensures !Somewhere(chunk + rest, s)
  {
    forall j | 0 <= j <= |s|
      ensures !(ChunkAt(chunk, s[j..]) && Matches(rest, s[j + |chunk|..]))
    {
      assert !Fits(chunk, rest, s, j);
    }
    NowhereFails(chunk, rest, s);
  }

  lemma ChunkThere(chunk: string, rest: string, s: string, i: nat)
    requires i <= |s|
    ensures ChunkAt(chunk, s[i..]) ==> s[i..][|chunk|..] == s[i + |chunk|..]
    ensures Fits(chunk, rest, s, i) <==> ChunkAt(chunk, s[i..]) && (rest == "" ==> s[i..][|chunk|..] == "")
  {
  }

  /** Tries every later place in turn, as the restart loop after a star does. */
  method FindLater(chunk: string, rest: string, s: string) returns (tail: string, found: bool)
    requires '*' !in chunk && (rest == "" || rest[0] == '*')
    requires !Fits(chunk, rest, s, 0)
    ensures found ==> (Matches(rest, tail) <==> Somewhere(chunk + rest, s))
    ensures !found ==> !Somewhere(chunk + rest, s)
  {
    hide Fits, ChunkAt, Somewhere, Matches;
    var i := 0;
    while i < |s|
      invariant 0 <= i <= |s|
      invariant forall j :: 0 <= j <= i ==> !Fits(chunk, rest, s, j)
    {
      var after, ok := MatchChunk(chunk, s[i + 1..]);
      ChunkThere(chunk, rest, s, i + 1);
      if ok && !(rest == "" && after != "") {
        FirstFitDecides(chunk, rest, s, i + 1);
        return after, true;
      }
      i := i + 1;
    }
    NoFitFails(chunk, rest, s);
    return "", false;
  }

  /** The greedy matcher decides exactly the declarative meaning, for every mask and subject. */
  method MatchMask(mask0: string, s0: string) returns (r: bool)
    ensures r <==> Matches(mask0, s0)
  {
    var mask, s := mask0, s0;
    while mask != ""
      invariant Matches(mask0, s0) <==> Matches(mask, s)
      decreases |mask|
    {
      var star, chunk, rest, stars := ScanChunk(mask);
      assert mask == seq(stars, _ => '*') + (chunk + rest);
      if star { StarRun(stars, chunk + rest, s); }
      if star && chunk == "" {
        assert chunk + rest == "" && Matches("", s[|s|..]);
        return true;
      }
      assert s[0..] == s;
      var after, ok := MatchChunk(chunk, s);
      if ok && (after == "" || rest != "") {
        if star {
          assert Fits(chunk, rest, s, 0);
          FirstFitDecides(chunk, rest, s, 0);
        } else {
          assert mask == chunk + rest;
          ChunkThenRest(chunk, rest, s);
        }
        mask, s := rest, after;
      } else if star {
        assert !Fits(chunk, rest, s, 0);
        var tail, found := FindLater(chunk, rest, s);
        if !found { return false; }
        mask, s := rest, tail;
      } else {
        assert mask == chunk + rest;
        ChunkThenRest(chunk, rest, s);
        return false;
      }
    }
    return s == "";
  }
}
