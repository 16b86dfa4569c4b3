/** BindingPolicy names: the StagedBindingPolicy name, ".stage." and the stage name. Handlers
    recover the StagedBindingPolicy from such a name by splitting on ".stage.". */
module Names {
  import opened Api

  const STAGE_INFIX: string := ".stage."

  predicate OccursAt(s: string, sep: string, i: nat) {
    i + |sep| <= |s| && s[i..i + |sep|] == sep
  }

  predicate Contains(s: string, sep: string) {
    exists i: nat | i <= |s| :: OccursAt(s, sep, i)
  }

  predicate EndsWith(s: string, suffix: string) {
    |suffix| <= |s| && s[|s| - |suffix|..] == suffix
  }

  function BpName(sbp: string, stage: string): string {
    sbp + STAGE_INFIX + stage
  }

  /** The leftmost occurrence of sep in s at or after `from`. */
  function Index(s: string, sep: string, from: nat): (r: Option<nat>)
    requires from <= |s|
    ensures r.Some? ==> from <= r.value && OccursAt(s, sep, r.value)
    ensures r.Some? ==> forall j: nat | from <= j < r.value :: !OccursAt(s, sep, j)
    ensures r.None? ==> forall j: nat | from <= j :: !OccursAt(s, sep, j)
    decreases |s| - from
  {
    if from + |sep| > |s| then None
    else if OccursAt(s, sep, from) then Some(from)
    else Index(s, sep, from + 1)
  }

  /** The pieces of s between leftmost, non-overlapping occurrences of ".stage.". */
  function Split(s: string): (pieces: seq<string>)
    ensures |pieces| >= 1
  {
    match Index(s, STAGE_INFIX, 0)
    case None => [s]
    case Some(i) => [s[..i]] + Split(s[i + |STAGE_INFIX|..])
  }

  function Join(pieces: seq<string>): string {
    if |pieces| == 0 then ""
    else if |pieces| == 1 then pieces[0]
    else pieces[0] + STAGE_INFIX + Join(pieces[1..])
  }

  /** The splitting loop: cut at the next separator until none is left. */
  method SplitLoop(s: string) returns (pieces: seq<string>)
    ensures pieces == Split(s)
  {
    pieces := [];
    var rest := s;
    var m := Index(rest, STAGE_INFIX, 0);
    while m.Some?
      invariant m == Index(rest, STAGE_INFIX, 0)
      invariant pieces + Split(rest) == Split(s)
      decreases |rest|
    {
      assert pieces + Split(rest) == (pieces + [rest[..m.value]]) + Split(rest[m.value + |STAGE_INFIX|..]);
      pieces := pieces + [rest[..m.value]];
      rest := rest[m.value + |STAGE_INFIX|..];
      m := Index(rest, STAGE_INFIX, 0);
    }
    pieces := pieces + [rest];
  }

  /** A piece that can stand before ".stage." and be recovered by splitting. */
  predicate GoodHead(n: string) {
    !Contains(n, STAGE_INFIX) && !EndsWith(n, ".stage")
  }

  predicate WellNamed(sbp: string, stage: string) {
    GoodHead(sbp) && !Contains(stage, STAGE_INFIX)
  }

  /** The separator overlaps itself in one character only, so an occurrence that starts
      inside n either lies in n or starts where a trailing ".stage" does. */
  lemma FirstOccurrence(n: string, t: string)
    ensures GoodHead(n) <==> Index(n + STAGE_INFIX + t, STAGE_INFIX, 0) == Some(|n|)
  {
    var s := n + STAGE_INFIX + t;
    assert s[|n|..|n| + 7] == STAGE_INFIX;
    assert OccursAt(s, STAGE_INFIX, |n|);
    forall p: nat | p < |n|
      ensures OccursAt(s, STAGE_INFIX, p) <==> OccursAt(n, STAGE_INFIX, p) || (p + 6 == |n| && EndsWith(n, ".stage"))
    {
      if p + 7 <= |n| {
        assert s[p..p + 7] == n[p..p + 7];
      } else if p + 6 == |n| {
        assert s[p..p + 7] == n[p..] + ['.'];
        assert STAGE_INFIX == ".stage" + ['.'];
        if OccursAt(s, STAGE_INFIX, p) {
          assert n[p..] == s[p..p + 7][..6] == ".stage";
        }
      } else {
        assert s[|n|] == '.';
        assert s[p..p + 7][|n| - p] == '.';
        assert 0 < |n| - p < 6;
      }
    }
    if EndsWith(n, ".stage") {
      assert OccursAt(s, STAGE_INFIX, |n| - 6);
    }
    if Contains(n, STAGE_INFIX) {
      var p: nat :| p <= |n| && OccursAt(n, STAGE_INFIX, p);
      assert OccursAt(s, STAGE_INFIX, p);
    }
  }

  /** Cutting at the first separator loses nothing and leaves a piece without separators. */
  lemma CutHead(s: string, i: nat)
    requires Index(s, STAGE_INFIX, 0) == Some(i)
    ensures s == s[..i] + STAGE_INFIX + s[i + |STAGE_INFIX|..]
    ensures !Contains(s[..i], STAGE_INFIX)
  {
    forall p: nat | p <= i
      ensures !OccursAt(s[..i], STAGE_INFIX, p)
    {
      if OccursAt(s[..i], STAGE_INFIX, p) {
        assert s[p..p + 7] == s[..i][p..p + 7];
        assert OccursAt(s, STAGE_INFIX, p);
      }
    }
  }

  /** Joining undoes splitting on every string, and no piece contains the separator. */
  lemma {:induction false} JoinSplit(s: string)
    ensures Join(Split(s)) == s
    ensures forall piece | piece in Split(s) :: !Contains(piece, STAGE_INFIX)
    decreases |s|
  {
    match Index(s, STAGE_INFIX, 0)
    case None =>
    case Some(i) =>
      CutHead(s, i);
      var rest := Split(s[i + |STAGE_INFIX|..]);
      JoinSplit(s[i + |STAGE_INFIX|..]);
      assert Split(s) == [s[..i]] + rest;
      assert Split(s)[1..] == rest;
  }

  /** The first piece ends where the first separator starts. */
  lemma HeadLength(s: string)
    ensures Index(s, STAGE_INFIX, 0) == (if |Split(s)| == 1 then None else Some(|Split(s)[0]|))
  {
  }

  /** Splitting n + ".stage." + t cuts off n first exactly when n is a good head. */
  lemma SplitHead(n: string, t: string)
    ensures GoodHead(n) ==> Split(n + STAGE_INFIX + t) == [n] + Split(t)
    ensures !GoodHead(n) ==> Split(n + STAGE_INFIX + t)[0] != n
  {
    var s := n + STAGE_INFIX + t;
    FirstOccurrence(n, t);
    if GoodHead(n) {
      assert s[..|n|] == n && s[|n| + 7..] == t;
    } else {
      HeadLength(s);
      assert |s| > |n|;
    }
  }

  predicate Recoverable(ps: seq<string>)
    requires |ps| >= 1
  {
    if |ps| == 1 then !Contains(ps[0], STAGE_INFIX) else GoodHead(ps[0]) && Recoverable(ps[1..])
  }

  /** Splitting undoes joining exactly for pieces without the separator whose non-final
      members do not end in ".stage". */
  lemma {:induction false} SplitJoin(ps: seq<string>)
    requires |ps| >= 1
    ensures Split(Join(ps)) == ps <==> Recoverable(ps)
  {
    if |ps| == 1 {
      if Split(ps[0]) == ps {
        JoinSplit(ps[0]);
        assert ps[0] in Split(ps[0]);
      }
    } else {
      SplitHead(ps[0], Join(ps[1..]));
      SplitJoin(ps[1..]);
      assert ps == [ps[0]] + ps[1..];
      if GoodHead(ps[0]) && Split(Join(ps)) == ps {
        assert Split(Join(ps))[1..] == Split(Join(ps[1..]));
      }
    }
  }

  /** The name round trip, exactly: a BindingPolicy name gives its two parts back if and only
      if neither part contains the separator and the first does not end in ".stage". */
  lemma NameRoundTrip(n: string, s: string)
    ensures Split(BpName(n, s)) == [n, s]
       <==> !Contains(n, STAGE_INFIX) && !Contains(s, STAGE_INFIX) && !EndsWith(n, ".stage")
  {
    SplitJoin([n, s]);
    assert [n, s][1..] == [s];
    assert Join([n, s]) == BpName(n, s);
  }

  /** On recoverable names, no two (StagedBindingPolicy, stage) pairs share a BindingPolicy name. */
  lemma NameInjective(n: string, s: string, n': string, s': string)
    requires WellNamed(n, s) && WellNamed(n', s')
    requires BpName(n, s) == BpName(n', s')
    ensures n == n' && s == s'
  {
    NameRoundTrip(n, s);
    NameRoundTrip(n', s');
    assert [n, s][0] == [n', s'][0] && [n, s][1] == [n', s'][1];
  }

  /** For one StagedBindingPolicy, stage names alone decide, however badly it is named. */
  lemma StageInjective(n: string, s: string, s': string)
    requires BpName(n, s) == BpName(n, s')
    ensures s == s'
  {
    assert s == BpName(n, s)[|n| + 7..] && s' == BpName(n, s')[|n| + 7..];
  }

  /** Without the condition names do collide: a stage of one StagedBindingPolicy and a stage of
      another can want the same BindingPolicy. */
  lemma NamesCollide(a: string, b: string, c: string)
    ensures BpName(a, b + STAGE_INFIX + c) == BpName(a + STAGE_INFIX + b, c)
  {
  }

  /** And a StagedBindingPolicy whose name ends in ".stage" is taken for another one: its
      BindingPolicies are attributed to the part in front. */
  lemma TrailingStageMisattributed(n: string, s: string)
    requires WellNamed(n, "stage." + s)
    ensures Split(BpName(n + ".stage", s)) == [n, "stage." + s]
  {
    assert ".stage" + STAGE_INFIX == STAGE_INFIX + "stage.";
    assert BpName(n + ".stage", s) == n + (".stage" + STAGE_INFIX) + s;
    assert BpName(n, "stage." + s) == n + (STAGE_INFIX + "stage.") + s;
    NameRoundTrip(n, "stage." + s);
  }

  /** The StagedBindingPolicy a BindingPolicy name is attributed to, if any. */
  function OwnerOf(bpName: string): Option<string> {
    var pieces := Split(bpName);
    if |pieces| == 2 then Some(pieces[0]) else None
  }

  /** A name is attributed to n exactly if it is n + ".stage." + s for parts without the separator,
      the first not ending in ".stage". */
  lemma OwnerExactly(bpName: string, n: string)
    ensures OwnerOf(bpName) == Some(n) <==>
      exists s :: bpName == n + ".stage." + s
        && !Contains(n, ".stage.") && !Contains(s, ".stage.") && !EndsWith(n, ".stage")
  {
    var pieces := Split(bpName);
    if OwnerOf(bpName) == Some(n) {
      JoinSplit(bpName);
      assert pieces == [n, pieces[1]] && pieces[1..] == [pieces[1]];
      NameRoundTrip(n, pieces[1]);
    }
    if s :| bpName == n + ".stage." + s && !Contains(n, ".stage.") && !Contains(s, ".stage.") && !EndsWith(n, ".stage") {
      NameRoundTrip(n, s);
    }
  }

  /** Whatever stands in front, the separators of the second part are found after the first cut. */
  lemma CutBefore(n: string, s: string)
    requires Contains(s, STAGE_INFIX)
    ensures var cut := Index(BpName(n, s), STAGE_INFIX, 0);
      cut.Some? && Contains(BpName(n, s)[cut.value + |STAGE_INFIX|..], STAGE_INFIX)
  {
    var name := BpName(n, s);
    assert OccursAt(name, STAGE_INFIX, |n|) by { assert name[|n|..|n| + 7] == STAGE_INFIX; }
    var cut := Index(name, STAGE_INFIX, 0);
    var i: nat :| i <= |s| && OccursAt(s, STAGE_INFIX, i);
    OccursBehind(name, s, |n| + 7, i, cut.value + 7);
  }

  lemma OccursBehind(name: string, s: string, at: nat, i: nat, cut: nat)
    requires cut <= at <= |name| && name[at..] == s && OccursAt(s, STAGE_INFIX, i)
    ensures Contains(name[cut..], STAGE_INFIX)
  {
    assert name[cut..][at - cut + i..at - cut + i + 7] == s[i..i + 7];
    assert OccursAt(name[cut..], STAGE_INFIX, at - cut + i);
  }

  /** A BindingPolicy name whose stage part contains the separator is attributed to nobody. */
  lemma TwiceSeparated(n: string, s: string)
    requires Contains(s, STAGE_INFIX)
    ensures OwnerOf(BpName(n, s)) == None
  {
    hide Contains;
    CutBefore(n, s);
    var name := BpName(n, s);
    var rest := name[Index(name, STAGE_INFIX, 0).value + 7..];
    SplitsAgain(rest);
    assert Split(name) == [name[..Index(name, STAGE_INFIX, 0).value]] + Split(rest);
  }

  lemma SplitsAgain(s: string)
    requires Contains(s, STAGE_INFIX)
    ensures |Split(s)| >= 2
  {
    HeadLength(s);
  }
}
