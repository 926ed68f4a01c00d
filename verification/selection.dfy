/**
 * Target selection: the scan over one guild's voice channels that keeps the
 * most populated channel seen so far, skipping the guild's AFK channel.
 */
module Selection {
  import opened Wrappers

  type ChannelId = nat

  /** A voice channel as the scan sees it: its identity and how many members are in it. */
  datatype Channel = Channel(id: ChannelId, members: nat)

  /** The scan considers every channel except the guild's AFK channel, recognised by identity. */
  predicate Eligible(c: Channel, afk: Option<ChannelId>)
  {
    afk != Some(c.id)
  }

  /** The scan's two running variables: the channel chosen so far and its member count. */
  datatype Best = Best(target: Option<Channel>, maxMembers: nat)

  /**
   * The state of the scan after visiting `chans` in order, starting from no
   * target and a maximum of 0; a channel replaces the current choice only when
   * it has strictly more members.
   */
  function Scan(chans: seq<Channel>, afk: Option<ChannelId>): (b: Best)
    ensures b.target.None? <==> b.maxMembers == 0
    ensures b.target.Some? ==> b.target.value.members == b.maxMembers
    decreases |chans|
  {
    if chans == [] then Best(None, 0)
    else
      var prev := Scan(chans[..|chans| - 1], afk);
      var c := chans[|chans| - 1];
      if Eligible(c, afk) && c.members > prev.maxMembers then Best(Some(c), c.members) else prev
  }

  /** The scan loop itself, replayed one channel at a time. */
  method SelectTarget(chans: seq<Channel>, afk: Option<ChannelId>) returns (target: Option<Channel>, maxMembers: nat)
    ensures Best(target, maxMembers) == Scan(chans, afk)
    ensures target.Some? ==> target.value in chans && Eligible(target.value, afk) && target.value.members == maxMembers
    ensures target.None? <==> maxMembers == 0
    ensures forall i :: 0 <= i < |chans| && Eligible(chans[i], afk) ==> chans[i].members <= maxMembers
  {
    target, maxMembers := None, 0;
    for i := 0 to |chans|
      invariant Best(target, maxMembers) == Scan(chans[..i], afk)
    {
      var channel := chans[i];
      assert chans[..i + 1][..i] == chans[..i];
      if Eligible(channel, afk) && channel.members > maxMembers {
        maxMembers := channel.members;
        target := Some(channel);
      }
    }
    assert chans[..|chans|] == chans;
    ScanTargetIsEligibleMember(chans, afk);
    ScanIsMaximum(chans, afk);
  }

  /** The chosen channel is one of the guild's channels and never its AFK channel. */
  lemma {:induction false} ScanTargetIsEligibleMember(chans: seq<Channel>, afk: Option<ChannelId>)
    ensures var t := Scan(chans, afk).target;
            t.Some? ==> t.value in chans && Eligible(t.value, afk)
    decreases |chans|
  {
    if chans != [] {
      var prefix := chans[..|chans| - 1];
      ScanTargetIsEligibleMember(prefix, afk);
      assert chans == prefix + [chans[|chans| - 1]];
    }
  }

  /** No eligible channel has more members than the recorded maximum. */
  lemma {:induction false} ScanIsMaximum(chans: seq<Channel>, afk: Option<ChannelId>)
    ensures forall i :: 0 <= i < |chans| && Eligible(chans[i], afk) ==> chans[i].members <= Scan(chans, afk).maxMembers
    decreases |chans|
  {
    if chans != [] {
      var n := |chans| - 1;
      ScanIsMaximum(chans[..n], afk);
      assert forall i :: 0 <= i < n ==> chans[..n][i] == chans[i];
    }
  }

  /** There is no target exactly when every eligible channel is empty (including when there are none). */
  lemma NoTargetIffAllEmpty(chans: seq<Channel>, afk: Option<ChannelId>)
    ensures Scan(chans, afk).target.None? <==>
            forall i :: 0 <= i < |chans| && Eligible(chans[i], afk) ==> chans[i].members == 0
  {
    ScanIsMaximum(chans, afk);
    ScanTargetIsEligibleMember(chans, afk);
    var t := Scan(chans, afk).target;
    if t.Some? {
      var k :| 0 <= k < |chans| && chans[k] == t.value;
      assert Eligible(chans[k], afk) && chans[k].members > 0;
    }
  }

  /**
   * Channel `k` is the first eligible channel holding the largest eligible
   * member count, and that count is not zero.
   */
  ghost predicate IsFirstMax(chans: seq<Channel>, afk: Option<ChannelId>, k: int)
  {
    0 <= k < |chans| && Eligible(chans[k], afk) && chans[k].members > 0 &&
    (forall j :: 0 <= j < |chans| && Eligible(chans[j], afk) ==> chans[j].members <= chans[k].members) &&
    (forall j :: 0 <= j < k && Eligible(chans[j], afk) ==> chans[j].members < chans[k].members)
  }

  /** Tie-break: the first channel at the maximum is the one the scan chooses. */
  lemma {:induction false} FirstMaxIsSelected(chans: seq<Channel>, afk: Option<ChannelId>, k: nat)
    requires IsFirstMax(chans, afk, k)
    ensures Scan(chans, afk) == Best(Some(chans[k]), chans[k].members)
    decreases |chans|
  {
    var n := |chans| - 1;
    var prefix := chans[..n];
    assert forall j :: 0 <= j < n ==> prefix[j] == chans[j];
    if k == n {
      ScanTargetIsEligibleMember(prefix, afk);
      var prev := Scan(prefix, afk);
      if prev.target.Some? {
        var j :| 0 <= j < n && prefix[j] == prev.target.value;
        assert prev.maxMembers < chans[k].members;
      }
    } else {
      assert IsFirstMax(prefix, afk, k);
      FirstMaxIsSelected(prefix, afk, k);
    }
  }

  /** Conversely, whatever the scan chooses is the first channel at the maximum. */
  lemma {:induction false} SelectedIsFirstMax(chans: seq<Channel>, afk: Option<ChannelId>) returns (k: nat)
    requires Scan(chans, afk).target.Some?
    ensures IsFirstMax(chans, afk, k) && Scan(chans, afk).target == Some(chans[k])
    decreases |chans|
  {
    var n := |chans| - 1;
    var prefix := chans[..n];
    assert forall j :: 0 <= j < n ==> prefix[j] == chans[j];
    var prev := Scan(prefix, afk);
    var c := chans[n];
    if Eligible(c, afk) && c.members > prev.maxMembers {
      ScanIsMaximum(prefix, afk);
      k := n;
    } else {
      k := SelectedIsFirstMax(prefix, afk);
    }
  }

  /** Channel `m` is in the list, eligible, not empty, and every other eligible channel has fewer members. */
  ghost predicate UniqueMax(chans: seq<Channel>, afk: Option<ChannelId>, m: Channel)
  {
    m in chans && Eligible(m, afk) && m.members > 0 &&
    forall c :: c in chans && Eligible(c, afk) && c != m ==> c.members < m.members
  }

  /** A channel with strictly more members than every other eligible channel is chosen. */
  lemma {:induction false} UniqueMaxIsSelected(chans: seq<Channel>, afk: Option<ChannelId>, m: Channel)
    requires UniqueMax(chans, afk, m)
    ensures Scan(chans, afk) == Best(Some(m), m.members)
    decreases |chans|
  {
    var n := |chans| - 1;
    var prefix := chans[..n];
    assert chans == prefix + [chans[n]];
    var prev := Scan(prefix, afk);
    if m in prefix {
      assert UniqueMax(prefix, afk, m);
      UniqueMaxIsSelected(prefix, afk, m);
    } else {
      ScanTargetIsEligibleMember(prefix, afk);
      assert chans[n] == m;
      assert prev.maxMembers < m.members;
    }
  }

  /** When the maximum is unique, listing the same channels in another order chooses the same channel. */
  lemma UniqueMaxOrderIndependent(chans: seq<Channel>, reordered: seq<Channel>, afk: Option<ChannelId>, m: Channel)
    requires UniqueMax(chans, afk, m)
    requires multiset(chans) == multiset(reordered)
    ensures Scan(reordered, afk).target == Scan(chans, afk).target == Some(m)
  {
    assert forall c :: c in chans <==> c in reordered by {
      forall c ensures c in chans <==> c in reordered {
        assert c in chans <==> c in multiset(chans);
        assert c in reordered <==> c in multiset(reordered);
      }
    }
    UniqueMaxIsSelected(chans, afk, m);
    UniqueMaxIsSelected(reordered, afk, m);
  }
  /**
   * Raising by one the count of every entry that shares the chosen channel's
   * identity, while no other count rises, keeps that channel chosen.
   */
  lemma ChoiceSurvivesBoost(chans: seq<Channel>, boosted: seq<Channel>, afk: Option<ChannelId>)
    requires Scan(chans, afk).target.Some?
    requires |boosted| == |chans|
    requires forall i :: 0 <= i < |chans| ==> boosted[i].id == chans[i].id
    requires forall i :: 0 <= i < |chans| ==>
               if chans[i].id == Scan(chans, afk).target.value.id then boosted[i].members == chans[i].members + 1
               else boosted[i].members <= chans[i].members
    ensures Scan(boosted, afk).target.Some?
    ensures Scan(boosted, afk).target.value.id == Scan(chans, afk).target.value.id
  {
    var k := SelectedIsFirstMax(chans, afk);
    ScanIsMaximum(chans, afk);
    ScanIsMaximum(boosted, afk);
    assert Eligible(boosted[k], afk);
    assert Scan(boosted, afk).maxMembers > 0;
    var k' := SelectedIsFirstMax(boosted, afk);
    assert Eligible(chans[k'], afk);
  }

  /** When nothing is chosen, lowering any counts still chooses nothing. */
  lemma NoChoiceSurvivesDrop(chans: seq<Channel>, lowered: seq<Channel>, afk: Option<ChannelId>)
    requires Scan(chans, afk).target.None?
    requires |lowered| == |chans|
    requires forall i :: 0 <= i < |chans| ==> lowered[i].id == chans[i].id && lowered[i].members <= chans[i].members
    ensures Scan(lowered, afk).target.None?
  {
    NoTargetIffAllEmpty(chans, afk);
    NoTargetIffAllEmpty(lowered, afk);
  }
}
