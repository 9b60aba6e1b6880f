/**
 * The server-group registry `SERVER_GROUP_LIST` and `_find_server_group`
 * (anti_affinity.py:48, 323-348).
 *
 * The registry is an append-only list of generations ("epochs"). An epoch
 * maps every catalog region to its anti-affinity group and a flag telling
 * whether that group is full. A new epoch is built only when the list is
 * empty or every flag of the last epoch is set; all its groups share one
 * fresh name `"AF-" + uuid4()`, and each gets a fresh id from the provider.
 */
module Registry {
  import opened Cloud
  import opened Regions

  const GROUP_PREFIX: string := "AF-"

  /** `{"group": group, "is_full": flag}` */
  datatype GroupEntry = GroupEntry(group: Group, isFull: bool)

  type Epoch = map<string, GroupEntry>

  lemma RegionsDistinct()
    ensures forall i, j :: 0 <= i < j < |REGIONS| ==> REGIONS[i] != REGIONS[j]
  {
    assert REGIONS[0][3] != REGIONS[1][3];
    assert REGIONS[0][2] != REGIONS[2][2];
    assert REGIONS[1][2] != REGIONS[2][2];
  }

  /**
   * The groups of an epoch under construction after its first k regions:
   * the name carries token `token`, the group of the i-th region id
   * `token + 1 + i`.
   */
  function PartialEpoch(token: nat, k: nat): Epoch
    requires k <= |REGIONS|
  {
    if k == 0 then map[]
    else PartialEpoch(token, k - 1)[REGIONS[k - 1] := GroupEntry(Group(token + k, Name(GROUP_PREFIX, token)), false)]
  }

  /** The epoch built when the next token is `token`. */
  function FreshEpoch(token: nat): Epoch {
    PartialEpoch(token, |REGIONS|)
  }

  /** The provider calls that build the first k groups of an epoch. */
  function EpochEvents(token: nat, k: nat): seq<Event>
    requires k <= |REGIONS|
  {
    if k == 0 then []
    else EpochEvents(token, k - 1) + [
      ClientSwitched(REGIONS[k - 1]),
      GroupsPurged(REGIONS[k - 1]),
      GroupCreated(REGIONS[k - 1], Group(token + k, Name(GROUP_PREFIX, token)))]
  }

  /**
   * The catalog position of the first region, from position k on, whose
   * calls do not all succeed while an epoch is built; `|REGIONS|` if there
   * is none.
   */
  function FirstRefusal(provider: string -> GroupStep, k: nat): (n: nat)
    requires k <= |REGIONS|
    ensures k <= n <= |REGIONS|
    ensures n < |REGIONS| ==> provider(REGIONS[n]) != GroupsOk
    ensures forall j :: k <= j < n ==> provider(REGIONS[j]) == GroupsOk
    decreases |REGIONS| - k
  {
    if k == |REGIONS| then k
    else if provider(REGIONS[k]) != GroupsOk then k
    else FirstRefusal(provider, k + 1)
  }

  /** Building an epoch raises: some region's calls fail. */
  predicate BuildFails(provider: string -> GroupStep) {
    FirstRefusal(provider, 0) < |REGIONS|
  }

  /** The calls that take effect in the region whose calls fail, before the exception. */
  function RefusalEvents(region: string, step: GroupStep): seq<Event> {
    match step
    case GroupsOk => []
    case SwitchRaises => []
    case ListRaises => [ClientSwitched(region)]
    case GroupCreateRaises => [ClientSwitched(region), GroupsPurged(region)]
  }

  /**
   * The provider calls of an epoch build: all calls for every region before
   * the first that fails, then that region's calls up to the exception.
   */
  function BuildEvents(token: nat, provider: string -> GroupStep): seq<Event> {
    var n := FirstRefusal(provider, 0);
    EpochEvents(token, n) + if n < |REGIONS| then RefusalEvents(REGIONS[n], provider(REGIONS[n])) else []
  }

  /** Building an epoch, in whole or in part, neither boots nor deletes a server. */
  lemma {:induction false} BuildTouchesNoServer(token: nat, provider: string -> GroupStep)
    ensures forall e :: e in BuildEvents(token, provider) ==> !e.ServerBooted? && !e.ServerDeleted?
  {
    var n := FirstRefusal(provider, 0);
    EpochTouchesNoServer(token, n);
  }

  lemma {:induction false} EpochTouchesNoServer(token: nat, k: nat)
    requires k <= |REGIONS|
    ensures forall e :: e in EpochEvents(token, k) ==> !e.ServerBooted? && !e.ServerDeleted?
  {
    if k > 0 {
      EpochTouchesNoServer(token, k - 1);
    }
  }

  /** A build fails exactly when some region's calls fail; otherwise it makes every region's calls. */
  lemma BuildFailsIff(token: nat, provider: string -> GroupStep)
    ensures BuildFails(provider) <==> exists i :: 0 <= i < |REGIONS| && provider(REGIONS[i]) != GroupsOk
    ensures !BuildFails(provider) ==> BuildEvents(token, provider) == EpochEvents(token, |REGIONS|)
  {
    if !BuildFails(provider) {
      assert forall i :: 0 <= i < |REGIONS| ==> provider(REGIONS[i]) == GroupsOk;
    }
  }

  predicate Exhausted(e: Epoch) {
    forall r :: r in e ==> e[r].isFull
  }

  /** `len(SERVER_GROUP_LIST) == 0 or all(... is_full ...)` */
  predicate NeedsEpoch(epochs: seq<Epoch>) {
    |epochs| == 0 || Exhausted(epochs[|epochs| - 1])
  }

  /** The list after a successful lookup, `token` being the next fresh token. */
  function Refreshed(epochs: seq<Epoch>, token: nat): seq<Epoch> {
    if NeedsEpoch(epochs) then epochs + [FreshEpoch(token)] else epochs
  }

  /** The list after `SERVER_GROUP_LIST[-1][region]["is_full"] = True`. */
  function MarkedFull(epochs: seq<Epoch>, region: string): seq<Epoch>
    requires |epochs| > 0 && region in epochs[|epochs| - 1]
  {
    var last := epochs[|epochs| - 1];
    epochs[|epochs| - 1 := last[region := GroupEntry(last[region].group, true)]]
  }

  /** One group per catalog region, all under the "AF-" name of the first one, each with its own id. */
  ghost predicate WellFormed(e: Epoch) {
    && e.Keys == RegionSet()
    && REGIONS[0] in e
    && e[REGIONS[0]].group.name.prefix == GROUP_PREFIX
    && (forall r :: r in e ==> e[r].group.name == e[REGIONS[0]].group.name)
    && (forall r, r' :: r in e && r' in e && r != r' ==> e[r].group.id != e[r'].group.id)
  }

  /** Every region of `e` other than `region` is full. */
  ghost predicate FullExcept(e: Epoch, region: string) {
    forall r :: r in e && r != region ==> e[r].isFull
  }

  ghost predicate TokensBelow(e: Epoch, bound: nat) {
    forall r :: r in e ==> e[r].group.name.token < bound && e[r].group.id < bound
  }

  /** Every epoch is well formed and holds only tokens already drawn. */
  ghost predicate Valid(epochs: seq<Epoch>, bound: nat) {
    forall k :: 0 <= k < |epochs| ==> WellFormed(epochs[k]) && TokensBelow(epochs[k], bound)
  }

  /** The group of `region` keeps its identity and its flag is only ever raised. */
  ghost predicate Grows(e: Epoch, f: Epoch) {
    && e.Keys == f.Keys
    && forall r :: r in e ==> f[r].group == e[r].group && (e[r].isFull ==> f[r].isFull)
  }

  /**
   * `b` is a later state of the list `a`: epochs are only appended, earlier
   * epochs never change, and in the epoch that was last only flags are set.
   */
  ghost predicate Extends(a: seq<Epoch>, b: seq<Epoch>) {
    && |a| <= |b|
    && (forall k :: 0 <= k < |a| - 1 ==> b[k] == a[k])
    && (|a| > 0 ==> Grows(a[|a| - 1], b[|a| - 1]))
  }

  lemma {:induction false} PartialEpochShape(token: nat, k: nat)
    requires k <= |REGIONS|
    ensures PartialEpoch(token, k).Keys == set i | 0 <= i < k :: REGIONS[i]
    ensures forall i :: 0 <= i < k ==>
      PartialEpoch(token, k)[REGIONS[i]] == GroupEntry(Group(token + 1 + i, Name(GROUP_PREFIX, token)), false)
  {
    RegionsDistinct();
    if k > 0 {
      PartialEpochShape(token, k - 1);
      var e := PartialEpoch(token, k);
      assert e.Keys == (set i | 0 <= i < k - 1 :: REGIONS[i]) + {REGIONS[k - 1]};
    }
  }

  /**
   * A new epoch holds one group per catalog region, none of them full, all
   * named `"AF-"` plus the token drawn first, with distinct ids drawn after it.
   */
  lemma FreshEpochShape(token: nat)
    ensures WellFormed(FreshEpoch(token))
    ensures forall r :: r in FreshEpoch(token) ==>
      && !FreshEpoch(token)[r].isFull
      && FreshEpoch(token)[r].group.name == Name(GROUP_PREFIX, token)
      && token < FreshEpoch(token)[r].group.id <= token + |REGIONS|
    ensures !Exhausted(FreshEpoch(token))
  {
    var e := FreshEpoch(token);
    PartialEpochShape(token, |REGIONS|);
    assert e.Keys == RegionSet() by {
      forall r | r in RegionSet() ensures r in e {
        var i :| 0 <= i < |REGIONS| && REGIONS[i] == r;
      }
    }
    forall r, r' | r in e && r' in e && r != r'
      ensures e[r].group.id != e[r'].group.id
    {
      var i :| 0 <= i < |REGIONS| && REGIONS[i] == r;
      var j :| 0 <= j < |REGIONS| && REGIONS[j] == r';
    }
    assert REGIONS[0] in e;
  }

  /** A catalog region's group in a new epoch exists and is not full. */
  lemma FreshEntry(token: nat, region: string)
    requires region in REGIONS
    ensures region in FreshEpoch(token) && !FreshEpoch(token)[region].isFull
  {
    FreshEpochShape(token);
    assert region in RegionSet();
  }

  /** Appending the epoch built from `token` keeps the list valid. */
  lemma AppendFreshValid(epochs: seq<Epoch>, token: nat)
    requires Valid(epochs, token)
    ensures Valid(epochs + [FreshEpoch(token)], token + 1 + |REGIONS|)
  {
    FreshEpochShape(token);
  }

  /** The new state's tokens stay below any larger bound. */
  lemma ValidUpTo(epochs: seq<Epoch>, bound: nat, bound': nat)
    requires Valid(epochs, bound) && bound <= bound'
    ensures Valid(epochs, bound')
  {
  }

  /**
   * A lookup appends an epoch exactly when the list is empty or its last
   * epoch is exhausted; the epoch appended is unexhausted, and its name and
   * ids were never used by an earlier epoch.
   */
  lemma RefreshedSpec(epochs: seq<Epoch>, token: nat)
    requires Valid(epochs, token)
    ensures |Refreshed(epochs, token)| == |epochs| + (if NeedsEpoch(epochs) then 1 else 0)
    ensures Valid(Refreshed(epochs, token), token + 1 + |REGIONS|)
    ensures Extends(epochs, Refreshed(epochs, token))
    ensures !NeedsEpoch(Refreshed(epochs, token))
  {
    FreshEpochShape(token);
    if !NeedsEpoch(epochs) {
      assert |epochs| > 0;
      var last := epochs[|epochs| - 1];
      assert Grows(last, last);
    } else {
      ValidUpTo(epochs, token, token + 1 + |REGIONS|);
    }
  }

  /** The groups of a new epoch share neither name nor id with any group built before. */
  lemma RefreshedFresh(epochs: seq<Epoch>, token: nat)
    requires Valid(epochs, token)
    ensures NeedsEpoch(epochs) ==>
      forall k, r, r' :: 0 <= k < |epochs| && r in epochs[k] && r' in FreshEpoch(token) ==>
        epochs[k][r].group.name != FreshEpoch(token)[r'].group.name
        && epochs[k][r].group.id != FreshEpoch(token)[r'].group.id
  {
    FreshEpochShape(token);
  }

  /** Idempotence: a second lookup right after a successful one changes nothing. */
  lemma LookupIdempotent(epochs: seq<Epoch>, token: nat, token': nat)
    requires Valid(epochs, token)
    ensures Refreshed(Refreshed(epochs, token), token') == Refreshed(epochs, token)
  {
    RefreshedSpec(epochs, token);
  }

  /**
   * Marking a region full raises exactly that flag of the last epoch and
   * changes nothing else.
   */
  lemma MarkedFullSpec(epochs: seq<Epoch>, region: string)
    requires |epochs| > 0 && region in epochs[|epochs| - 1]
    ensures Extends(epochs, MarkedFull(epochs, region))
    ensures |MarkedFull(epochs, region)| == |epochs|
    ensures var e := MarkedFull(epochs, region)[|epochs| - 1];
      && e[region].isFull
      && forall r :: r in e && r != region ==> e[r] == epochs[|epochs| - 1][r]
  {
    var last := epochs[|epochs| - 1];
    var e := MarkedFull(epochs, region)[|epochs| - 1];
    assert e.Keys == last.Keys;
    assert forall r :: r in e ==> e[r].group == last[r].group;
  }

  /** Well-formedness and the token bound depend only on the groups, not on the flags. */
  lemma SameGroupsValid(e: Epoch, f: Epoch, bound: nat)
    requires e.Keys == f.Keys
    requires forall r :: r in e ==> f[r].group == e[r].group
    requires WellFormed(e) && TokensBelow(e, bound)
    ensures WellFormed(f) && TokensBelow(f, bound)
  {
  }

  /** Marking a region full keeps the list valid: groups, names and ids are untouched. */
  lemma MarkedFullValid(epochs: seq<Epoch>, region: string, bound: nat)
    requires |epochs| > 0 && region in epochs[|epochs| - 1]
    requires Valid(epochs, bound)
    ensures Valid(MarkedFull(epochs, region), bound)
  {
    var n := |epochs| - 1;
    var m := MarkedFull(epochs, region);
    forall k | 0 <= k < |m| ensures WellFormed(m[k]) && TokensBelow(m[k], bound) {
      if k == n {
        assert m[n].Keys == epochs[n].Keys;
        SameGroupsValid(epochs[n], m[n], bound);
      } else {
        assert m[k] == epochs[k];
      }
    }
  }

  /** Doing it twice is doing it once. */
  lemma MarkedFullIdempotent(epochs: seq<Epoch>, region: string)
    requires |epochs| > 0 && region in epochs[|epochs| - 1]
    ensures MarkedFull(MarkedFull(epochs, region), region) == MarkedFull(epochs, region)
  {
    var last := epochs[|epochs| - 1];
    var e := MarkedFull(epochs, region)[|epochs| - 1];
    var marked := GroupEntry(last[region].group, true);
    assert e[region := marked] == e;
  }

  /**
   * Marking the last unfull region of the current epoch full makes the next
   * lookup build a new epoch.
   */
  lemma LastRegionFullExhausts(epochs: seq<Epoch>, region: string)
    requires |epochs| > 0 && region in epochs[|epochs| - 1]
    requires FullExcept(epochs[|epochs| - 1], region)
    ensures NeedsEpoch(MarkedFull(epochs, region))
  {
  }

  /**
   * After a region is marked full, the next lookup of it returns a full
   * entry exactly when some other region of that epoch is still free;
   * otherwise the lookup builds a new epoch and the region is free again.
   */
  lemma MarkedRegionStaysFull(epochs: seq<Epoch>, region: string, token: nat)
    requires region in REGIONS
    requires |epochs| > 0 && region in epochs[|epochs| - 1]
    ensures var r := Refreshed(MarkedFull(epochs, region), token);
      region in r[|r| - 1]
      && (r[|r| - 1][region].isFull <==> !FullExcept(epochs[|epochs| - 1], region))
  {
    var m := MarkedFull(epochs, region);
    MarkedFullSpec(epochs, region);
    FreshEntry(token, region);
    var e := m[|m| - 1];
    if FullExcept(epochs[|epochs| - 1], region) {
      assert Exhausted(e);
    } else {
      var r' :| r' in epochs[|epochs| - 1] && r' != region && !epochs[|epochs| - 1][r'].isFull;
      assert r' in e && !e[r'].isFull;
    }
  }

  lemma {:induction false} ExtendsTransitive(a: seq<Epoch>, b: seq<Epoch>, c: seq<Epoch>)
    requires Extends(a, b) && Extends(b, c)
    ensures Extends(a, c)
  {
    if |a| > 0 && |a| == |b| {
      var m := |a| - 1;
      assert Grows(a[m], c[m]) by {
        assert Grows(a[m], b[m]) && Grows(b[m], c[m]);
      }
    }
  }

  lemma ExtendsReflexive(a: seq<Epoch>)
    ensures Extends(a, a)
  {
    if |a| > 0 {
      assert Grows(a[|a| - 1], a[|a| - 1]);
    }
  }

  /**
   * The loop of `_find_server_group` that builds a new epoch: one fresh
   * name, then for every region in catalog order switch the client, purge
   * the old "AF-" groups and create a group. `None` stands for the first
   * exception, which escapes (the groups created before it stay at the
   * provider).
   */
  method BuildEpoch(tokens: TokenSource, provider: string -> GroupStep)
    returns (built: Option<Epoch>, events: seq<Event>)
    modifies tokens
    ensures built.Some? <==> forall i :: 0 <= i < |REGIONS| ==> provider(REGIONS[i]) == GroupsOk
    ensures built.Some? <==> !BuildFails(provider)
    ensures built.Some? ==> built.value == FreshEpoch(old(tokens.next))
    // the name token, then one id per group created before any exception
    ensures tokens.next == old(tokens.next) + 1 + FirstRefusal(provider, 0)
    ensures events == BuildEvents(old(tokens.next), provider)
  {
    var token := tokens.Draw();
    var groupName := Name(GROUP_PREFIX, token);
    var regionGroups: Epoch := map[];
    events := [];
    for i := 0 to |REGIONS|
      invariant regionGroups == PartialEpoch(token, i)
      invariant tokens.next == token + 1 + i
      invariant events == EpochEvents(token, i)
      invariant forall j :: 0 <= j < i ==> provider(REGIONS[j]) == GroupsOk
      invariant FirstRefusal(provider, 0) == FirstRefusal(provider, i)
    {
      var region := REGIONS[i];
      var step := provider(region);
      if step == SwitchRaises {
        assert FirstRefusal(provider, 0) == i;
        return None, events;
      }
      events := events + [ClientSwitched(region)];
      if step == ListRaises {
        assert FirstRefusal(provider, 0) == i;
        assert events == EpochEvents(token, i) + RefusalEvents(region, step);
        return None, events;
      }
      // The purge of old "AF-" groups swallows its own errors.
      events := events + [GroupsPurged(region)];
      if step == GroupCreateRaises {
        assert FirstRefusal(provider, 0) == i;
        assert events == EpochEvents(token, i) + RefusalEvents(region, step);
        return None, events;
      }
      var id := tokens.Draw();
      var group := Group(id, groupName);
      events := events + [GroupCreated(region, group)];
      regionGroups := regionGroups[region := GroupEntry(group, false)];
    }
    built := Some(regionGroups);
  }

  /** `SERVER_GROUP_LIST`, with the lookup and the in-place flag update do_create performs. */
  class ServerGroupList {
    var epochs: seq<Epoch>

    constructor ()
      ensures epochs == []
    {
      epochs := [];
    }

    /**
     * `_find_server_group(shell, region_name, args)`. `provider` says how
     * each region answers if a new epoch has to be built; `None` stands for
     * the exception that then escapes.
     */
    method FindServerGroup(regionName: string, tokens: TokenSource, provider: string -> GroupStep)
      returns (entry: Option<GroupEntry>, events: seq<Event>)
      requires regionName in REGIONS
      requires Valid(epochs, tokens.next)
      modifies this, tokens
      ensures old(tokens.next) <= tokens.next
      ensures Valid(epochs, tokens.next)
      ensures entry.Some? ==> epochs == Refreshed(old(epochs), old(tokens.next))
      ensures entry.Some? ==> entry.value == epochs[|epochs| - 1][regionName]
      ensures entry.Some? && NeedsEpoch(old(epochs)) ==> !entry.value.isFull
      ensures !NeedsEpoch(old(epochs)) ==> entry == Some(old(epochs)[|old(epochs)| - 1][regionName])
      ensures entry.None? ==> epochs == old(epochs)
      ensures entry.None? <==>
        NeedsEpoch(old(epochs)) && exists i :: 0 <= i < |REGIONS| && provider(REGIONS[i]) != GroupsOk
      ensures entry.None? <==> NeedsEpoch(old(epochs)) && BuildFails(provider)
      ensures !NeedsEpoch(old(epochs)) ==> events == [] && tokens.next == old(tokens.next)
      // a build, whether it fails or not, makes its calls and draws its tokens
      ensures NeedsEpoch(old(epochs)) ==>
        events == BuildEvents(old(tokens.next), provider)
        && tokens.next == old(tokens.next) + 1 + FirstRefusal(provider, 0)
      ensures NeedsEpoch(old(epochs)) && entry.Some? ==>
        events == EpochEvents(old(tokens.next), |REGIONS|) && tokens.next == old(tokens.next) + 1 + |REGIONS|
    {
      events := [];
      if NeedsEpoch(epochs) {
        FreshEntry(tokens.next, regionName);
        var ok;
        ok, events := AppendEpoch(tokens, provider);
        if !ok {
          return None, events;
        }
      }
      entry := Some(epochs[|epochs| - 1][regionName]);
    }

    /**
     * The branch of `_find_server_group` taken when the list is empty or
     * exhausted: build a new epoch and append it.
     */
    method AppendEpoch(tokens: TokenSource, provider: string -> GroupStep)
      returns (ok: bool, events: seq<Event>)
      requires Valid(epochs, tokens.next)
      modifies this, tokens
      ensures old(tokens.next) <= tokens.next
      ensures Valid(epochs, tokens.next)
      ensures ok <==> forall i :: 0 <= i < |REGIONS| ==> provider(REGIONS[i]) == GroupsOk
      ensures ok <==> !BuildFails(provider)
      ensures events == BuildEvents(old(tokens.next), provider)
      ensures tokens.next == old(tokens.next) + 1 + FirstRefusal(provider, 0)
      ensures ok ==>
        && epochs == old(epochs) + [FreshEpoch(old(tokens.next))]
        && events == EpochEvents(old(tokens.next), |REGIONS|)
        && tokens.next == old(tokens.next) + 1 + |REGIONS|
      ensures !ok ==> epochs == old(epochs)
    {
      AppendFreshValid(epochs, tokens.next);
      var built;
      built, events := BuildEpoch(tokens, provider);
      if built.None? {
        ValidUpTo(epochs, old(tokens.next), tokens.next);
        return false, events;
      }
      epochs := epochs + [built.value];
      ok := true;
    }

    /** `SERVER_GROUP_LIST[-1][region]["is_full"] = True` */
    method MarkFull(region: string)
      requires |epochs| > 0 && region in epochs[|epochs| - 1]
      modifies this
      ensures epochs == MarkedFull(old(epochs), region)
    {
      var last := epochs[|epochs| - 1];
      epochs := epochs[|epochs| - 1 := last[region := GroupEntry(last[region].group, true)]];
    }
  }
}
