/**
 * The placement loop `do_create` (anti_affinity.py:265-318) and the server
 * creation it calls, `_create_server` (anti_affinity.py:364-402).
 *
 * For every target index the regions are tried in catalog order: the
 * region's group is looked up (a full group skips the region), the client
 * is switched to the region, a server is created in the group and polled,
 * and the response decides: ACTIVE records the server and ends the round;
 * "No valid host" marks the group full and deletes the server; anything
 * else, and any exception raised inside the `try`, is only logged. An
 * exception from the group lookup or the client switch, which sit outside
 * the `try`, ends the whole run.
 *
 * What the provider does in round i, region j is given by `attempt(i, j)`.
 */
module Orchestrator {
  import opened Cloud
  import opened Regions
  import opened Classify
  import opened Poller
  import opened Registry

  /** The options of the `create` subcommand. */
  datatype Args = Args(
    serversNumber: int,
    assignPublicIp: bool,
    cloudInitScript: Option<string>,
    namePrefix: string,
    keypairName: string)

  /** How the provider behaves during one region attempt. */
  datatype Attempt = Attempt(
    groups: string -> GroupStep,   // the calls of a group lookup that builds a new epoch
    switchOk: bool,                // `init_client` for the region
    boot: BootReply,               // `servers.create`
    floatingIpOk: bool,            // `floating_ips.create`
    pollStart: int,                // the clock when the status poll starts
    status: nat -> Option<string>, // the successive `servers.get` statuses; None: it raised
    lag: nat -> nat,               // the clock's lag in each poll round
    deleteOk: bool)                // `servers.delete`

  /** What `_create_server` ends with. */
  datatype Boot =
    | NotBooted                   // it raised before a server existed
    | Booted(server: Server)
    | BootedThenRaised(server: Server) // it raised after the server was created

  /** What the `except` at anti_affinity.py:317 or the unknown-error branch logs. */
  datatype Mishap =
    | BootRaised
    | RaisedAfterBoot(server: Server)
    | PollRaised(server: Server)
    | Faulted(server: Server)
    | FaultMessageMissing(server: Server)

  /** The end of one region attempt. */
  datatype StepOutcome =
    | Skipped                               // the region's group is full
    | Placed(server: Server)                // ACTIVE: recorded, the round ends
    | NoHost(server: Server, deleted: bool) // group marked full; server deleted unless the delete raised
    | Absorbed(mishap: Mishap)              // logged, the next region is tried
    | Aborted                               // an exception escaped the run

  /** One region attempt of the run: round, catalog position, outcome, provider calls. */
  datatype Step = Step(target: nat, slot: nat, outcome: StepOutcome, events: seq<Event>)

  /** Python truthiness of `args.PATH_CLOUD_INIT_SCRIPT`. */
  predicate HasCloudInit(args: Args) {
    args.cloudInitScript.Some? && args.cloudInitScript.value != ""
  }

  /** The number of rounds, `len(range(args.SERVERS_NUMBER))`. */
  function Targets(args: Args): nat {
    if args.serversNumber < 0 then 0 else args.serversNumber
  }

  /**
   * The provider answers under which a region attempt records a server:
   * neither of the options that make `_create_server` raise, a server is
   * returned, and a status poll sees it ACTIVE in time.
   */
  ghost predicate Succeeds(args: Args, a: Attempt) {
    && !HasCloudInit(args) && !args.assignPublicIp && a.boot.BootReturns?
    && EventuallyYes(Probes(a.status), a.pollStart, POLL_INTERVAL, a.lag, a.pollStart + POLL_DURATION, 0)
  }

  /** How the status poll of an attempt ends. */
  ghost function PollOutcome(a: Attempt): Polled {
    Run(Probes(a.status), a.pollStart, POLL_INTERVAL, a.lag, a.pollStart + POLL_DURATION, 0).0
  }

  /** What becomes of a region attempt that reaches the `try`, told by the provider's answers alone. */
  datatype Fate = NoBoot | LeftBehind | PollFailed | WentActive | NoHostFault | FaultMissing | OtherFaulted

  /** The fate of a booted server whose create-time fault is `fault`. */
  ghost function PollFate(fault: FaultAttr, a: Attempt): Fate {
    match PollOutcome(a)
    case Threw => PollFailed
    case Returned(ok) =>
      if ok then WentActive
      else if SaysNoValidHost(fault) then NoHostFault
      else if Unreadable(fault) then FaultMissing
      else OtherFaulted
  }

  /** The fate of a region attempt that reaches the `try` at anti_affinity.py:288. */
  ghost function AttemptFate(args: Args, a: Attempt): Fate {
    if HasCloudInit(args) || a.boot.BootRaises? then NoBoot
    else if args.assignPublicIp then LeftBehind
    else PollFate(a.boot.fault, a)
  }

  /** `outcome` is how `fate` ends an attempt; a "No valid host" server is deleted when the delete succeeds. */
  predicate Meets(outcome: StepOutcome, fate: Fate, a: Attempt) {
    match outcome
    case Skipped => false
    case Aborted => false
    case Placed(_) => fate == WentActive
    case NoHost(_, deleted) => fate == NoHostFault && deleted == a.deleteOk
    case Absorbed(m) =>
      match m
      case BootRaised => fate == NoBoot
      case RaisedAfterBoot(_) => fate == LeftBehind
      case PollRaised(_) => fate == PollFailed
      case Faulted(_) => fate == OtherFaulted
      case FaultMessageMissing(_) => fate == FaultMissing
  }

  /** A call outside the `try` raises: the lookup's epoch build or the client switch. */
  predicate Refuses(a: Attempt) {
    !a.switchOk || BuildFails(a.groups)
  }

  /** The number of servers booted by a sequence of calls. */
  function BootCount(events: seq<Event>): nat {
    if events == [] then 0
    else (if events[0].ServerBooted? then 1 else 0) + BootCount(events[1..])
  }

  lemma {:induction false} BootCountAppend(a: seq<Event>, b: seq<Event>)
    ensures BootCount(a + b) == BootCount(a) + BootCount(b)
    decreases |a|
  {
    if a != [] {
      assert (a + b)[0] == a[0];
      assert (a + b)[1..] == a[1..] + b;
      BootCountAppend(a[1..], b);
    } else {
      assert a + b == b;
    }
  }

  lemma {:induction false} NoBootCount(events: seq<Event>)
    requires forall e :: e in events ==> !e.ServerBooted?
    ensures BootCount(events) == 0
    decreases |events|
  {
    if events != [] {
      assert forall e :: e in events[1..] ==> e in events;
      NoBootCount(events[1..]);
    }
  }

  /** The calls that settle a booted server: its delete, on "No valid host", when the delete succeeds. */
  ghost function SettleEvents(region: string, server: Server, a: Attempt): seq<Event> {
    if PollFate(server.fault, a) == NoHostFault && a.deleteOk then [ServerDeleted(region, server.id)] else []
  }

  /** The server `_create_server` boots when `t` is the next token: named with `t`, given id `t + 1`. */
  function BootedServer(args: Args, a: Attempt, t: nat): Server
    requires a.boot.BootReturns?
  {
    Server(t + 1, Name(args.namePrefix, t), a.boot.fault)
  }

  /**
   * The provider calls of `_create_server` (anti_affinity.py:364-402) in
   * group `groupId` with `resources`, when `t` is the next token: none when
   * it raises first, otherwise the boot, then the floating IP of a public-IP
   * request when the pool has one.
   */
  ghost function LaunchEvents(args: Args, region: string, groupId: nat, resources: Resources, a: Attempt, t: nat): seq<Event> {
    if HasCloudInit(args) || a.boot.BootRaises? then []
    else
      var server := BootedServer(args, a, t);
      [ServerBooted(region, BootRequest(server.name, args.keypairName, groupId, resources), server.id)]
      + (if args.assignPublicIp && a.floatingIpOk then [FloatingIpAllocated(region)] else [])
  }

  /**
   * The provider calls of the `try` block at anti_affinity.py:288-318: those
   * of `_create_server`, then, for a server it returns to be polled, the
   * calls that settle that server.
   */
  ghost function TryEvents(args: Args, region: string, groupId: nat, resources: Resources, a: Attempt, t: nat): seq<Event> {
    LaunchEvents(args, region, groupId, resources, a, t)
    + if !HasCloudInit(args) && !args.assignPublicIp && a.boot.BootReturns? then SettleEvents(region, BootedServer(args, a, t), a)
      else []
  }

  /** The resources the lookups of the catalog region at position `slot` yield. */
  function SlotResources(slot: nat): (r: Resources)
    requires slot < |REGIONS|
    ensures RegionResources(REGIONS[slot]) == Some(r)
  {
    RegionConstantsDefined(REGIONS[slot]);
    RegionResources(REGIONS[slot]).value
  }

  /**
   * The provider calls of one region attempt (anti_affinity.py:274-318) when
   * the lookup needs a new epoch or not, `entry` is the region's entry it
   * finds, and `token` is the next token: the build when one is needed;
   * then, unless it raised or the group is full, the client switch and,
   * unless that raised, the calls of the `try` block.
   */
  ghost function AttemptEvents(args: Args, slot: nat, needsEpoch: bool, entry: GroupEntry, token: nat, a: Attempt): seq<Event>
    requires slot < |REGIONS|
  {
    var lookup := if needsEpoch then BuildEvents(token, a.groups) else [];
    if (needsEpoch && BuildFails(a.groups)) || entry.isFull || !a.switchOk then lookup
    else
      var next := if needsEpoch then token + 1 + |REGIONS| else token;
      lookup + ([ClientSwitched(REGIONS[slot])] + TryEvents(args, REGIONS[slot], entry.group.id, SlotResources(slot), a, next))
  }

  /** The lookup's calls boot and delete nothing, so they leave an attempt's conclusion as it is. */
  lemma ConcludesAfterLookup(args: Args, slot: nat, groupId: nat, a: Attempt, outcome: StepOutcome,
                             lookup: seq<Event>, rest: seq<Event>)
    requires slot < |REGIONS|
    requires forall e :: e in lookup ==> !e.ServerBooted? && !e.ServerDeleted?
    requires Concludes(args, slot, groupId, a, outcome, rest)
    ensures Concludes(args, slot, groupId, a, outcome, lookup + rest)
  {
    assert forall e :: e in rest ==> e in lookup + rest;
    if outcome.NoHost? && outcome.deleted {
      assert (lookup + rest)[|lookup + rest| - 1] == rest[|rest| - 1];
    }
  }

  /** The calls of an attempt whose lookup found a group that is not full. */
  lemma AttemptEventsAfterLookup(args: Args, slot: nat, needsEpoch: bool, entry: GroupEntry, token: nat, a: Attempt,
                                 lookup: seq<Event>, next: nat, rest: seq<Event>)
    requires slot < |REGIONS| && !(needsEpoch && BuildFails(a.groups))
    requires lookup == if needsEpoch then BuildEvents(token, a.groups) else []
    requires next == if needsEpoch then token + 1 + FirstRefusal(a.groups, 0) else token
    requires !entry.isFull
    requires rest == if !a.switchOk then [] else
      [ClientSwitched(REGIONS[slot])] + TryEvents(args, REGIONS[slot], entry.group.id, SlotResources(slot), a, next)
    ensures lookup + rest == AttemptEvents(args, slot, needsEpoch, entry, token, a)
  {
    if !a.switchOk {
      assert lookup + rest == lookup;
    }
  }

  /**
   * An attempt boots at most one server, in its own region, and boots one
   * exactly when it reaches the `try` and `servers.create` is called and returns.
   */
  lemma AttemptEventsBoots(args: Args, slot: nat, needsEpoch: bool, entry: GroupEntry, token: nat, a: Attempt)
    requires slot < |REGIONS|
    ensures forall e :: e in AttemptEvents(args, slot, needsEpoch, entry, token, a) && e.ServerBooted? ==>
      e.region == REGIONS[slot]
    ensures BootCount(AttemptEvents(args, slot, needsEpoch, entry, token, a)) ==
      if !(needsEpoch && BuildFails(a.groups)) && !entry.isFull && a.switchOk && AttemptFate(args, a) != NoBoot
      then 1 else 0
  {
    BuildTouchesNoServer(token, a.groups);
    var lookup: seq<Event> := if needsEpoch then BuildEvents(token, a.groups) else [];
    NoBootCount(lookup);
    if !((needsEpoch && BuildFails(a.groups)) || entry.isFull || !a.switchOk) {
      var next := if needsEpoch then token + 1 + |REGIONS| else token;
      var tail := TryEvents(args, REGIONS[slot], entry.group.id, SlotResources(slot), a, next);
      TryEventsBoots(args, REGIONS[slot], entry.group.id, SlotResources(slot), a, next);
      BootCountAppend(lookup, [ClientSwitched(REGIONS[slot])] + tail);
      BootCountAppend([ClientSwitched(REGIONS[slot])], tail);
    }
  }

  /** The `try` block boots a server, in its own region, exactly when `_create_server` gets as far as the boot. */
  lemma TryEventsBoots(args: Args, region: string, groupId: nat, resources: Resources, a: Attempt, t: nat)
    ensures forall e :: e in TryEvents(args, region, groupId, resources, a, t) && e.ServerBooted? ==> e.region == region
    ensures BootCount(TryEvents(args, region, groupId, resources, a, t)) == if AttemptFate(args, a) != NoBoot then 1 else 0
  {
    var launch := LaunchEvents(args, region, groupId, resources, a, t);
    var settle := if !HasCloudInit(args) && !args.assignPublicIp && a.boot.BootReturns?
      then SettleEvents(region, BootedServer(args, a, t), a) else [];
    BootCountAppend(launch, settle);
    NoBootCount(settle);
    if !(HasCloudInit(args) || a.boot.BootRaises?) {
      var server := BootedServer(args, a, t);
      var boot := ServerBooted(region, BootRequest(server.name, args.keypairName, groupId, resources), server.id);
      var ip := if args.assignPublicIp && a.floatingIpOk then [FloatingIpAllocated(region)] else [];
      assert launch == [boot] + ip;
      NoBootCount(ip);
      BootCountAppend([boot], ip);
    }
  }

  /** An attempt ends with an ACTIVE server exactly when the provider's answers let it succeed. */
  lemma FateActiveIff(args: Args, a: Attempt)
    ensures AttemptFate(args, a) == WentActive <==> Succeeds(args, a)
  {
    RunTrueIff(Probes(a.status), a.pollStart, POLL_INTERVAL, a.lag, a.pollStart + POLL_DURATION, 0);
  }

  /** `events` hold the boot, in `region` with the caller's keypair, of `server`. */
  predicate BootsServer(events: seq<Event>, region: string, keypair: string, server: Server) {
    exists e :: e in events && e.ServerBooted? && e.region == region && e.id == server.id
      && e.request.name == server.name && e.request.keypair == keypair
  }

  /**
   * How an attempt that reaches the `try` in the group `groupId` of the
   * region at `slot` ends, `events` being its calls: as `AttemptFate` says,
   * recording a server exactly when `Succeeds`, under the run's name
   * prefix; a recorded or "No valid host" server was booted in that group
   * with the region's resources; the only delete is that server's, as the
   * last call, on "No valid host".
   */
  ghost predicate Concludes(args: Args, slot: nat, groupId: nat, a: Attempt, outcome: StepOutcome, events: seq<Event>)
    requires slot < |REGIONS|
  {
    && Meets(outcome, AttemptFate(args, a), a)
    && (outcome.Placed? <==> Succeeds(args, a))
    && (outcome.Placed? ==> outcome.server.name.prefix == args.namePrefix)
    && (outcome.Placed? || outcome.NoHost? ==>
          ServerBooted(REGIONS[slot], BootRequest(outcome.server.name, args.keypairName, groupId, SlotResources(slot)),
                       outcome.server.id) in events)
    && (forall e :: e in events && e.ServerDeleted? ==>
          outcome.NoHost? && outcome.deleted && e == ServerDeleted(REGIONS[slot], outcome.server.id))
    && (outcome.NoHost? && outcome.deleted ==>
          |events| > 0 && events[|events| - 1] == ServerDeleted(REGIONS[slot], outcome.server.id))
  }

  /**
   * A step ends as the provider's answers for its round and region say:
   * it ends the run only at a raising lookup or switch and always at a
   * raising switch; it deletes a server only on "No valid host", and then
   * the server it booted.
   */
  ghost predicate Credited(args: Args, attempt: (nat, nat) -> Attempt, step: Step) {
    var a := attempt(step.target, step.slot);
    && step.slot < |REGIONS|
    && (step.outcome.Aborted? ==> Refuses(a))
    && (!step.outcome.Skipped? && !a.switchOk ==> step.outcome.Aborted?)
    && (!step.outcome.Skipped? && !step.outcome.Aborted? ==> Meets(step.outcome, AttemptFate(args, a), a))
    && (step.outcome.Placed? || step.outcome.NoHost? ==>
          BootsServer(step.events, REGIONS[step.slot], args.keypairName, step.outcome.server))
    && (forall e :: e in step.events && e.ServerDeleted? ==>
          step.outcome.NoHost? && step.outcome.deleted && e == ServerDeleted(REGIONS[step.slot], step.outcome.server.id))
    && (step.outcome.NoHost? && step.outcome.deleted ==>
          ServerDeleted(REGIONS[step.slot], step.outcome.server.id) in step.events)
    && (forall e :: e in step.events && e.ServerBooted? ==> e.region == REGIONS[step.slot])
    && BootCount(step.events) ==
         (if !step.outcome.Skipped? && !step.outcome.Aborted? && AttemptFate(args, a) != NoBoot then 1 else 0)
  }

  /** A step that records a server had neither a cloud-init script nor a public IP. */
  lemma PlacedPlainly(args: Args, attempt: (nat, nat) -> Attempt, step: Step)
    requires Credited(args, attempt, step) && step.outcome.Placed?
    ensures !HasCloudInit(args) && !args.assignPublicIp
  {
  }

  /** Every step of a run ends as the provider's answers say. */
  ghost predicate AllCredited(steps: seq<Step>, args: Args, attempt: (nat, nat) -> Attempt) {
    forall k :: 0 <= k < |steps| ==> Credited(args, attempt, steps[k])
  }

  /** Every server a run records comes from an attempt whose provider answers let it succeed. */
  lemma RecordedServersSucceeded(steps: seq<Step>, args: Args, attempt: (nat, nat) -> Attempt)
    requires AllCredited(steps, args, attempt)
    ensures forall k :: 0 <= k < |steps| && steps[k].outcome.Placed? ==>
      Succeeds(args, attempt(steps[k].target, steps[k].slot))
  {
    forall k | 0 <= k < |steps| && steps[k].outcome.Placed?
      ensures Succeeds(args, attempt(steps[k].target, steps[k].slot))
    {
      assert Credited(args, attempt, steps[k]);
      FateActiveIff(args, attempt(steps[k].target, steps[k].slot));
    }
  }

  /** The servers recorded by a sequence of steps, in order. */
  function PlacedServers(steps: seq<Step>): seq<Server> {
    if steps == [] then []
    else
      var placed := match steps[|steps| - 1].outcome
        case Placed(s) => [s]
        case _ => [];
      PlacedServers(steps[..|steps| - 1]) + placed
  }

  /** The provider calls of a sequence of steps, in order. */
  function Trace(steps: seq<Step>): seq<Event> {
    if steps == [] then [] else Trace(steps[..|steps| - 1]) + steps[|steps| - 1].events
  }

  /** `next` is the attempt the loop makes right after `prev`. */
  ghost predicate Follows(prev: Step, next: Step) {
    if prev.outcome.Placed? || prev.slot == |REGIONS| - 1
    then next.target == prev.target + 1 && next.slot == 0
    else next.target == prev.target && next.slot == prev.slot + 1
  }

  /**
   * The order of the nested loops: rounds from 0, regions in catalog order
   * within a round, a new round after an ACTIVE server or the last region.
   */
  ghost predicate Schedule(steps: seq<Step>) {
    && (|steps| > 0 ==> steps[0].target == 0 && steps[0].slot == 0)
    && (forall k :: 0 <= k < |steps| ==> steps[k].slot < |REGIONS|)
    && (forall k :: 0 < k < |steps| ==> Follows(steps[k - 1], steps[k]))
  }

  /** The first n rounds have been played out to their end. */
  ghost predicate RoundsDone(steps: seq<Step>, n: nat) {
    if n == 0 then steps == []
    else
      && |steps| > 0
      && steps[|steps| - 1].target == n - 1
      && (steps[|steps| - 1].outcome.Placed? || steps[|steps| - 1].slot == |REGIONS| - 1)
  }

  /** A skipped region costs no provider call at all. */
  ghost predicate SkipsSilent(steps: seq<Step>) {
    forall k :: 0 <= k < |steps| && steps[k].outcome.Skipped? ==> steps[k].events == []
  }

  /** First success wins: after an ACTIVE server no further region is tried in that round. */
  lemma {:induction false} PlacedEndsRound(steps: seq<Step>)
    requires Schedule(steps)
    ensures forall k, l :: 0 <= k < l < |steps| && steps[k].target == steps[l].target ==>
      !steps[k].outcome.Placed?
    decreases |steps|
  {
    if |steps| > 1 {
      var init := steps[..|steps| - 1];
      assert Schedule(init) by {
        forall k | 0 < k < |init| ensures Follows(init[k - 1], init[k]) {
          assert Follows(steps[k - 1], steps[k]);
        }
      }
      PlacedEndsRound(init);
      RoundsAscend(steps);
    }
  }

  /** Rounds never go back, and a round ends with its ACTIVE step. */
  lemma {:induction false} RoundsAscend(steps: seq<Step>)
    requires Schedule(steps)
    ensures forall k, l :: 0 <= k < l < |steps| ==>
      steps[k].target <= steps[l].target
      && (steps[k].outcome.Placed? ==> steps[k].target < steps[l].target)
    decreases |steps|
  {
    if |steps| > 1 {
      var init := steps[..|steps| - 1];
      assert Schedule(init) by {
        forall k | 0 < k < |init| ensures Follows(init[k - 1], init[k]) {
          assert Follows(steps[k - 1], steps[k]);
        }
      }
      RoundsAscend(init);
      var m := |steps| - 1;
      assert Follows(steps[m - 1], steps[m]);
    }
  }

  /**
   * Each round records at most one server: a run whose last step is in
   * round t has recorded at most t servers, t + 1 if that step placed one.
   */
  lemma {:induction false} PlacedPerRound(steps: seq<Step>)
    requires Schedule(steps) && |steps| > 0
    ensures |PlacedServers(steps)| <=
      steps[|steps| - 1].target + (if steps[|steps| - 1].outcome.Placed? then 1 else 0)
    decreases |steps|
  {
    if |steps| > 1 {
      var init := steps[..|steps| - 1];
      assert Schedule(init) by {
        forall k | 0 < k < |init| ensures Follows(init[k - 1], init[k]) {
          assert Follows(steps[k - 1], steps[k]);
        }
      }
      PlacedPerRound(init);
      assert Follows(steps[|steps| - 2], steps[|steps| - 1]);
    }
  }

  /**
   * `_create_server`. A cloud-init script path raises (the name
   * `boot_kwargs` is undefined) before anything is created; a public-IP
   * request raises (the name `sleep` is undefined) after the server exists,
   * leaving it behind.
   */
  method CreateServer(args: Args, region: string, resources: Resources, groupId: nat, name: Name,
                      a: Attempt, tokens: TokenSource)
    returns (result: Boot, events: seq<Event>)
    modifies tokens
    ensures HasCloudInit(args) || a.boot.BootRaises? ==>
      result == NotBooted && events == [] && tokens.next == old(tokens.next)
    ensures !HasCloudInit(args) && a.boot.BootReturns? ==>
      var server := Server(old(tokens.next), name, a.boot.fault);
      && tokens.next == old(tokens.next) + 1
      && events == [ServerBooted(region, BootRequest(name, args.keypairName, groupId, resources), server.id)]
                   + (if args.assignPublicIp && a.floatingIpOk then [FloatingIpAllocated(region)] else [])
      && result == (if args.assignPublicIp then BootedThenRaised(server) else Booted(server))
  {
    if HasCloudInit(args) {
      return NotBooted, [];
    }
    match a.boot
    case BootRaises =>
      return NotBooted, [];
    case BootReturns(fault) =>
      var id := tokens.Draw();
      var server := Server(id, name, fault);
      events := [ServerBooted(region, BootRequest(name, args.keypairName, groupId, resources), id)];
      if args.assignPublicIp {
        if a.floatingIpOk {
          events := events + [FloatingIpAllocated(region)];
        }
        return BootedThenRaised(server), events;
      }
      return Booted(server), events;
  }

  /**
   * Draw the server name and create the server in group `groupId` with the
   * region's resources (anti_affinity.py:289-294).
   */
  method Launch(args: Args, region: string, resources: Resources, groupId: nat, tokens: TokenSource, a: Attempt)
    returns (boot: Boot, events: seq<Event>)
    modifies tokens
    ensures old(tokens.next) <= tokens.next
    ensures forall e :: e in events ==> !e.ServerDeleted?
    ensures boot.NotBooted? <==> HasCloudInit(args) || a.boot.BootRaises?
    ensures boot.NotBooted? ==> events == []
    ensures !boot.NotBooted? ==>
      && boot.server == Server(old(tokens.next) + 1, Name(args.namePrefix, old(tokens.next)), a.boot.fault)
      && |events| > 0
      && events[0] == ServerBooted(region, BootRequest(boot.server.name, args.keypairName, groupId, resources), boot.server.id)
    ensures boot.Booted? <==> !HasCloudInit(args) && !args.assignPublicIp && a.boot.BootReturns?
    // the boot is the only call, but for the floating IP of a public-IP request
    ensures !boot.NotBooted? ==>
      events == [ServerBooted(region, BootRequest(boot.server.name, args.keypairName, groupId, resources), boot.server.id)]
                + (if args.assignPublicIp && a.floatingIpOk then [FloatingIpAllocated(region)] else [])
    ensures events == LaunchEvents(args, region, groupId, resources, a, old(tokens.next))
  {
    var nameToken := tokens.Draw();
    var name := Name(args.namePrefix, nameToken);
    boot, events := CreateServer(args, region, resources, groupId, name, a, tokens);
  }

  /** The fate a verdict on a status response stands for. */
  function VerdictFate(v: Verdict): Fate {
    match v
    case Active => WentActive
    case NoValidHost => NoHostFault
    case OtherFault => OtherFaulted
    case FaultUnreadable => FaultMissing
  }

  /**
   * `_check_server_status` and the branch do_create takes on its response
   * (anti_affinity.py:296-316); `None` stands for a status fetch that raised.
   */
  method Inspect(server: Server, a: Attempt) returns (verdict: Option<Verdict>)
    ensures verdict == Some(Active) <==>
      EventuallyYes(Probes(a.status), a.pollStart, POLL_INTERVAL, a.lag, a.pollStart + POLL_DURATION, 0)
    ensures verdict.None? ==> PollFate(server.fault, a) == PollFailed
    ensures verdict.Some? ==> PollFate(server.fault, a) == VerdictFate(verdict.value)
    ensures verdict == Some(NoValidHost) ==> SaysNoValidHost(server.fault)
    ensures verdict == Some(FaultUnreadable) ==> Unreadable(server.fault)
  {
    var resp := CheckServerStatus(server, a.status, a.lag, a.pollStart);
    if resp.None? {
      return None;
    }
    verdict := Some(ClassifyResponse(resp.value));
  }

  /**
   * Poll a created server and act on the response (anti_affinity.py:295-316):
   * record it when ACTIVE; on "No valid host" mark the region's group full
   * and delete the server; otherwise log.
   */
  method Settle(server: Server, region: string, reg: ServerGroupList, a: Attempt, ghost bound: nat)
    returns (outcome: StepOutcome, events: seq<Event>)
    requires |reg.epochs| > 0 && region in reg.epochs[|reg.epochs| - 1]
    requires Valid(reg.epochs, bound)
    modifies reg
    ensures Valid(reg.epochs, bound)
    ensures Extends(old(reg.epochs), reg.epochs)
    ensures !outcome.Skipped? && !outcome.Aborted?
    ensures outcome.Placed? ==> outcome.server == server
    ensures outcome.Placed? <==>
      EventuallyYes(Probes(a.status), a.pollStart, POLL_INTERVAL, a.lag, a.pollStart + POLL_DURATION, 0)
    // only "No valid host" sets a flag: the region's flag in the last epoch
    ensures !outcome.NoHost? ==> reg.epochs == old(reg.epochs)
    ensures outcome.NoHost? ==>
      && outcome.server == server
      && reg.epochs == MarkedFull(old(reg.epochs), region)
      && SaysNoValidHost(server.fault)
    // only "No valid host" deletes, and it deletes this server
    ensures events == (if outcome.NoHost? && outcome.deleted then [ServerDeleted(region, server.id)] else [])
    ensures outcome.NoHost? ==> outcome.deleted == a.deleteOk
    // a pure timeout leaves a server whose fault cannot be read: logged, nothing else
    ensures outcome.Absorbed? && outcome.mishap.FaultMessageMissing? ==> Unreadable(server.fault)
    // the outcome is the one the poll and the create-time fault call for
    ensures Meets(outcome, PollFate(server.fault, a), a)
    ensures events == SettleEvents(region, server, a)
  {
    ExtendsReflexive(reg.epochs);
    events := [];
    var verdict := Inspect(server, a);
    if verdict.None? {
      return Absorbed(PollRaised(server)), events;
    }
    match verdict.value
    case Active =>
      return Placed(server), events;
    case NoValidHost =>
      MarkedFullSpec(reg.epochs, region);
      MarkedFullValid(reg.epochs, region, bound);
      reg.MarkFull(region);
      if a.deleteOk {
        events := [ServerDeleted(region, server.id)];
      }
      return NoHost(server, a.deleteOk), events;
    case OtherFault =>
      return Absorbed(Faulted(server)), events;
    case FaultUnreadable =>
      return Absorbed(FaultMessageMissing(server)), events;
  }

  /**
   * The `try` block of a region attempt, once the client is switched to the
   * region and its resources are resolved: create the server in group
   * `groupId`, poll it, and act on the response.
   */
  method PlaceInGroup(args: Args, region: string, resources: Resources, groupId: nat,
                      reg: ServerGroupList, tokens: TokenSource, a: Attempt)
    returns (outcome: StepOutcome, events: seq<Event>)
    requires |reg.epochs| > 0 && region in reg.epochs[|reg.epochs| - 1]
    requires Valid(reg.epochs, tokens.next)
    modifies reg, tokens
    ensures old(tokens.next) <= tokens.next
    ensures Valid(reg.epochs, tokens.next)
    ensures Extends(old(reg.epochs), reg.epochs)
    ensures !outcome.Skipped? && !outcome.Aborted?
    ensures !outcome.NoHost? ==> reg.epochs == old(reg.epochs)
    ensures outcome.NoHost? ==> reg.epochs == MarkedFull(old(reg.epochs), region)
    ensures outcome.NoHost? && outcome.deleted ==>
      |events| > 0 && events[|events| - 1] == ServerDeleted(region, outcome.server.id)
    ensures !(outcome.NoHost? && outcome.deleted) ==> forall e :: e in events ==> !e.ServerDeleted?
    ensures forall e :: e in events && e.ServerDeleted? ==> e == ServerDeleted(region, outcome.server.id)
    // the server recorded or deleted is the one this attempt booted
    ensures outcome.Placed? || outcome.NoHost? ==>
      && a.boot.BootReturns?
      && outcome.server == Server(old(tokens.next) + 1, Name(args.namePrefix, old(tokens.next)), a.boot.fault)
      && |events| > 0
      && events[0] == ServerBooted(region, BootRequest(outcome.server.name, args.keypairName, groupId, resources), outcome.server.id)
    // the calls are exactly those of the `try` block for these answers
    ensures events == TryEvents(args, region, groupId, resources, a, old(tokens.next))
    // a server is recorded only when it was booted without the failing options and polled ACTIVE;
    // this is `Succeeds` written out, since the solver proves the unfolded form far more cheaply
    ensures outcome.Placed? <==>
      && !HasCloudInit(args) && !args.assignPublicIp && a.boot.BootReturns?
      && EventuallyYes(Probes(a.status), a.pollStart, POLL_INTERVAL, a.lag, a.pollStart + POLL_DURATION, 0)
    ensures outcome.Placed? ==> outcome.server.name.prefix == args.namePrefix
    // the outcome is the one the provider's answers call for
    ensures Meets(outcome, AttemptFate(args, a), a)
  {
    var boot;
    boot, events := Launch(args, region, resources, groupId, tokens, a);
    ValidUpTo(reg.epochs, old(tokens.next), tokens.next);
    match boot
    case NotBooted =>
      ExtendsReflexive(reg.epochs);
      return Absorbed(BootRaised), events;
    case BootedThenRaised(s) =>
      ExtendsReflexive(reg.epochs);
      return Absorbed(RaisedAfterBoot(s)), events;
    case Booted(server) =>
      var settleEvents;
      outcome, settleEvents := Settle(server, region, reg, a, tokens.next);
      events := events + settleEvents;
  }

  /**
   * The rest of a region attempt once its group `groupId` is found not full
   * (anti_affinity.py:280-318): switch the client to the region, which may
   * raise out of the run, resolve its resources and place the server.
   */
  method SwitchAndPlace(args: Args, slot: nat, groupId: nat, reg: ServerGroupList, tokens: TokenSource, a: Attempt)
    returns (outcome: StepOutcome, events: seq<Event>)
    requires slot < |REGIONS|
    requires |reg.epochs| > 0 && REGIONS[slot] in reg.epochs[|reg.epochs| - 1]
    requires Valid(reg.epochs, tokens.next)
    modifies reg, tokens
    ensures old(tokens.next) <= tokens.next
    ensures Valid(reg.epochs, tokens.next)
    ensures Extends(old(reg.epochs), reg.epochs)
    ensures !outcome.Skipped?
    // a raising switch ends the run before any other call
    ensures outcome.Aborted? <==> !a.switchOk
    ensures outcome.Aborted? ==> events == [] && reg.epochs == old(reg.epochs)
    ensures !outcome.Aborted? ==> Concludes(args, slot, groupId, a, outcome, events)
    ensures !outcome.NoHost? ==> reg.epochs == old(reg.epochs)
    ensures outcome.NoHost? ==> reg.epochs == MarkedFull(old(reg.epochs), REGIONS[slot])
    ensures events == if !a.switchOk then [] else
      [ClientSwitched(REGIONS[slot])] + TryEvents(args, REGIONS[slot], groupId, SlotResources(slot), a, old(tokens.next))
  {
    var region := REGIONS[slot];
    if !a.switchOk {
      ExtendsReflexive(reg.epochs);
      return Aborted, [];
    }
    var resources := ResolveResources(region);
    var placeEvents;
    outcome, placeEvents := PlaceInGroup(args, region, resources, groupId, reg, tokens, a);
    FateActiveIff(args, a);
    events := [ClientSwitched(region)] + placeEvents;
    assert outcome.Placed? || outcome.NoHost? ==> events[1] == placeEvents[0];
  }

  /**
   * One pass of the inner loop of `do_create` for the region at catalog
   * position `slot`: look the group up, skip a full one, otherwise place.
   */
  method TryRegion(args: Args, slot: nat, reg: ServerGroupList, tokens: TokenSource, a: Attempt)
    returns (outcome: StepOutcome, events: seq<Event>, ghost entry: GroupEntry)
    requires slot < |REGIONS|
    requires Valid(reg.epochs, tokens.next)
    modifies reg, tokens
    ensures old(tokens.next) <= tokens.next
    ensures Valid(reg.epochs, tokens.next)
    ensures Extends(old(reg.epochs), reg.epochs)
    // the region is skipped exactly when its group in the current epoch is full, and then nothing is called
    ensures outcome.Skipped? <==>
      !NeedsEpoch(old(reg.epochs)) && old(reg.epochs)[|old(reg.epochs)| - 1][REGIONS[slot]].isFull
    ensures outcome.Skipped? ==> events == [] && reg.epochs == old(reg.epochs)
    // an attempt that is not skipped ends the run exactly when the lookup or the client switch raises
    ensures outcome.Aborted? <==>
      && !(!NeedsEpoch(old(reg.epochs)) && old(reg.epochs)[|old(reg.epochs)| - 1][REGIONS[slot]].isFull)
      && ((NeedsEpoch(old(reg.epochs)) && BuildFails(a.groups)) || !a.switchOk)
    ensures outcome.Aborted? && NeedsEpoch(old(reg.epochs)) && BuildFails(a.groups) ==>
      reg.epochs == old(reg.epochs)
    // the lookup's new epoch, if any, is kept whatever happens after it
    ensures outcome.Aborted? && !(NeedsEpoch(old(reg.epochs)) && BuildFails(a.groups)) ==>
      reg.epochs == Refreshed(old(reg.epochs), old(tokens.next))
    // an attempt that reaches the `try` ends as the provider's answers say, in the group the lookup found
    ensures !outcome.Skipped? && !outcome.Aborted? ==> Concludes(args, slot, entry.group.id, a, outcome, events)
    ensures outcome.Skipped? || outcome.Aborted? ==> forall e :: e in events ==> !e.ServerBooted? && !e.ServerDeleted?
    ensures !outcome.Aborted? && !outcome.NoHost? ==>
      reg.epochs == Refreshed(old(reg.epochs), old(tokens.next))
    ensures outcome.NoHost? ==>
      var current := Refreshed(old(reg.epochs), old(tokens.next));
      && |current| > 0 && REGIONS[slot] in current[|current| - 1]
      && reg.epochs == MarkedFull(current, REGIONS[slot])
    // the calls are exactly those of an attempt with these answers, `entry` being the entry the lookup finds
    ensures events == AttemptEvents(args, slot, NeedsEpoch(old(reg.epochs)), entry, old(tokens.next), a)
    ensures !NeedsEpoch(old(reg.epochs)) ==> entry == old(reg.epochs)[|old(reg.epochs)| - 1][REGIONS[slot]]
    ensures NeedsEpoch(old(reg.epochs)) && !BuildFails(a.groups) ==>
      REGIONS[slot] in FreshEpoch(old(tokens.next)) && entry == FreshEpoch(old(tokens.next))[REGIONS[slot]]
    ensures !outcome.Skipped? && !outcome.Aborted? <==>
      !(NeedsEpoch(old(reg.epochs)) && BuildFails(a.groups)) && !entry.isFull && a.switchOk
  {
    var region := REGIONS[slot];
    RefreshedSpec(reg.epochs, tokens.next);
    BuildTouchesNoServer(tokens.next, a.groups);
    FreshEntry(tokens.next, region);
    var found, lookupEvents := reg.FindServerGroup(region, tokens, a.groups);
    if found.None? {
      ExtendsReflexive(reg.epochs);
      // the lookup raised: there is no entry, and the calls do not depend on it
      entry := GroupEntry(Group(0, Name(GROUP_PREFIX, 0)), false);
      outcome, events := Aborted, lookupEvents;
      return;
    }
    var groupEntry := found.value;
    entry := groupEntry;
    if groupEntry.isFull {
      ExtendsReflexive(reg.epochs);
      outcome, events := Skipped, lookupEvents;
      return;
    }
    var current := reg.epochs;
    ghost var next := tokens.next;
    var placeEvents;
    outcome, placeEvents := SwitchAndPlace(args, slot, groupEntry.group.id, reg, tokens, a);
    events := lookupEvents + placeEvents;
    if !outcome.Skipped? && !outcome.Aborted? {
      ConcludesAfterLookup(args, slot, entry.group.id, a, outcome, lookupEvents, placeEvents);
    }
    AttemptEventsAfterLookup(args, slot, NeedsEpoch(old(reg.epochs)), entry, old(tokens.next), a, lookupEvents, next, placeEvents);
    ExtendsTransitive(old(reg.epochs), current, reg.epochs);
  }

  /**
   * The steps of one round, target index i: regions in catalog order, none
   * placed or aborted before the last, and the last one places a server,
   * aborts the run, or is the last region.
   */
  ghost predicate RoundShape(round: seq<Step>, i: nat) {
    && 0 < |round| <= |REGIONS|
    && (forall k :: 0 <= k < |round| ==> round[k].target == i && round[k].slot == k)
    && (forall k :: 0 <= k < |round| - 1 ==> !round[k].outcome.Placed? && !round[k].outcome.Aborted?)
    && (round[|round| - 1].outcome.Placed? || round[|round| - 1].outcome.Aborted?
        || round[|round| - 1].slot == |REGIONS| - 1)
  }

  lemma {:induction false} TraceAppend(a: seq<Step>, b: seq<Step>)
    ensures Trace(a + b) == Trace(a) + Trace(b)
    decreases |b|
  {
    if b == [] {
      assert a + b == a;
    } else {
      var b', e := b[..|b| - 1], b[|b| - 1].events;
      assert (a + b)[..|a + b| - 1] == a + b';
      assert (a + b)[|a + b| - 1] == b[|b| - 1];
      TraceAppend(a, b');
      assert Trace(a + b) == (Trace(a) + Trace(b')) + e;
      assert Trace(b) == Trace(b') + e;
    }
  }

  lemma TraceSnoc(steps: seq<Step>, step: Step)
    ensures Trace(steps + [step]) == Trace(steps) + step.events
  {
    assert (steps + [step])[..|steps|] == steps;
  }

  lemma {:induction false} PlacedAppend(a: seq<Step>, b: seq<Step>)
    ensures PlacedServers(a + b) == PlacedServers(a) + PlacedServers(b)
    decreases |b|
  {
    if b == [] {
      assert a + b == a;
    } else {
      var b' := b[..|b| - 1];
      assert (a + b)[..|a + b| - 1] == a + b';
      assert (a + b)[|a + b| - 1] == b[|b| - 1];
      PlacedAppend(a, b');
    }
  }

  /** A round records the server of its last step if that one is ACTIVE, and nothing else. */
  lemma {:induction false} RoundPlaces(round: seq<Step>, i: nat)
    requires RoundShape(round, i)
    ensures PlacedServers(round) ==
      if round[|round| - 1].outcome.Placed? then [round[|round| - 1].outcome.server] else []
  {
    var init := round[..|round| - 1];
    NonePlaced(init);
  }

  lemma {:induction false} NonePlaced(steps: seq<Step>)
    requires forall k :: 0 <= k < |steps| ==> !steps[k].outcome.Placed?
    ensures PlacedServers(steps) == []
    decreases |steps|
  {
    if steps != [] {
      NonePlaced(steps[..|steps| - 1]);
    }
  }

  /** The steps of a round still in progress: regions in order, none placed or aborted yet. */
  ghost predicate OpenRound(round: seq<Step>, i: nat) {
    && |round| <= |REGIONS|
    && (forall k :: 0 <= k < |round| ==> round[k].target == i && round[k].slot == k)
    && (forall k :: 0 <= k < |round| ==> !round[k].outcome.Placed? && !round[k].outcome.Aborted?)
    && SkipsSilent(round)
  }

  /** One more region attempt in a round in progress that neither places nor aborts. */
  lemma ExtendRound(round: seq<Step>, step: Step, i: nat)
    requires OpenRound(round, i) && |round| < |REGIONS|
    requires step.target == i && step.slot == |round|
    requires step.outcome.Skipped? ==> step.events == []
    requires !step.outcome.Placed? && !step.outcome.Aborted?
    ensures OpenRound(round + [step], i)
  {
    var r := round + [step];
    forall k | 0 <= k < |r| ensures r[k].target == i && r[k].slot == k {
      if k < |round| {
        assert r[k] == round[k];
      }
    }
    forall k | 0 <= k < |r| ensures !r[k].outcome.Placed? && !r[k].outcome.Aborted? {
      if k < |round| {
        assert r[k] == round[k];
      }
    }
    forall k | 0 <= k < |r| && r[k].outcome.Skipped? ensures r[k].events == [] {
      if k < |round| {
        assert r[k] == round[k];
      }
    }
  }

  /** The region attempt that ends a round: it places a server, aborts, or is the last region. */
  lemma CloseRound(round: seq<Step>, step: Step, i: nat)
    requires OpenRound(round, i) && |round| < |REGIONS|
    requires step.target == i && step.slot == |round|
    requires step.outcome.Skipped? ==> step.events == []
    requires step.outcome.Placed? || step.outcome.Aborted? || |round| == |REGIONS| - 1
    ensures RoundShape(round + [step], i) && SkipsSilent(round + [step])
  {
    var r := round + [step];
    forall k | 0 <= k < |r| ensures r[k].target == i && r[k].slot == k {
      if k < |round| {
        assert r[k] == round[k];
      }
    }
    forall k | 0 <= k < |r| - 1 ensures !r[k].outcome.Placed? && !r[k].outcome.Aborted? {
      assert r[k] == round[k];
    }
    forall k | 0 <= k < |r| && r[k].outcome.Skipped? ensures r[k].events == [] {
      if k < |round| {
        assert r[k] == round[k];
      }
    }
  }

  /** What `do_create` keeps about its steps after i complete rounds. */
  ghost predicate Played(steps: seq<Step>, i: nat) {
    && Schedule(steps) && RoundsDone(steps, i)
    && (forall k :: 0 <= k < |steps| ==> steps[k].target < i && !steps[k].outcome.Aborted?)
    && SkipsSilent(steps)
  }

  /** A round played after i complete rounds keeps the schedule and, unless it aborted, completes round i. */
  lemma {:induction false} AppendRoundSchedule(steps: seq<Step>, round: seq<Step>, i: nat)
    requires Schedule(steps) && RoundsDone(steps, i)
    requires RoundShape(round, i)
    ensures Schedule(steps + round)
    ensures !round[|round| - 1].outcome.Aborted? ==> RoundsDone(steps + round, i + 1)
  {
    var s := steps + round;
    forall k | 0 < k < |s| ensures Follows(s[k - 1], s[k]) {
      if k < |steps| {
        assert s[k - 1] == steps[k - 1] && s[k] == steps[k];
        assert Follows(steps[k - 1], steps[k]);
      } else if k == |steps| {
        assert s[k] == round[0];
      } else {
        assert s[k - 1] == round[k - 1 - |steps|] && s[k] == round[k - |steps|];
      }
    }
  }

  /** The per-step facts of a run survive one more round; only its last step can abort. */
  lemma {:induction false} AppendRoundSteps(steps: seq<Step>, round: seq<Step>, i: nat)
    requires forall k :: 0 <= k < |steps| ==> steps[k].target < i && !steps[k].outcome.Aborted?
    requires SkipsSilent(steps)
    requires RoundShape(round, i) && SkipsSilent(round)
    ensures var s := steps + round;
      && SkipsSilent(s)
      && (forall k :: 0 <= k < |s| ==> s[k].target < i + 1)
      && (forall k :: 0 <= k < |s| - 1 ==> !s[k].outcome.Aborted?)
      && s[|s| - 1] == round[|round| - 1]
    ensures !round[|round| - 1].outcome.Aborted? ==>
      var s := steps + round;
      forall k :: 0 <= k < |s| ==> s[k].target < i + 1 && !s[k].outcome.Aborted?
  {
    var s := steps + round;
    forall k | 0 <= k < |s| ensures s[k] == if k < |steps| then steps[k] else round[k - |steps|] {
    }
  }

  /**
   * The body of the inner loop: the attempt at region j in round i, as a
   * step of the run. Only what the loops need of `TryRegion` is restated.
   */
  method PlayStep(args: Args, i: nat, j: nat, reg: ServerGroupList, tokens: TokenSource, attempt: (nat, nat) -> Attempt)
    returns (step: Step)
    requires j < |REGIONS|
    requires Valid(reg.epochs, tokens.next)
    modifies reg, tokens
    ensures Valid(reg.epochs, tokens.next)
    ensures Extends(old(reg.epochs), reg.epochs)
    ensures step.target == i && step.slot == j
    ensures step.outcome.Skipped? ==> step.events == []
    ensures Credited(args, attempt, step)
  {
    ghost var entry;
    var outcome, events;
    outcome, events, entry := TryRegion(args, j, reg, tokens, attempt(i, j));
    AttemptEventsBoots(args, j, NeedsEpoch(old(reg.epochs)), entry, old(tokens.next), attempt(i, j));
    step := Step(i, j, outcome, events);
  }

  /** The bookkeeping of `do_create` after one more round. */
  lemma AppendRound(steps: seq<Step>, round: seq<Step>, i: nat)
    requires Played(steps, i)
    requires RoundShape(round, i) && SkipsSilent(round)
    ensures Trace(steps + round) == Trace(steps) + Trace(round)
    ensures PlacedServers(steps + round) == PlacedServers(steps) +
      if round[|round| - 1].outcome.Placed? then [round[|round| - 1].outcome.server] else []
    ensures !round[|round| - 1].outcome.Aborted? ==> Played(steps + round, i + 1)
    ensures round[|round| - 1].outcome.Aborted? ==>
      var s := steps + round;
      && Schedule(s) && SkipsSilent(s)
      && (forall k :: 0 <= k < |s| ==> s[k].target < i + 1)
      && (forall k :: 0 <= k < |s| - 1 ==> !s[k].outcome.Aborted?)
      && |s| > 0 && s[|s| - 1].outcome.Aborted?
  {
    AppendRoundSchedule(steps, round, i);
    AppendRoundSteps(steps, round, i);
    TraceAppend(steps, round);
    PlacedAppend(steps, round);
    RoundPlaces(round, i);
  }

  /**
   * A run whose steps end as the provider's answers say ends early only at
   * an attempt whose lookup or client switch raises; if no attempt's does,
   * no step ends the run.
   */
  lemma AbortsOnlyOnRefusal(steps: seq<Step>, args: Args, attempt: (nat, nat) -> Attempt)
    requires Schedule(steps) && AllCredited(steps, args, attempt)
    ensures forall k :: 0 <= k < |steps| && steps[k].outcome.Aborted? ==>
      Refuses(attempt(steps[k].target, steps[k].slot))
    ensures (forall i: nat, j: nat :: j < |REGIONS| ==> !Refuses(attempt(i, j))) ==>
      forall k :: 0 <= k < |steps| ==> !steps[k].outcome.Aborted?
    ensures forall k :: 0 <= k < |steps| && !steps[k].outcome.Skipped? && !attempt(steps[k].target, steps[k].slot).switchOk ==>
      steps[k].outcome.Aborted?
  {
    forall k | 0 <= k < |steps| && steps[k].outcome.Aborted?
      ensures Refuses(attempt(steps[k].target, steps[k].slot))
    {
      assert Credited(args, attempt, steps[k]);
    }
  }

  /**
   * The servers a credited run deletes are exactly those of its "No valid
   * host" steps whose delete went through, each in its step's region.
   */
  lemma {:induction false} RunDeletes(steps: seq<Step>, args: Args, attempt: (nat, nat) -> Attempt)
    requires AllCredited(steps, args, attempt)
    ensures forall e :: e in Trace(steps) && e.ServerDeleted? ==>
      exists k :: 0 <= k < |steps| && steps[k].slot < |REGIONS|
        && steps[k].outcome.NoHost? && steps[k].outcome.deleted
        && e == ServerDeleted(REGIONS[steps[k].slot], steps[k].outcome.server.id)
    ensures forall k :: 0 <= k < |steps| && steps[k].slot < |REGIONS| && steps[k].outcome.NoHost? && steps[k].outcome.deleted ==>
      ServerDeleted(REGIONS[steps[k].slot], steps[k].outcome.server.id) in Trace(steps)
    decreases |steps|
  {
    if steps != [] {
      var init, last := steps[..|steps| - 1], steps[|steps| - 1];
      assert AllCredited(init, args, attempt) by {
        forall k | 0 <= k < |init| ensures Credited(args, attempt, init[k]) {
          assert init[k] == steps[k];
        }
      }
      RunDeletes(init, args, attempt);
      assert Credited(args, attempt, last);
      assert Trace(steps) == Trace(init) + last.events;
      forall e | e in Trace(steps) && e.ServerDeleted?
        ensures exists k :: 0 <= k < |steps| && steps[k].slot < |REGIONS|
                              && steps[k].outcome.NoHost? && steps[k].outcome.deleted
                              && e == ServerDeleted(REGIONS[steps[k].slot], steps[k].outcome.server.id)
      {
        if e in Trace(init) {
          var k :| 0 <= k < |init| && init[k].slot < |REGIONS|
            && init[k].outcome.NoHost? && init[k].outcome.deleted
            && e == ServerDeleted(REGIONS[init[k].slot], init[k].outcome.server.id);
          assert steps[k] == init[k];
        } else {
          assert e in last.events;
        }
      }
      forall k | 0 <= k < |steps| && steps[k].slot < |REGIONS| && steps[k].outcome.NoHost? && steps[k].outcome.deleted
        ensures ServerDeleted(REGIONS[steps[k].slot], steps[k].outcome.server.id) in Trace(steps)
      {
        if k < |init| {
          assert steps[k] == init[k];
        }
      }
    }
  }

  lemma CreditedAppend(a: seq<Step>, b: seq<Step>, args: Args, attempt: (nat, nat) -> Attempt)
    requires AllCredited(a, args, attempt) && AllCredited(b, args, attempt)
    ensures AllCredited(a + b, args, attempt)
  {
    var s := a + b;
    forall k | 0 <= k < |s| ensures Credited(args, attempt, s[k]) {
      if k < |a| {
        assert s[k] == a[k];
      } else {
        assert s[k] == b[k - |a|];
      }
    }
  }

  /**
   * What the inner loop of `do_create` keeps about the round so far: the
   * steps played, whether the round is over, the last outcome and the
   * provider calls made.
   */
  ghost predicate Progress(round: seq<Step>, i: nat, done: bool, last: StepOutcome, events: seq<Event>,
                           args: Args, attempt: (nat, nat) -> Attempt) {
    && (!done ==> |round| < |REGIONS| && OpenRound(round, i))
    && (done ==> RoundShape(round, i) && SkipsSilent(round))
    && events == Trace(round)
    && (|round| > 0 ==> last == round[|round| - 1].outcome)
    && AllCredited(round, args, attempt)
  }

  /** One more region attempt: the round ends when it places a server, aborts, or was the last region. */
  lemma Advance(round: seq<Step>, step: Step, i: nat, last: StepOutcome, events: seq<Event>,
                args: Args, attempt: (nat, nat) -> Attempt)
    requires Progress(round, i, false, last, events, args, attempt)
    requires step.target == i && step.slot == |round|
    requires step.outcome.Skipped? ==> step.events == []
    requires Credited(args, attempt, step)
    ensures Progress(round + [step], i,
                     step.outcome.Placed? || step.outcome.Aborted? || |round| == |REGIONS| - 1,
                     step.outcome, events + step.events, args, attempt)
  {
    TraceSnoc(round, step);
    assert AllCredited([step], args, attempt);
    CreditedAppend(round, [step], args, attempt);
    if step.outcome.Placed? || step.outcome.Aborted? || |round| == |REGIONS| - 1 {
      CloseRound(round, step, i);
    } else {
      ExtendRound(round, step, i);
    }
  }

  /**
   * One round of `do_create`: the inner `for region in REGIONS` loop for
   * target index i. `placed` is the server recorded in this round, if any.
   */
  method PlaceTarget(args: Args, i: nat, reg: ServerGroupList, tokens: TokenSource, attempt: (nat, nat) -> Attempt)
    returns (placed: Option<Server>, aborted: bool, events: seq<Event>, ghost round: seq<Step>)
    requires Valid(reg.epochs, tokens.next)
    modifies reg, tokens
    ensures Valid(reg.epochs, tokens.next)
    ensures Extends(old(reg.epochs), reg.epochs)
    ensures RoundShape(round, i)
    ensures aborted <==> round[|round| - 1].outcome.Aborted?
    ensures placed.Some? <==> round[|round| - 1].outcome.Placed?
    ensures placed.Some? ==> placed.value == round[|round| - 1].outcome.server
    ensures events == Trace(round)
    ensures SkipsSilent(round)
    ensures AllCredited(round, args, attempt)
  {
    ExtendsReflexive(reg.epochs);
    events, round := [], [];
    var j := 0;
    var done := false;
    var last: StepOutcome := Skipped;
    while !done
      invariant j <= |REGIONS| && |round| == j
      invariant Valid(reg.epochs, tokens.next)
      invariant Extends(old(reg.epochs), reg.epochs)
      invariant Progress(round, i, done, last, events, args, attempt)
      decreases |REGIONS| - j
    {
      ghost var before := reg.epochs;
      var step := PlayStep(args, i, j, reg, tokens, attempt);
      ExtendsTransitive(old(reg.epochs), before, reg.epochs);
      Advance(round, step, i, last, events, args, attempt);
      done := step.outcome.Placed? || step.outcome.Aborted? || j == |REGIONS| - 1;
      round := round + [step];
      events := events + step.events;
      last := step.outcome;
      j := j + 1;
    }
    aborted := last.Aborted?;
    placed := if last.Placed? then Some(last.server) else None;
  }

  /**
   * `do_create(shell, args)`: for every target index, try the regions in
   * catalog order until one yields an ACTIVE server. `attempt(i, j)` is how
   * the provider behaves in round i at the j-th region. `steps` records
   * every region attempt; `aborted` tells that an exception escaped.
   */
  method DoCreate(args: Args, reg: ServerGroupList, tokens: TokenSource, attempt: (nat, nat) -> Attempt)
    returns (servers: seq<Server>, aborted: bool, trace: seq<Event>, ghost steps: seq<Step>)
    requires Valid(reg.epochs, tokens.next)
    modifies reg, tokens
    ensures Valid(reg.epochs, tokens.next)
    ensures Extends(old(reg.epochs), reg.epochs)
    ensures Schedule(steps)
    ensures forall k :: 0 <= k < |steps| ==> steps[k].target < Targets(args)
    ensures aborted <==> |steps| > 0 && steps[|steps| - 1].outcome.Aborted?
    ensures forall k :: 0 <= k < |steps| - 1 ==> !steps[k].outcome.Aborted?
    ensures !aborted ==> RoundsDone(steps, Targets(args))
    ensures servers == PlacedServers(steps)
    ensures |servers| <= Targets(args)
    ensures trace == Trace(steps)
    ensures SkipsSilent(steps)
    // every attempt ends as the provider's answers say, so the run ends early only at a call that raised
    ensures AllCredited(steps, args, attempt)
    // with a cloud-init script or a public IP requested, no server is ever recorded
    ensures HasCloudInit(args) || args.assignPublicIp ==> servers == []
  {
    servers, aborted, trace, steps := [], false, [], [];
    ExtendsReflexive(reg.epochs);
    var n := Targets(args);
    for i := 0 to n
      invariant Valid(reg.epochs, tokens.next)
      invariant Extends(old(reg.epochs), reg.epochs)
      invariant Played(steps, i)
      invariant servers == PlacedServers(steps) && |servers| <= i
      invariant trace == Trace(steps)
      invariant AllCredited(steps, args, attempt)
      invariant HasCloudInit(args) || args.assignPublicIp ==> servers == []
    {
      ghost var before := reg.epochs;
      var placed, roundAborted, events, round := PlaceTarget(args, i, reg, tokens, attempt);
      ExtendsTransitive(old(reg.epochs), before, reg.epochs);
      AppendRound(steps, round, i);
      CreditedAppend(steps, round, args, attempt);
      steps := steps + round;
      trace := trace + events;
      if placed.Some? {
        PlacedPlainly(args, attempt, round[|round| - 1]);
        servers := servers + [placed.value];
      }
      if roundAborted {
        aborted := true;
        return;
      }
    }
  }
}
