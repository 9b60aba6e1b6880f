# nova anti-affinity placement, modelled in Dafny

`anti_affinity.py` boots N servers across three cloud regions. It puts each
server into a per-region anti-affinity server group and fails over from
region to region when a region has no capacity left. This project models its
placement core and proves properties of that model. The core has four parts:

- **Server-group registry** (`registry.dfy`). `SERVER_GROUP_LIST` is an
  append-only list of epochs. Each epoch maps every catalog region to
  `{group, is_full}`. `_find_server_group` is the method
  `ServerGroupList.FindServerGroup`, which appends a new epoch only when the
  list is empty or every flag of the last epoch is set. The flag update
  `SERVER_GROUP_LIST[-1][region]["is_full"] = True` is
  `ServerGroupList.MarkFull`. The pure functions `Refreshed` and `MarkedFull`
  specify both operations, and lemmas prove what they do.
- **Orchestrator** (`orchestrator.dfy`). `do_create` is `DoCreate`:
  - its outer loop over target indices runs in `DoCreate`, and its inner loop
    over regions in `PlaceTarget`;
  - one region attempt is `TryRegion`: look up the group, skip a full group,
    switch the client, create, poll, classify;
  - `_create_server` is `CreateServer`.
- **Status poller** (`poller.dfy`). `call_until_true` is `CallUntilTrue`, a
  `while` loop over an integer clock. It is proved equal to the recursive
  definition `Run`, and lemmas characterise `Run`. `_check_server_status` is
  `CheckServerStatus`.
- **Region constants** (`regions.dfy`). This is the derivation
  `region.replace('-', '_').upper()` followed by `_FLAVOR_ID`, `_NETWORK_ID`
  or `_IMAGE_ID`. It is proved to name a defined constant for every region in
  `REGIONS`.

`classify.dfy` holds the branch `do_create` takes on a status response.
`cloud.dfy` holds the provider's values and the events that record the
provider calls the core makes.

**How the provider is modelled.** The provider is never called. What it
answers is an input:
- `attempt(i, j)` describes round `i`, region `j`. It gives the answers of the
  group calls, the client switch, `servers.create`, the floating-IP
  allocation and `servers.delete`.
- The successive statuses `servers.get` reports are a function of the call
  number.
- The clock lag of each poll round is also a function of the round.

The effects of the core are the events it emits: a client switched, groups
purged, a group created, a server booted, a floating IP allocated, a server
deleted. Fresh uuids and provider ids are tokens drawn from one counter
(`TokenSource`), so "fresh" means "never drawn before".

**Behaviour as written.** The model follows the code in several places where
it departs from the tool's documented intent:

- **Lookup and client-switch exceptions end the run.** The group lookup
  (`anti_affinity.py:274`), the client switch (`anti_affinity.py:281`) and the
  constant lookups sit before the `try` at `anti_affinity.py:288`. An
  exception from the lookup (listing or creating groups) or from the switch
  therefore leaves `do_create` altogether: the run ends with an `Aborted`
  step. `do_create` does not log it (the traceback `main` prints at `anti_affinity.py:235-240` is outside the model), and the next region is not tried. Only failures
  inside the `try` are absorbed.
- **The group purge does not swallow every error.** Only the purge's
  per-group delete is guarded. A failing client switch or group listing while
  a new epoch is built escapes. The groups created so far stay at the
  provider, and the registry is unchanged.
- **The fault is read from the stale server object.** On a timeout, the fault
  comes from the object `servers.create` returned, not from the last status
  fetched (`anti_affinity.py:361`).
- **A fault with no message is absorbed.** An empty fault, or a fault with no
  `message`, makes the subscript at `anti_affinity.py:305` raise. The `except`
  absorbs it, so a pure timeout is only logged.
- **The cloud-init and public-IP options fail.** `_create_server` uses two
  undefined names:
  - With a cloud-init path, `boot_kwargs` (`anti_affinity.py:381`) raises
    before any server exists.
  - With a public IP requested, the server and the floating IP are created,
    then `sleep` (`anti_affinity.py:397`) raises. The server is left behind
    and never recorded.

  `DoCreate` therefore proves that with either option no server is ever
  recorded.

## Model

| member | source | states |
|---|---|---|
| Cloud.TokenSource.Draw | anti_affinity.py:327 | a draw returns the counter and advances it by one, so every name and id drawn is new; this stands in for `uuid.uuid4()` and the provider's id allocation |
| Regions.UpperChar | anti_affinity.py:283 | `upper()` on one character: a lower-case ASCII letter moves down by 32, any other character is kept, and the result is never lower case |
| Regions.CapitalRegion | anti_affinity.py:283 | definition: `replace('-', '_')` then `upper()`, character by character; its properties are `CapitalRegionCanonical` |
| Regions.GetAttr | anti_affinity.py:284-286 | definition: `getattr(shell, name)` as a lookup in the table of class constants at anti_affinity.py:74-84, `None` for a name the class does not define (the `AttributeError`) |
| Regions.RegionResources | anti_affinity.py:283-286 | definition: the three lookups for a region, `None` when any of them raises |
| Regions.CapitalRegionCanonical | anti_affinity.py:283 | the derived prefix is as long as the region name; each `-` becomes `_` and each other character is upper-cased; no dash and no lower-case letter remain |
| Regions.RegionConstantsDefined | anti_affinity.py:283-286 | for every region of `REGIONS`, none of the three lookups raises, and the values are that region's constants; it rests on one lemma per region (`HamiltonPrefix`, `HamiltonConstants`, `HamiltonResolves` and their `Porirua` and `Wellington` counterparts), which state the derived prefix (`NZ_HLZ_1`, `NZ_POR_1`, `NZ_WLG_2`), that each prefix with each of the three suffixes names a class constant of anti_affinity.py:74-84, and the three ids the region gets |
| Regions.ResolveResources | anti_affinity.py:283-286 | the lookups of a catalog region return exactly the resources the derivation names |
| Classify.ContainsIsOccurs | anti_affinity.py:305 | the substring search is true exactly when the pattern occurs at some offset of the text, which is the meaning of Python's `in` |
| Classify.Contains | anti_affinity.py:305 | definition of Python's substring test `p in s`, by recursion on the text; characterised by `ContainsIsOccurs` |
| Classify.ClassifyResponse | anti_affinity.py:299-316 | the verdict is active exactly when the response is; "No valid host" exactly when the response is inactive and its fault `SaysNoValidHost` (a message containing that text); unreadable exactly when the response is inactive and its fault is `Unreadable` (empty or without a message); otherwise another fault |
| Classify.Unreadable | anti_affinity.py:305 | definition: the fault is the empty string or a dictionary without `"message"`, so the subscript raises |
| Poller.ClockAdvances | anti_affinity.py:411-412 | clock readings never go back, and two calls of `func` are at least `sleep_for` apart |
| Poller.ClockAt | anti_affinity.py:406-412 | definition: the clock reading before call k is the start plus, for each earlier round, `sleep_for` and that round's lag |
| Poller.Run | anti_affinity.py:405-413 | definition of `call_until_true` as a recursion on the call number: stop with False once the clock reaches `now + duration`, with True at the first true answer, with an exception at the first call that raises; characterised by `RunTrueIff`, `RunShape` and `ClockAdvances` |
| Poller.RunTrueIff | anti_affinity.py:405-413 | the poll returns True exactly when some call made before the deadline returns true and every earlier call returned false |
| Poller.RunShape | anti_affinity.py:405-413 | every call is made before the deadline; False comes only once the clock has reached the deadline, after only false answers; a True or an exception comes from the last call |
| Poller.CallUntilTrue | anti_affinity.py:405-413 | the `while` loop ends with the outcome and call count of `Run`; False only once `now >= start + duration`; True only when the last call returned true |
| Poller.StatusProbe | anti_affinity.py:353-354 | definition of `check()`: true exactly when the fetched status is `"ACTIVE"`, an exception when the fetch raises |
| Poller.CheckServerStatus | anti_affinity.py:351-361 | active exactly when an ACTIVE status is seen within 60 seconds of 3-second polls; the response is tied to the outcome of `Run`: no response when it raised, `{active: True, fault: ""}` when it returned True, and `{active: False}` with the fault of the server object handed in when it returned False, which comes only after the deadline with every status not ACTIVE |
| Registry.RegionsDistinct | anti_affinity.py:46 | the three catalog regions are pairwise distinct |
| Registry.FreshEpoch | anti_affinity.py:327-343 | definition: every catalog region mapped to a group named `"AF-"` plus the drawn token, with the id drawn for it in catalog order, not full; characterised by `FreshEpochShape` |
| Registry.EpochEvents | anti_affinity.py:329-342 | definition: for each of the first k catalog regions in order, the client switch, the purge and the creation of its group under the shared name with its own id |
| Registry.BuildEvents | anti_affinity.py:329-342 | definition: the calls of every region before the first whose calls raise, then that region's calls up to the raising one (none for a raising switch, the switch for a raising listing, the switch and the purge for a raising create) |
| Registry.BuildTouchesNoServer | anti_affinity.py:329-342 | building an epoch, whole or in part, neither boots nor deletes a server |
| Registry.NeedsEpoch | anti_affinity.py:325 | definition of the guard: the list is empty, or every entry of its last epoch is full |
| Registry.Exhausted | anti_affinity.py:325 | definition of `all(region["is_full"] for ...)` over an epoch's entries, true for an epoch with no entries |
| Registry.Refreshed | anti_affinity.py:325-346 | definition of a successful lookup's effect on the list: append `FreshEpoch` when `NeedsEpoch` holds, otherwise no change; characterised by `RefreshedSpec` |
| Registry.MarkedFull | anti_affinity.py:310 | definition of the flag update on the last epoch; characterised by `MarkedFullSpec` |
| Registry.FirstRefusal | anti_affinity.py:329-342 | the index of the first region, from k on, whose switch, listing or create raises (the catalog length if none): every region before it answers, and the one at it does not |
| Registry.BuildFailsIff | anti_affinity.py:327-345 | a build fails exactly when some region's calls raise; a build that does not fail makes the full sequence of calls |
| Registry.PartialEpochShape | anti_affinity.py:329-343 | after the first k regions, the epoch under construction holds exactly those regions, each not full, under the shared name and with its own id |
| Registry.FreshEpochShape | anti_affinity.py:327-346 | a new epoch holds one group per catalog region, none of them full, all named `"AF-"` plus one fresh token, with distinct ids drawn after the name |
| Registry.FreshEntry | anti_affinity.py:343 | every catalog region has an entry in a new epoch, and that entry is not full |
| Registry.AppendFreshValid | anti_affinity.py:346 | appending a new epoch keeps every epoch well formed and every token below the counter |
| Registry.RefreshedSpec | anti_affinity.py:325-348 | a lookup appends exactly one epoch when the list is empty or its last epoch is exhausted, and none otherwise; the list stays valid, earlier epochs are untouched, and the last epoch afterwards is not exhausted |
| Registry.RefreshedFresh | anti_affinity.py:327 | the groups of a new epoch share neither name nor id with any group of an earlier epoch |
| Registry.LookupIdempotent | anti_affinity.py:325-348 | a second lookup right after a successful one leaves the list as it is |
| Registry.MarkedFullSpec | anti_affinity.py:310 | marking a region full sets that flag of the last epoch; every other entry and every earlier epoch is unchanged, and groups keep their identity |
| Registry.MarkedFullValid | anti_affinity.py:310 | marking a region full keeps the list valid |
| Registry.MarkedFullIdempotent | anti_affinity.py:310 | marking a region full twice is marking it once |
| Registry.LastRegionFullExhausts | anti_affinity.py:310 | marking full the last region of the current epoch that was not full makes the next lookup build a new epoch |
| Registry.MarkedRegionStaysFull | anti_affinity.py:274-278 | after a region is marked full, the next lookup returns a full entry for it exactly when some other region of that epoch is still free; otherwise a new epoch comes with that region free again |
| Registry.BuildEpoch | anti_affinity.py:327-345 | the epoch is built exactly when every region answers the switch, list and create calls, and it is then the new epoch of the drawn tokens; built or not, the calls are a switch, a purge and a create per region in catalog order up to the first region that raises, then that region's calls up to the one that raised, and the counter has advanced by the name token plus one id per group created, so the groups created before the exception stay at the provider |
| Registry.ServerGroupList.constructor | anti_affinity.py:48 | the registry starts empty |
| Registry.ServerGroupList.FindServerGroup | anti_affinity.py:323-348 | with a current epoch that is not exhausted, the list, counter and calls are untouched and the entry returned is that epoch's entry for the region; otherwise a new epoch is appended, or the list is unchanged and the exception escapes exactly when some region's calls fail; either way the build's calls and token draws are those of `BuildEpoch`, including the groups created before a failure; an entry from a new epoch is not full |
| Registry.ServerGroupList.AppendEpoch | anti_affinity.py:325-346 | the new epoch is appended exactly when every region's calls succeed, otherwise the list is unchanged; the calls made and the counter are those of `BuildEpoch`, on success and on failure; the list stays valid |
| Registry.ServerGroupList.MarkFull | anti_affinity.py:310 | the list becomes `MarkedFull` of the old list |
| Orchestrator.CreateServer | anti_affinity.py:364-402 | with a cloud-init path, or when `servers.create` raises, nothing is created and no token is drawn; otherwise one server is booted in the group with the region's resources, plus a floating IP when a public IP is requested and the allocation succeeds; with a public IP the call raises after the boot |
| Orchestrator.Launch | anti_affinity.py:289-294 | the server is named with the name prefix and a fresh token; `_create_server` returns a server to poll (`Booted`) exactly when neither option is given and `servers.create` returns; with a public IP the server is booted and then the call raises; the calls are exactly `LaunchEvents`: none when the call raises before the boot, otherwise the boot in the group with the region's resources, then the floating IP when a public IP is requested and the pool gives one |
| Orchestrator.HasCloudInit | anti_affinity.py:380 | definition of the truthiness of `path_cloud_init_script`: present and not empty |
| Orchestrator.Targets | anti_affinity.py:272 | definition: the number of rounds `range(SERVERS_NUMBER)` makes, none for a negative count |
| Orchestrator.Succeeds | anti_affinity.py:288-304 | definition of the provider answers under which an attempt records a server: neither option, `servers.create` returns, and a status before the deadline is ACTIVE |
| Orchestrator.PollFate | anti_affinity.py:296-316 | definition of the branch the poll and the create-time fault select: the poll raised, it saw ACTIVE, or it timed out and the fault says "No valid host", is unreadable, or is another fault |
| Orchestrator.Meets | anti_affinity.py:299-318 | definition of the outcome each fate leads to: recorded for ACTIVE, marked full with the delete as the provider answers for "No valid host", logged for every other fate |
| Orchestrator.BootCount | anti_affinity.py:289-294 | definition: the number of `ServerBooted` calls in a sequence of calls |
| Orchestrator.BootedServer | anti_affinity.py:289-294 | definition: the server a returning `servers.create` yields, named with the name prefix and the next token and given the token after it as id |
| Orchestrator.LaunchEvents | anti_affinity.py:364-402 | definition of the calls of `_create_server`: none when a cloud-init path or `servers.create` raises first, otherwise the boot, then the floating IP when a public IP is requested and the allocation succeeds |
| Orchestrator.SettleEvents | anti_affinity.py:305-311 | definition of the calls after the poll: the delete of the server, only when the stale fault says "No valid host" and the delete succeeds |
| Orchestrator.TryEvents | anti_affinity.py:288-318 | definition of the calls of the `try` block: `LaunchEvents`, then `SettleEvents` for a server returned to be polled |
| Orchestrator.SlotResources | anti_affinity.py:283-286 | the resources of the catalog region at a position are the ones its three lookups yield |
| Orchestrator.AttemptEvents | anti_affinity.py:273-318 | definition of the calls of one attempt: the epoch build when one is needed; nothing more when it fails, when the entry is full or when the switch raises; otherwise the switch and `TryEvents` with the tokens left after the build |
| Orchestrator.TryEventsBoots | anti_affinity.py:288-318 | the `try` block boots exactly one server, in its region, when its fate is not `NoBoot`, and none otherwise |
| Orchestrator.AttemptEventsBoots | anti_affinity.py:273-318 | an attempt boots only in its own region, and exactly one server when its lookup succeeds, its entry is not full, its switch succeeds and its fate is not `NoBoot`; none otherwise |
| Orchestrator.Concludes | anti_affinity.py:288-318 | definition of how an attempt that reaches the `try` ends in a group: as `AttemptFate` says, recording a server exactly when `Succeeds`, under the name prefix; a recorded or "No valid host" server booted in that group with the region's resources; the only delete that server's, as the last call |
| Orchestrator.ConcludesAfterLookup | anti_affinity.py:274-318 | the calls of the lookup, which boot and delete nothing, leave what an attempt `Concludes` unchanged |
| Orchestrator.AttemptEventsAfterLookup | anti_affinity.py:273-318 | the lookup's calls followed by the switch and the `try` block's calls are the attempt's calls `AttemptEvents` |
| Orchestrator.AttemptFate | anti_affinity.py:288-318 | definition of how an attempt that reaches the `try` ends, from the provider's answers alone: no boot (cloud-init path, or `servers.create` raised), server left behind (public IP), or by the poll: raised, ACTIVE, "No valid host" in the stale fault, fault unreadable, other fault |
| Orchestrator.FateActiveIff | anti_affinity.py:288-304 | an attempt's fate is ACTIVE exactly when neither option is given, `servers.create` returns and some poll before the deadline sees ACTIVE |
| Orchestrator.Inspect | anti_affinity.py:296-316 | the branch taken on the poll: active exactly when some status before the deadline is ACTIVE; a raised poll, and each verdict, is the fate `PollFate` names; "No valid host" only when the stale fault's message contains it; unreadable only when the fault is empty or has no message |
| Orchestrator.Settle | anti_affinity.py:296-318 | the outcome is the one the poll and the stale fault determine (`Meets` of `PollFate`): recorded exactly when the poll sees ACTIVE; a timed-out poll whose fault `SaysNoValidHost` marks the region full in the last epoch and deletes the server when the provider's delete succeeds, and conversely; a raised poll, an `Unreadable` fault and any other fault are only logged, changing no flag; the calls are exactly `SettleEvents` |
| Orchestrator.PlaceInGroup | anti_affinity.py:288-318 | the outcome is the one `AttemptFate` determines from the provider's answers (in both directions): recorded exactly when neither option is given, `servers.create` returns and the poll sees ACTIVE; with neither option, a returned boot and a timed-out poll whose stale fault says "No valid host", the region is marked full and the server deleted when the delete succeeds; the other fates are only logged; a recorded or "No valid host" server is the one this attempt named and booted; the calls are exactly `TryEvents` for the attempt's answers and the next token; only the "No valid host" case changes the registry |
| Orchestrator.SwitchAndPlace | anti_affinity.py:280-318 | the run ends exactly when the client switch raises, then with no call and no change; otherwise the attempt `Concludes` in the given group: the outcome `AttemptFate` determines, a recorded or "No valid host" server booted in this region and group with the region's resources, and the only delete that server's, as the last call; the calls are exactly the client switch followed by `TryEvents`, or none when the switch raises |
| Orchestrator.TryRegion | anti_affinity.py:273-318 | the region is skipped exactly when its entry in the current epoch is full, and then no provider call is made; an attempt that is not skipped ends the run exactly when a needed epoch build fails or the client switch raises, leaving the old list in the first case and the refreshed list in the second; the entry used is the current epoch's, or the new epoch's when one is built; any other attempt `Concludes` in that entry's group; a "No valid host" outcome marks the region in the refreshed list; the calls are exactly `AttemptEvents`, so a skipped or aborted attempt boots and deletes nothing |
| Orchestrator.RoundsAscend | anti_affinity.py:272-273 | in the loop order, round indices never decrease, and a step that records a server is followed only by steps of later rounds |
| Orchestrator.Follows | anti_affinity.py:272-273 | definition: after an attempt comes the next region of the same round, or the first region of the next round once a server was recorded (the `break` at anti_affinity.py:304) or the last region was tried |
| Orchestrator.Schedule | anti_affinity.py:272-273 | definition of the nested-loop order: the first attempt is round 0, region 0, and each attempt `Follows` the one before |
| Orchestrator.PlacedServers | anti_affinity.py:271-303 | definition: the servers of the steps that saw ACTIVE, in order, as `servers.append` collects them |
| Orchestrator.PlacedEndsRound | anti_affinity.py:299-304 | first success wins: after a step that records a server, no further region is tried in that round |
| Orchestrator.PlacedPerRound | anti_affinity.py:272-304 | each round records at most one server |
| Orchestrator.RoundPlaces | anti_affinity.py:299-304 | a round records the server of its last step when that step saw ACTIVE, and nothing else |
| Orchestrator.Credited | anti_affinity.py:273-318 | definition of a step that ends as its attempt's answers say: an abort only at a raising lookup or switch and always at a raising switch, any other non-skipped outcome as `AttemptFate` determines, a recorded or "No valid host" server booted by the step in its region, a delete only of a "No valid host" server whose delete went through; every boot of the step is in its region, and it boots exactly one server when it is neither skipped nor aborted and its fate is not `NoBoot`, none otherwise |
| Orchestrator.PlayStep | anti_affinity.py:273-318 | one attempt of the inner loop as a step of the run: its round and region, no call when skipped, and the step credited to the attempt's answers (`Credited`: the run ends only at a raising lookup or switch and always at a raising switch; any other non-skipped outcome is the one `AttemptFate` determines; a recorded or "No valid host" server is one the step booted in that region; the step deletes only on "No valid host", and then that server; it boots one server, in its region, exactly when it reaches the boot, and none otherwise) |
| Orchestrator.PlaceTarget | anti_affinity.py:273-318 | the inner loop tries regions in catalog order and stops at the first recorded server, at an exception that ends the run, or after the last region; it returns that server and the round's calls; a skipped region makes no call; every step is credited to its attempt's answers as in `PlayStep`, including which servers it boots and deletes |
| Orchestrator.DoCreate | anti_affinity.py:265-318 | the attempts follow the nested-loop order over `SERVERS_NUMBER` rounds, and only the last step can end the run early; the servers are those recorded, at most one per round and at most `SERVERS_NUMBER`; the calls are the steps' calls in order, and every step is credited to its attempt's answers as in `PlayStep`, so each step boots at most one server, in its region, and deletes only as `RunDeletes` says; with a cloud-init path or a public IP none is recorded; registry flags are only ever set |
| Orchestrator.RecordedServersSucceeded | anti_affinity.py:299-303 | every server a credited run records comes from an attempt whose create returned and whose poll saw ACTIVE |
| Orchestrator.AbortsOnlyOnRefusal | anti_affinity.py:274-288 | a credited run ends early only at an attempt whose group lookup or client switch raised, and an attempt that is not skipped and whose switch raises does end it; when no attempt's lookup or switch raises, no step ends the run |
| Orchestrator.RunDeletes | anti_affinity.py:305-311 | the servers a credited run deletes are exactly the "No valid host" servers whose delete went through, each in the region of its step |

## Left out

- Command-line handling (`get_base_parser`, `get_subcommand_parser`, `main`, the `@arg` decorator, help) is not modelled: it holds no placement logic. `args` is the value `Args`. The assignment `args.OS_REGION_NAME = region` becomes passing the region to the calls.
- `init_client` and `prepare_log` are foreign session and logging setup. A client switch is an oracle answer that succeeds or raises.
- Logging calls are not modelled. An outcome that is only logged is an `Absorbed` step.
- The `pdb.set_trace()` breakpoints are debugging artefacts and are modelled as doing nothing.
- `print_list` is output formatting and is not modelled.
- `server_groups.create` is called with the policy `'anti-affinity'` (anti_affinity.py:342). `GroupCreated` records the region and the group, not the policy argument.
- The stale-group purge is one `GroupsPurged` event per region. Which groups it deletes, and the delete errors it swallows, are not modelled.
- The block-device mapping of `servers.create` is not modelled. The boot request records the name, keypair, group and resources; the network id that the `nics` argument passes is `resources.network`, and the image and flavor ids are the other two resources.
- `server.add_floating_ip` is never reached, because `sleep` raises first, so it is not modelled.
- `uuid.uuid4()` and provider ids are counter tokens. Their text is not modelled.
- `time.time()` and `time.sleep()` become an integer clock. The clock advances by the sleep plus an environment-chosen lag per round. Fractional seconds are not modelled.
- `TIMEOUT = 300` is declared but the status poll does not use it; the poll runs for 60 seconds, so the constant is not modelled.
- Regions.UpperChar: models only ASCII case mapping, because the region names and constant names are ASCII.
- Orchestrator.PlayStep: its contract ties each step's outcome to the attempt's answers but not to the registry. That a skip happens exactly at a full entry, and the per-attempt registry relations, are proved for `TryRegion` and not restated in the run's steps.
- Orchestrator.PlaceTarget: a `Skipped` step is not tied to the registry state at that point of the loop, because the round's steps do not record the list; `TryRegion` states the skip condition per attempt.
- Orchestrator.DoCreate: a `Skipped` step is not tied to the registry state at that point of the run, for the same reason as in `PlaceTarget`; aborts and every other outcome are tied to the attempt's answers.
