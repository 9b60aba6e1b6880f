/**
 * The compute provider as the placement core sees it: the values it hands
 * back, the calls the core makes into it (recorded as events), and the
 * source of fresh names and ids.
 *
 * Every `uuid.uuid4()` the script draws and every id the provider assigns
 * to a new group or server is modelled as a token from one counter, so
 * "fresh" means "never drawn before".
 */
module Cloud {

  datatype Option<+T> = None | Some(value: T)

  /** A name built as `prefix + str(uuid4())`, the uuid abstracted to a token. */
  datatype Name = Name(prefix: string, token: nat)

  /** A server group as returned by the provider. */
  datatype Group = Group(id: nat, name: Name)

  /**
   * The `fault` attribute of a server object: absent (read as the empty
   * string), or a dictionary that may or may not hold a "message" key.
   */
  datatype FaultAttr = NoFault | FaultDict(message: Option<string>)

  /** A server object as returned by `servers.create`. */
  datatype Server = Server(id: nat, name: Name, fault: FaultAttr)

  /** The network, flavor and image ids a region's servers are booted with. */
  datatype Resources = Resources(flavor: string, network: string, image: string)

  /** The arguments of one `servers.create` call. */
  datatype BootRequest = BootRequest(name: Name, keypair: string, group: nat, resources: Resources)

  /** The provider calls that take effect, in the order they are made. */
  datatype Event =
    | ClientSwitched(region: string)
    | GroupsPurged(region: string)
    | GroupCreated(region: string, group: Group)
    | ServerBooted(region: string, request: BootRequest, id: nat)
    | FloatingIpAllocated(region: string)
    | ServerDeleted(region: string, id: nat)

  /**
   * How the provider answers the calls made in one region while a new
   * generation of groups is built: the client switch, the group listing and
   * the group creation each may raise.
   */
  datatype GroupStep = GroupsOk | SwitchRaises | ListRaises | GroupCreateRaises

  /** How the provider answers one `servers.create`. */
  datatype BootReply = BootRaises | BootReturns(fault: FaultAttr)

  /** The uuid generator and the provider's id allocator, as one counter. */
  class TokenSource {
    var next: nat

    constructor ()
      ensures next == 0
    {
      next := 0;
    }

    method Draw() returns (t: nat)
      modifies this
      ensures t == old(next) && next == old(next) + 1
    {
      t := next;
      next := next + 1;
    }
  }
}
