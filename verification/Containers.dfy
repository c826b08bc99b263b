/** The values that travel through dockertest: what a user asks for (a composition), what the daemon
    answers with (a pending container), and what a test body gets (an operational container).
    Fields that no modelled operation reads are left out. */
module Containers {
  /** Text that is copied and compared for equality but never taken apart: container names, handles,
      environment variables. */
  type Text(==, !new)

  type Name = Text
  type Handle = Text

  /** What the daemon calls a container. */
  type Id(==, !new)

  type NetworkName(==, !new)

  datatype Option<+T> = None | Some(value: T)

  datatype Result<+T, +E> = Success(value: T) | Failure(error: E)

  datatype Error =
    | Startup(text: string)
    | Daemon(text: string)
    | Processing(text: string)
    | TestBody(text: string)

  datatype StartPolicy = Relaxed | Strict

  datatype Management = External | Internal | Dynamic

  datatype Network = Singular | ExternalNetwork(name: NetworkName) | Isolated

  datatype Composition = Composition(
    userName: Option<Name>,
    repository: Text,
    containerName: Name,
    startPolicy: StartPolicy,
    management: Option<Management>,
    env: map<Text, Text>,
    injectContainerNameEnv: seq<(Handle, Text)>)
  {
    /** The key under which a test body asks for the container. */
    function GetHandle(): Handle {
      match userName
      case None => repository
      case Some(n) => n
    }

    predicate IsStatic() {
      management.Some?
    }
  }

  datatype PendingContainer = PendingContainer(
    name: Name,
    id: Id,
    handle: Handle,
    startPolicy: StartPolicy,
    isStatic: bool,
    management: Option<Management>)

  /** What inspecting a container reports; an exited container has no address. */
  datatype Address = Unspecified | Address(ip: string, ports: map<nat, (string, nat)>)

  datatype OperationalContainer = OperationalContainer(
    name: Name,
    id: Id,
    handle: Handle,
    isStatic: bool,
    address: Address)

  datatype StaticExternal = StaticExternal(handle: Handle, id: Id)

  datatype CreatedContainer =
    | CreatedExternal(external: StaticExternal)
    | CreatedPending(pending: PendingContainer)

  /** The pending container built from a composition once the daemon has assigned an id. */
  function PendingOf(c: Composition, id: Id): PendingContainer {
    PendingContainer(c.containerName, id, c.GetHandle(), c.startPolicy, c.management.Some?, c.management)
  }

  /** What a user asks for the container of a composition by: the name given to it, or without one its repository. */
  predicate GoesBy(c: Composition, h: Handle) {
    c.userName == Some(h) || (c.userName.None? && c.repository == h)
  }

  /** `p` is container `id`, made as `c` asks for. */
  predicate MadeFrom(c: Composition, id: Id, p: PendingContainer) {
    && p.id == id && p.name == c.containerName && p.startPolicy == c.startPolicy && GoesBy(c, p.handle)
    && p.management == c.management && (p.isStatic <==> c.management.Some?)
  }

  /** `r` is the container `p`. */
  predicate RunsAs(p: PendingContainer, r: OperationalContainer) {
    r.id == p.id && r.name == p.name && r.handle == p.handle && r.isStatic == p.isStatic && r.address == Unspecified
  }

  /** A container that passed its wait condition keeps its identity; its address is not known yet. */
  function OperationalOf(p: PendingContainer): OperationalContainer {
    OperationalContainer(p.name, p.id, p.handle, p.isStatic, Unspecified)
  }
}
