/** The part of the docker daemon that the container registries act on. Whether a request succeeds is
    the daemon's choice, so every request takes the daemon's reply as an argument. */
module Docker {
  import opened Containers

  /** created: every id ever handed out, with the name it was created under;
      removals: the removal requests issued, per id;  removed: the ids that are really gone;
      links: which container is attached to which network;
      starts: the start requests issued, per id. */
  datatype State = State(
    created: map<Id, Name>,
    removals: multiset<Id>,
    removed: set<Id>,
    links: set<(Id, NetworkName)>,
    starts: multiset<Id>)
  {
    function Create(id: Id, name: Name): State {
      this.(created := created[id := name])
    }

    function Connect(id: Id, network: NetworkName): State {
      this.(links := links + {(id, network)})
    }

    /** Removing every link between one of `ids` and `network`. */
    function Disconnect(ids: set<Id>, network: NetworkName): State {
      this.(links := set l | l in links && !(l.0 in ids && l.1 == network))
    }

    function Start(id: Id): State {
      this.(starts := starts + multiset{id})
    }

    /** A removal request; when the daemon honours it the container loses its network attachments. */
    function Remove(id: Id, honoured: bool): State {
      if honoured then
        this.(removals := removals + multiset{id}, removed := removed + {id}, links := set l | l in links && l.0 != id)
      else
        this.(removals := removals + multiset{id})
    }
  }

  const EMPTY := State(map[], multiset{}, {}, {}, multiset{})

  datatype Reply = Accepted | Refused(error: Error)

  /** The connection to the daemon. */
  class Client {
    var state: State

    constructor (state: State)
      ensures this.state == state
    {
      this.state := state;
    }

    /** `create_container_inner` for a static composition: ids the daemon hands out are never reused. */
    method CreateContainer(c: Composition, reply: Result<Id, Error>) returns (r: Result<PendingContainer, Error>)
      requires reply.Success? ==> reply.value !in state.created
      modifies this
      ensures reply.Success? ==>
                && r == Success(PendingOf(c, reply.value)) && MadeFrom(c, reply.value, r.value)
                && state == old(state).Create(reply.value, c.containerName)
      ensures reply.Failure? ==> r == Failure(reply.error) && state == old(state)
    {
      match reply {
        case Success(id) =>
          state := state.Create(id, c.containerName);
          r := Success(PendingOf(c, id));
        case Failure(e) =>
          r := Failure(e);
      }
    }

    method AddContainerToNetwork(id: Id, network: NetworkName, reply: Reply) returns (r: Reply)
      modifies this
      ensures r == reply
      ensures state == if reply.Accepted? then old(state).Connect(id, network) else old(state)
    {
      if reply.Accepted? {
        state := state.Connect(id, network);
      }
      r := reply;
    }

    /** Start request followed by the wait condition, which keeps the identity of the container or fails. */
    method StartContainer(p: PendingContainer, reply: Reply) returns (r: Result<OperationalContainer, Error>)
      modifies this
      ensures state == old(state).Start(p.id)
      ensures r == if reply.Accepted? then Success(OperationalOf(p)) else Failure(reply.error)
      ensures r.Success? ==> RunsAs(p, r.value)
    {
      state := state.Start(p.id);
      if reply.Accepted? {
        r := Success(OperationalOf(p));
      } else {
        r := Failure(reply.error);
      }
    }

    /** Failures are only logged; `honoured` says whether the daemon complied. */
    method DisconnectContainer(id: Id, network: NetworkName, honoured: bool)
      modifies this
      ensures state == if honoured then old(state).Disconnect({id}, network) else old(state)
    {
      if honoured {
        state := state.Disconnect({id}, network);
      }
    }

    /** Failures are only logged; `honoured` says whether the daemon complied. */
    method RemoveContainer(id: Id, honoured: bool)
      modifies this
      ensures state == old(state).Remove(id, honoured)
    {
      state := state.Remove(id, honoured);
    }
  }
}
