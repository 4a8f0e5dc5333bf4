/** The services one etcdfab process calls: the etcd client, the command wrapper, the data
    directory, the pid file and the clock. Every failure is chosen by the caller. */
module Site {
  import opened Wrappers
  import opened Fleet

  /** How the outside world responds during one Start. */
  datatype StartAnswers = StartAnswers(
    configured: bool,                     // both config files read, client configured
    listed: nat -> Option<ClusterId>,     // the cluster that serves the k-th member list
    added: Option<ClusterId>,             // the cluster that serves the member add
    newId: string,                        // the id etcd gives to a new entry
    launched: Option<Pid>,                // the pid of the etcd process
    created: ClusterId,                   // the id of a cluster it may bootstrap
    published: bool,                      // etcd announces its name before the sync ends
    selfClient: bool,                     // a client for the own endpoint can be made
    keys: nat -> bool,                    // the k-th poll of the own endpoint succeeds
    pidWritten: bool,
    rollback: StopAnswers)

  /** How the outside world responds when a node is taken down. */
  datatype StopAnswers = StopAnswers(
    configured: bool,
    decided: Option<ClusterId>,           // serves the list that decides on the teardown
    relisted: Option<ClusterId>,          // serves the list the own id is looked up in
    removed: Option<ClusterId>,           // serves the removal
    wiped: bool,
    unlinked: bool)

  class Site {
    var world: World
    var slept: nat
    const me: NodeId
    const self: Identity

    constructor (world: World, me: NodeId, self: Identity)
      ensures this.world == world && slept == 0 && this.me == me && this.self == self
    {
      this.world, slept, this.me, this.self := world, 0, me, self;
    }

    /** The real client returns an empty list together with its error. */
    method MemberList(served: Option<ClusterId>) returns (ms: seq<Member>, ok: bool)
      ensures ok == Listed(world, served).Some?
      ensures ms == if ok then Listed(world, served).value else []
    {
      match Listed(world, served) {
        case None => ms, ok := [], false;
        case Some(list) => ms, ok := list, true;
      }
    }

    /** An answered add appends one entry without a name to the list of the cluster that answers. */
    method AddMember(served: Option<ClusterId>, id: string, url: string) returns (ok: bool)
      modifies this`world
      ensures ok <==> served.Some? && served.value in old(world).clusters
      ensures ok ==>
                var ms := old(world).clusters[served.value];
                && world.clusters == old(world).clusters[served.value := ms + [Member(id, "", url)]]
                && world.usedIds == old(world).usedIds + {id} && world.hosts == old(world).hosts
      ensures !ok ==> world == old(world)
    {
      match Fleet.MemberAdd(world, served, id, url) {
        case None => ok := false;
        case Some(w) => world, ok := w, true;
      }
    }

    /** A removal succeeds for a real id that the answering cluster lists, and takes the entries with that id. */
    method RemoveMember(served: Option<ClusterId>, id: string) returns (ok: bool)
      modifies this`world
      ensures ok <==> served.Some? && served.value in old(world).clusters && id != "" &&
                      HasId(old(world).clusters[served.value], id)
      ensures ok ==>
                var ms, c := old(world).clusters[served.value], served.value;
                && world.clusters == old(world).clusters[c := WithoutId(ms, id)]
                && (forall m :: m in world.clusters[c] <==> m in ms && m.id != id)
                && (UniqueIds(ms) ==> |world.clusters[c]| == |ms| - 1)
                && world.usedIds == old(world).usedIds && world.hosts == old(world).hosts
      ensures !ok ==> world == old(world)
    {
      match Fleet.MemberRemove(world, served, id) {
        case None => ok := false;
        case Some(w) =>
          if UniqueIds(world.clusters[served.value]) { WithoutIdUniqueIds(world.clusters[served.value], id); }
          world, ok := w, true;
      }
    }

    method Sleep(seconds: nat)
      modifies this`slept
      ensures slept == old(slept) + seconds
    {
      slept := slept + seconds;
    }
  }
}
