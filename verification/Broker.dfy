// Worker pools and their wiring into the two chains of a federation broker (broker/federation/pooled_worker.go,
// federation.go).
module Broker {
  import opened Subjects
  import opened FederationMessages
  import Pipeline

  datatype Mode = Unconnected | Collective | Federation | OtherMode

  /** A bounded channel; workers share it by reference. */
  class Channel {
    const capacity: nat
    var queue: seq<Chain>

    constructor (capacity: nat)
      ensures this.capacity == capacity && queue == []
    {
      this.capacity := capacity;
      queue := [];
    }
  }

  /** How running a pool ends up: it waits for the lock, is refused, or has its workers started. */
  datatype RunResult = Blocked | NotReady | UnknownMode | NoServers | Running

  class PooledWorker {
    const name: string
    const mode: Mode
    var input: Channel?
    var output: Channel?
    var capacity: nat
    var workers: nat
    var initialized: bool
    var locked: bool
    var running: nat

    /** The pool is initialized: two channels of its capacity, and at least one worker. */
    ghost predicate Initialized(workers: nat, capacity: nat)
      reads this
    {
      && initialized && !locked && running == 0
      && this.workers == (if workers == 0 then 2 else workers)
      && this.capacity == (if capacity == 0 then 100 else capacity)
      && input != null && output != null && input.capacity == output.capacity == this.capacity
    }

    constructor (name: string, workers: nat, mode: Mode, capacity: nat)
      ensures this.name == name && this.mode == mode && Initialized(workers, capacity)
      ensures fresh(input) && fresh(output) && input != output && input.queue == output.queue == []
    {
      this.name, this.mode, this.capacity := name, mode, capacity;
      initialized, locked, running, this.workers, input, output := false, false, 0, 0, null, null;
      new;
      Init(workers);
    }

    method Init(workers: nat)
      requires !locked && running == 0
      modifies this
      ensures Initialized(workers, old(capacity))
      ensures fresh(input) && fresh(output) && input != output && input.queue == output.queue == []
    {
      this.workers := workers;
      if capacity == 0 {
        capacity := 100;
      }
      if this.workers == 0 {
        this.workers := 2;
      }
      input := new Channel(capacity);
      output := new Channel(capacity);
      initialized := true;
    }

    /** The input becomes the very channel that the other pool puts out to. */
    method From(other: PooledWorker) returns (ok: bool)
      modifies this`input
      ensures ok <==> other.output != null
      ensures input == if ok then other.output else old(input)
    {
      if other.output == null {
        return false;
      }
      input := other.output;
      return true;
    }

    method To(other: PooledWorker) returns (ok: bool)
      modifies this`output
      ensures ok <==> other.input != null
      ensures output == if ok then other.input else old(output)
    {
      if other.input == null {
        return false;
      }
      output := other.input;
      return true;
    }

    /** Starts the workers and keeps the lock; a second call waits for it. */
    method Run(servers: nat) returns (result: RunResult)
      modifies this`locked, this`running
      ensures result == RunOf(old(locked), old(initialized), mode, servers)
      ensures running == (if result.Running? then workers else old(running))
      ensures locked <==> old(locked) || result.Running?
    {
      if locked {
        return Blocked;
      }
      if !initialized {
        return NotReady;
      }
      if mode != Unconnected {
        if mode != Federation && mode != Collective {
          return UnknownMode;
        }
        if servers == 0 {
          return NoServers;
        }
      }
      running := workers;
      locked := true;
      return Running;
    }
  }

  function RunOf(locked: bool, initialized: bool, mode: Mode, servers: nat): RunResult {
    if locked then Blocked
    else if !initialized then NotReady
    else if mode.OtherMode? then UnknownMode
    else if !mode.Unconnected? && servers == 0 then NoServers
    else Running
  }

  /** The pool of ingest workers, transformers and egest workers of a chain, each putting out to the next. */
  ghost predicate Chained(first: PooledWorker, second: PooledWorker, third: PooledWorker)
    reads first`output, second`input, second`output, third`input
  {
    && first != second && second != third && first != third
    && first.output != null && first.output == second.input
    && second.output != null && second.output == third.input
    && first.output != second.output
  }

  /** The step system that a chain runs as. */
  ghost function WiringOf(broker: Token, identity: string, side: Side, second: PooledWorker): Pipeline.Wiring
    reads second`input, second`output
    requires second.input != null && second.output != null
  {
    Pipeline.Wiring(broker, side, second.input.capacity, second.output.capacity, identity)
  }

  /** No pool of one chain puts out to, or takes from, a channel of the other. */
  ghost predicate Apart(a: set<PooledWorker>, b: set<PooledWorker>)
    reads a`input, a`output, b`input, b`output
  {
    forall x, y :: x in a && y in b ==> x != y && {x.input, x.output} !! {y.input, y.output}
  }

  class FederationBroker {
    const name: Token
    const identity: string
    var fedIn: PooledWorker?
    var fedOut: PooledWorker?
    var collectiveIn: PooledWorker?
    var collectiveOut: PooledWorker?
    var requestT: PooledWorker?
    var replyT: PooledWorker?

    constructor (name: Token, identity: string)
      ensures this.name == name && this.identity == identity
    {
      this.name, this.identity := name, identity;
      fedIn, fedOut, collectiveIn, collectiveOut, requestT, replyT := null, null, null, null, null, null;
    }

    method StartRequests()
      modifies this`fedIn, this`collectiveOut, this`requestT
      ensures fedIn != null && collectiveOut != null && requestT != null
      ensures fresh({fedIn, collectiveOut, requestT}) && Chained(fedIn, requestT, collectiveOut)
      ensures fresh({fedIn.input, fedIn.output, requestT.output, collectiveOut.output})
      ensures WiringOf(name, identity, Requests, requestT) == Pipeline.Wiring(name, Requests, 1000, 10000, identity)
      ensures forall p :: p in {fedIn, requestT, collectiveOut} ==>
        p.initialized && !p.locked && p.workers == 10 && p.running == 0
      ensures fedIn.mode == Federation && requestT.mode == Unconnected && collectiveOut.mode == Collective
    {
      fedIn := new PooledWorker("choria_nats_ingest", 10, Federation, 10000);
      collectiveOut := new PooledWorker("choria_nats_egest", 10, Collective, 10000);
      requestT := new PooledWorker("choria_request_transformer", 10, Unconnected, 1000);
      var _ := fedIn.To(requestT);
      var _ := requestT.To(collectiveOut);
    }

    method StartReplies()
      modifies this`collectiveIn, this`fedOut, this`replyT
      ensures collectiveIn != null && fedOut != null && replyT != null
      ensures fresh({collectiveIn, fedOut, replyT}) && Chained(collectiveIn, replyT, fedOut)
      ensures fresh({collectiveIn.input, collectiveIn.output, replyT.output, fedOut.output})
      ensures WiringOf(name, identity, Replies, replyT) == Pipeline.Wiring(name, Replies, 1000, 10000, identity)
      ensures forall p :: p in {collectiveIn, replyT, fedOut} ==>
        p.initialized && !p.locked && p.workers == 10 && p.running == 0
      ensures collectiveIn.mode == Collective && replyT.mode == Unconnected && fedOut.mode == Federation
    {
      collectiveIn := new PooledWorker("choria_nats_ingest", 10, Collective, 10000);
      fedOut := new PooledWorker("choria_nats_egest", 10, Federation, 10000);
      replyT := new PooledWorker("choria_reply_transformer", 10, Unconnected, 1000);
      var _ := collectiveIn.To(replyT);
      var _ := replyT.To(fedOut);
    }

    /** Both chains are wired as the pipeline model assumes, and share nothing. */
    ghost predicate Wired()
      reads this, {fedIn, requestT, collectiveOut, collectiveIn, replyT, fedOut}`input
      reads {fedIn, requestT, collectiveOut, collectiveIn, replyT, fedOut}`output
    {
      && fedIn != null && requestT != null && collectiveOut != null
      && collectiveIn != null && replyT != null && fedOut != null
      && Chained(fedIn, requestT, collectiveOut) && Chained(collectiveIn, replyT, fedOut)
      && Apart({fedIn, requestT, collectiveOut}, {collectiveIn, replyT, fedOut})
      && WiringOf(name, identity, Requests, requestT) == Pipeline.Wiring(name, Requests, 1000, 10000, identity)
      && WiringOf(name, identity, Replies, replyT) == Pipeline.Wiring(name, Replies, 1000, 10000, identity)
    }

    ghost predicate Ready(p: PooledWorker, mode: Mode)
      reads p
    {
      p.initialized && !p.locked && p.workers == 10 && p.mode == mode && p.running == 0
    }

    method Wire()
      modifies this
      ensures Wired() && fresh({fedIn, requestT, collectiveOut, collectiveIn, replyT, fedOut})
      ensures requestT != replyT && collectiveIn != collectiveOut && fedIn != fedOut
      ensures Ready(fedIn, Federation) && Ready(requestT, Unconnected) && Ready(collectiveOut, Collective)
      ensures Ready(collectiveIn, Collective) && Ready(replyT, Unconnected) && Ready(fedOut, Federation)
    {
      StartRequests();
      StartReplies();
    }

    /** The transformers connect to nothing; the request transformer is run twice, and the second run waits. */
    method RunTransformers()
      requires requestT != null && replyT != null && requestT != replyT
      requires Ready(requestT, Unconnected) && Ready(replyT, Unconnected)
      modifies requestT`locked, requestT`running, replyT`locked, replyT`running
      ensures requestT.running == replyT.running == 10
    {
      var _ := requestT.Run(0);
      var _ := replyT.Run(0);
      var again := requestT.Run(0);
      assert again == Blocked;
    }

    method RunConnectors(ingest: PooledWorker, egest: PooledWorker, mode: Mode, servers: nat)
      requires ingest != egest && mode in {Federation, Collective} && Ready(ingest, mode) && Ready(egest, mode)
      modifies ingest`locked, ingest`running, egest`locked, egest`running
      ensures ingest.running == egest.running == if servers > 0 then 10 else 0
    {
      var _ := egest.Run(servers);
      var _ := ingest.Run(servers);
    }

    /** Every pool runs its 10 workers, the connecting ones exactly if there are servers to connect to. */
    method Start(federationServers: nat, collectiveServers: nat)
      modifies this
      ensures Wired() && requestT.running == replyT.running == 10
      ensures fedIn.running == fedOut.running == if federationServers > 0 then 10 else 0
      ensures collectiveIn.running == collectiveOut.running == if collectiveServers > 0 then 10 else 0
    {
      Wire();
      hide Wired, Chained, Apart, WiringOf;
      RunTransformers();
      RunConnectors(collectiveIn, collectiveOut, Collective, collectiveServers);
      RunConnectors(fedIn, fedOut, Federation, federationServers);
    }
  }
}
