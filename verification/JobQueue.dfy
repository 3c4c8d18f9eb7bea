/** The job queue of common/thpool.c.  Class JobQueue works in place on linked nodes.  `PullOf`
    says what a pull does to the sequence of queued jobs; module ThreadPool uses it for the step
    of a worker that holds rw_mutex. */
module JobQueue {
  import opened Basics

  /** The job a pull takes out, what is left, and whether it posts the wake token again. */
  datatype Pulled<T> = Pulled(job: Option<T>, rest: seq<T>, posts: bool)

  function PullOf<T>(q: seq<T>): (r: Pulled<T>)
    ensures q == (if r.job.Some? then [r.job.value] else []) + r.rest
    ensures r.job.None? <==> q == []
    ensures r.posts <==> r.rest != []
  {
    match |q|
    case 0 => Pulled(None, q, false)
    case 1 => Pulled(Some(q[0]), [], false)
    case _ => Pulled(Some(q[0]), q[1..], true)
  }

  datatype Operation<T> = Push(job: T) | Pull

  /** The jobs handed out and the jobs left by a sequence of operations. */
  datatype Served<T> = Served(handedOut: seq<T>, queued: seq<T>)

  function Serve<T>(q: seq<T>, ops: seq<Operation<T>>): Served<T>
    decreases ops
  {
    if ops == [] then Served([], q)
    else match ops[0]
      case Push(job) => Serve(q + [job], ops[1..])
      case Pull =>
        var pulled := PullOf(q);
        var later := Serve(pulled.rest, ops[1..]);
        Served((if pulled.job.Some? then [pulled.job.value] else []) + later.handedOut, later.queued)
  }

  function Pushes<T>(ops: seq<Operation<T>>): seq<T> {
    if ops == [] then []
    else (if ops[0].Push? then [ops[0].job] else []) + Pushes(ops[1..])
  }

  /** How many pulls find a job when n jobs are queued at the start. */
  function PullsServed<T>(n: nat, ops: seq<Operation<T>>): nat
    decreases ops
  {
    if ops == [] then 0
    else if ops[0].Push? then PullsServed(n + 1, ops[1..])
    else if n == 0 then PullsServed(0, ops[1..])
    else 1 + PullsServed(n - 1, ops[1..])
  }

  /** First in, first out over any run: what has been handed out followed by what is queued is
      what was there followed by what was pushed, in order, and every pull hands out a job unless
      none is queued. */
  lemma {:induction false} FirstInFirstOut<T>(q: seq<T>, ops: seq<Operation<T>>)
    ensures Serve(q, ops).handedOut + Serve(q, ops).queued == q + Pushes(ops)
    ensures |Serve(q, ops).handedOut| == PullsServed(|q|, ops)
    decreases ops
  {
    if ops != [] {
      match ops[0]
      case Push(job) =>
        FirstInFirstOut(q + [job], ops[1..]);
      case Pull =>
        var pulled := PullOf(q);
        FirstInFirstOut(pulled.rest, ops[1..]);
        var out := if pulled.job.Some? then [pulled.job.value] else [];
        var later := Serve(pulled.rest, ops[1..]);
        assert out + pulled.rest == q;
        assert (out + later.handedOut) + later.queued == out + (later.handedOut + later.queued);
        assert out + (pulled.rest + Pushes(ops[1..])) == (out + pulled.rest) + Pushes(ops[1..]);
    }
  }

  /** The semaphore's value; blocking belongs to module ThreadPool. */
  class BinarySemaphore {
    var v: int

    constructor (value: int)
      requires 0 <= value <= 1  // the source exits the process otherwise
      ensures v == value
    {
      v := value;
    }

    method Reset()
      modifies this
      ensures v == 0
    {
      v := 0;
    }

    method Post()
      modifies this
      ensures v == 1
    {
      v := 1;
    }
  }

  class JobNode {
    var prev: JobNode?
    const function_: int  // the function pointer and its argument, as addresses
    const args: int

    constructor (function_: int, args: int)
      ensures this.function_ == function_ && this.args == args && prev == null
    {
      this.function_ := function_;
      this.args := args;
      prev := null;
    }
  }

  class JobQueue {
    var front: JobNode?
    var rear: JobNode?
    var len: int
    const hasJob: BinarySemaphore
    ghost var nodes: seq<JobNode>  // the queued nodes, oldest first

    /** The prev chain from front runs through exactly `len` distinct nodes and ends at rear. */
    ghost predicate Valid()
      reads this, nodes, hasJob
    {
      && len == |nodes|
      && (forall i, j | 0 <= i < j < |nodes| :: nodes[i] != nodes[j])
      && (forall i | 0 <= i < |nodes| - 1 :: nodes[i].prev == nodes[i + 1])
      && (if nodes == [] then front == null && rear == null
          else front == nodes[0] && rear == nodes[|nodes| - 1] && rear.prev == null)
      && 0 <= hasJob.v <= 1
    }

    constructor ()
      ensures Valid() && fresh(hasJob) && nodes == [] && hasJob.v == 0
    {
      len := 0;
      front := null;
      rear := null;
      hasJob := new BinarySemaphore(0);
      nodes := [];
    }

    method Push(job: JobNode)
      requires Valid() && job !in nodes
      modifies this, nodes, job, hasJob
      ensures Valid()
      ensures nodes == old(nodes) + [job] && hasJob.v == 1
    {
      job.prev := null;
      if len == 0 {
        front := job;
        rear := job;
      } else {
        rear.prev := job;
        rear := job;
      }
      len := len + 1;
      nodes := nodes + [job];
      hasJob.Post();
    }

    method Pull() returns (job: JobNode?)
      requires Valid()
      modifies this, hasJob
      ensures Valid()
      ensures if old(nodes) == [] then job == null && nodes == []
              else job == old(nodes)[0] && nodes == old(nodes)[1..]
      ensures hasJob.v == (if |old(nodes)| > 1 then 1 else old(hasJob.v))
    {
      job := front;
      if len == 0 {
        return;
      }
      if len == 1 {
        front := null;
        rear := null;
        len := 0;
        nodes := [];
      } else {
        front := job.prev;
        len := len - 1;
        nodes := nodes[1..];
        hasJob.Post();
      }
    }

    /** freed lists the nodes given back to the allocator, in order. */
    method Clear() returns (freed: seq<JobNode>)
      requires Valid()
      modifies this, hasJob
      ensures Valid()
      ensures nodes == [] && len == 0 && hasJob.v == 0
      ensures freed == old(nodes)
    {
      freed := [];
      ghost var all := nodes;
      while len != 0
        invariant Valid()
        invariant |freed| <= |all| && freed == all[..|freed|] && nodes == all[|freed|..]
        decreases len
      {
        var job := Pull();
        assert job == all[|freed|];
        freed := freed + [job];
      }
      front := null;
      rear := null;
      hasJob.Reset();
      len := 0;
    }
  }

  /** thpool_add_work: the new node holds what was passed and goes to the end of the queue. */
  method AddWork(q: JobQueue, function_: int, args: int) returns (status: int)
    requires q.Valid()
    modifies q, q.nodes, q.hasJob
    ensures q.Valid() && status == 0 && q.hasJob.v == 1
    ensures |q.nodes| == |old(q.nodes)| + 1 && old(q.nodes) < q.nodes
    ensures var job := q.nodes[|old(q.nodes)|];
      fresh(job) && job.function_ == function_ && job.args == args
  {
    var job := new JobNode(function_, args);
    q.Push(job);
    status := 0;
  }
}
