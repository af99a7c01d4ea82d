/** The delayed optimizer step: a worker updates the fp32 weights while the main thread computes the next
    gradients, the two talking over a pipe.

    A state records both programs and both directions of the pipe; an event is one atomic action of either
    side, so a list of events is one interleaving. Weights, gradients and fp16 weights are lists with one value
    per sub-group; what a value is, how it is updated, rounded or differentiated is left open. */
module DelayedUpdate {
  import opened Prelude

  datatype Command = Step(buffer: int) | SetAffinity | Shutdown

  /** The main thread: before step_dpu, in forward and backward with some sub-groups' gradients still to write,
      waiting in update_new_params, copying fp32 down to fp16, or finished. */
  datatype MainAt = Begin | Backward(left: set<int>) | Waiting | Copying(next: nat) | Finished

  /** The worker: waiting for a command, updating sub-group after sub-group, shut down, or dead of an error at a
      sub-group. */
  datatype WorkerAt = Idle | Stepping(buffer: int, next: nat) | Gone | Dead(at: nat)

  datatype State<W, G, H> = State(
    iteration: nat, main: MainAt, switch: int, pending: bool,
    worker: WorkerAt, commands: seq<Command>, replies: nat,
    fp32: seq<W>, bufs: seq<seq<G>>, fp16: seq<H>)

  /** The parts left open, how many sub-groups there are, and the parameter group each was cut from. The worker's own
      optimizer is built from a plain list of weights and has a single parameter group. */
  datatype Training<!W, !G, !H> = Training(
    groups: nat, gid: int -> int, update: (int, W, G) -> W, half: W -> H, grad: (nat, seq<H>, int) -> G,
    w0: seq<W>, h0: seq<H>, g0: G)

  datatype Event = StartIteration | WriteGrad(j: int) | EndBackward | Receive | CopyDown | Toggle | Stop
    | WorkerReceive | WorkerUpdate | WorkerReply | WorkerFails

  /** One atomic action, or None if the program is not at that point or would block. */
  function Next<W, G, H>(tr: Training<W, G, H>, s: State<W, G, H>, e: Event): Option<State<W, G, H>>
    requires Shaped(tr, s)
  {
    match e
    case StartIteration =>
      // step_dpu: the first one sends nothing.
      if s.main != Begin then None
      else if s.iteration == 0 then Some(s.(main := Backward(Groups(tr)), pending := false))
      else Some(s.(main := Backward(Groups(tr)), pending := true, commands := s.commands + [Step(1 - s.switch)]))
    case WriteGrad(j) =>
      if s.main.Backward? && j in s.main.left && j in Groups(tr) then
        Some(s.(main := Backward(s.main.left - {j}),
                bufs := s.bufs[s.switch := s.bufs[s.switch][j := tr.grad(s.iteration, s.fp16, j)]]))
      else None
    case EndBackward => if s.main == Backward({}) then Some(s.(main := Waiting)) else None
    case Receive =>
      if s.main != Waiting then None
      else if !s.pending then Some(s.(main := Copying(0)))
      else if s.replies > 0 then Some(s.(main := Copying(0), replies := s.replies - 1))
      else None
    case CopyDown =>
      if s.main.Copying? && s.main.next < tr.groups then
        Some(s.(main := Copying(s.main.next + 1), fp16 := s.fp16[s.main.next := tr.half(s.fp32[s.main.next])]))
      else None
    case Toggle =>
      if s.main == Copying(tr.groups) then
        Some(s.(main := Begin, switch := 1 - s.switch, iteration := s.iteration + 1))
      else None
    case Stop => if s.main == Begin then Some(s.(main := Finished, commands := s.commands + [Shutdown])) else None
    case WorkerReceive =>
      if s.worker != Idle || s.commands == [] then None
      else
        var rest := s.(commands := s.commands[1..]);
        (match s.commands[0]
         case Step(b) => Some(rest.(worker := Stepping(b, 0)))
         case SetAffinity => Some(rest)
         case Shutdown => Some(rest.(worker := Gone)))
    case WorkerUpdate =>
      if s.worker.Stepping? && s.worker.next < tr.groups && tr.gid(s.worker.next) == 0 && 0 <= s.worker.buffer < 2 then
        var i := s.worker.next;
        Some(s.(worker := Stepping(s.worker.buffer, i + 1),
                fp32 := s.fp32[i := tr.update(i, s.fp32[i], s.bufs[s.worker.buffer][i])]))
      else None
    case WorkerReply =>
      if s.worker.Stepping? && s.worker.next == tr.groups then Some(s.(worker := Idle, replies := s.replies + 1))
      else None
    case WorkerFails =>
      // The only parameter group of the worker's optimizer has index 0: any other index is an error.
      if s.worker.Stepping? && s.worker.next < tr.groups && tr.gid(s.worker.next) != 0 then
        Some(s.(worker := Dead(s.worker.next)))
      else None
  }

  function Groups<W, G, H>(tr: Training<W, G, H>): set<int>
  {
    UpTo(tr.groups)
  }

  function UpTo(n: nat): (s: set<int>)
    ensures |s| == n && forall j :: j in s <==> 0 <= j < n
  {
    if n == 0 then {} else UpTo(n - 1) + {n - 1}
  }

  ghost predicate Shaped<W, G, H>(tr: Training<W, G, H>, s: State<W, G, H>)
  {
    && |tr.w0| == |tr.h0| == |s.fp32| == |s.fp16| == tr.groups
    && 0 <= s.switch < 2 && |s.bufs| == 2 && |s.bufs[0]| == |s.bufs[1]| == tr.groups
  }

  /** Construction: both gradient buffers are zero and the worker has reported ready; the main thread may have
      told it which processors to run on. */
  function Initial<W, G, H>(tr: Training<W, G, H>, affinity: bool): State<W, G, H>
  {
    State(0, Begin, 0, false, Idle, if affinity then [SetAffinity] else [], 0,
          tr.w0, [seq(tr.groups, _ => tr.g0), seq(tr.groups, _ => tr.g0)], tr.h0)
  }

  // ---------------------------------------------------------------- reference

  /** The fp32 weights after n optimizer steps. */
  function Version<W, G, H>(tr: Training<W, G, H>, n: nat): (w: seq<W>)
    requires |tr.w0| == |tr.h0| == tr.groups
    ensures |w| == tr.groups
    decreases n, 0
  {
    if n == 0 then tr.w0 else
      var before, g := Version(tr, n - 1), Gradient(tr, n - 1);
      seq(tr.groups, j requires 0 <= j < tr.groups => tr.update(j, before[j], g[j]))
  }

  /** The gradients of iteration n. */
  function Gradient<W, G, H>(tr: Training<W, G, H>, n: nat): (g: seq<G>)
    requires |tr.w0| == |tr.h0| == tr.groups
    ensures |g| == tr.groups
    decreases n, 2
  {
    var seen := Seen(tr, n);
    seq(tr.groups, j requires 0 <= j < tr.groups => tr.grad(n, seen, j))
  }

  /** The fp16 weights iteration n computes with: one step behind the fp32 weights of a synchronous run. */
  function Seen<W, G, H>(tr: Training<W, G, H>, n: nat): (h: seq<H>)
    requires |tr.w0| == |tr.h0| == tr.groups
    ensures |h| == tr.groups
    decreases n, 1
  {
    if n == 0 then tr.h0 else
      var w := Version(tr, n - 1);
      seq(tr.groups, j requires 0 <= j < tr.groups => tr.half(w[j]))
  }

  /** The fp32 weights when iteration n starts. */
  function Before<W, G, H>(tr: Training<W, G, H>, n: nat): (w: seq<W>)
    requires |tr.w0| == |tr.h0| == tr.groups
    ensures |w| == tr.groups
  {
    Version(tr, if n == 0 then 0 else n - 1)
  }

  // ---------------------------------------------------------------- invariant

  /** Nothing but the affinity request of the start can be under way. */
  ghost predicate Quiet<W, G, H>(s: State<W, G, H>)
  {
    s.worker == Idle && s.replies == 0 && (s.commands == [] || s.commands == [SetAffinity])
  }

  /** A list that has been replaced element by element up to some point. */
  ghost predicate Partly<T>(v: seq<T>, from: seq<T>, to: seq<T>, next: nat)
  {
    |v| == |from| == |to| && next <= |v| && v == to[..next] + from[next..]
  }

  ghost predicate CommandSent<W, G, H>(tr: Training<W, G, H>, s: State<W, G, H>)
    requires Shaped(tr, s)
  {
    && s.worker == Idle && s.replies == 0 && s.fp32 == Before(tr, s.iteration)
    && (s.commands == [Step(1 - s.switch)] || s.commands == [SetAffinity, Step(1 - s.switch)])
  }

  ghost predicate Updating<W, G, H>(tr: Training<W, G, H>, s: State<W, G, H>)
    requires Shaped(tr, s)
  {
    && s.worker.Stepping? && s.worker.buffer == 1 - s.switch && s.commands == [] && s.replies == 0
    && Partly(s.fp32, Before(tr, s.iteration), Version(tr, s.iteration), s.worker.next)
    && GoodSoFar(tr, s.worker.next)
  }

  ghost predicate Replied<W, G, H>(tr: Training<W, G, H>, s: State<W, G, H>)
    requires Shaped(tr, s)
  {
    s.worker == Idle && s.commands == [] && s.replies == 1 && s.fp32 == Version(tr, s.iteration) && OneGroup(tr)
  }

  /** The worker died of a sub-group of another parameter group; the sub-groups before it have been updated. */
  ghost predicate Died<W, G, H>(tr: Training<W, G, H>, s: State<W, G, H>)
    requires Shaped(tr, s)
  {
    && s.worker.Dead? && s.worker.at < tr.groups && tr.gid(s.worker.at) != 0 && s.commands == [] && s.replies == 0
    && Partly(s.fp32, Before(tr, s.iteration), Version(tr, s.iteration), s.worker.at)
  }

  /** While it updates, all sub-groups done so far were of the first parameter group. */
  ghost predicate GoodSoFar<W, G, H>(tr: Training<W, G, H>, next: nat)
  {
    forall i :: 0 <= i < next ==> tr.gid(i) == 0
  }

  /** The step sent in this iteration is in exactly one place, or killed the worker; in the first iteration none was sent. */
  ghost predicate WorkerInv<W, G, H>(tr: Training<W, G, H>, s: State<W, G, H>)
    requires Shaped(tr, s)
  {
    if s.pending then CommandSent(tr, s) || Updating(tr, s) || Replied(tr, s) || Died(tr, s)
    else Quiet(s) && s.fp32 == Version(tr, s.iteration)
  }

  /** Every sub-group was cut from the first parameter group. */
  ghost predicate OneGroup<W, G, H>(tr: Training<W, G, H>)
  {
    GoodSoFar(tr, tr.groups)
  }

  /** The worker, the pipe and the fp32 weights, by where the main thread is. */
  ghost predicate PipeInv<W, G, H>(tr: Training<W, G, H>, s: State<W, G, H>)
    requires Shaped(tr, s)
  {
    match s.main
    case Begin => Quiet(s) && s.fp32 == Before(tr, s.iteration)
    case Backward(_) => s.pending == (s.iteration > 0) && WorkerInv(tr, s)
    case Waiting => s.pending == (s.iteration > 0) && WorkerInv(tr, s)
    case Copying(_) => Quiet(s) && s.fp32 == Version(tr, s.iteration)
    case Finished =>
      && s.fp32 == Before(tr, s.iteration) && s.replies == 0
      && (|| (s.worker == Idle && (s.commands == [Shutdown] || s.commands == [SetAffinity, Shutdown]))
          || (s.worker == Gone && s.commands == []))
  }

  /** The fp16 weights and the gradients of this iteration. */
  ghost predicate DataInv<W, G, H>(tr: Training<W, G, H>, s: State<W, G, H>)
    requires Shaped(tr, s)
  {
    match s.main
    case Begin => s.fp16 == Seen(tr, s.iteration)
    case Backward(left) =>
      && s.fp16 == Seen(tr, s.iteration) && left <= Groups(tr)
      && forall j :: 0 <= j < tr.groups && j !in left ==> s.bufs[s.switch][j] == Gradient(tr, s.iteration)[j]
    case Waiting => s.fp16 == Seen(tr, s.iteration) && s.bufs[s.switch] == Gradient(tr, s.iteration)
    case Copying(next) =>
      && s.bufs[s.switch] == Gradient(tr, s.iteration)
      && Partly(s.fp16, Seen(tr, s.iteration), Seen(tr, s.iteration + 1), next)
    case Finished => true
  }

  ghost predicate Inv<W, G, H>(tr: Training<W, G, H>, s: State<W, G, H>)
  {
    && Shaped(tr, s) && s.switch == s.iteration % 2
    && DataInv(tr, s) && PipeInv(tr, s)
    && (s.iteration > 0 ==> s.bufs[1 - s.switch] == Gradient(tr, s.iteration - 1))
    && (s.iteration > 1 || (s.iteration == 1 && s.main.Copying?) ==> OneGroup(tr))
  }

  lemma {:induction false} InvShaped<W, G, H>(tr: Training<W, G, H>, s: State<W, G, H>)
    requires Inv(tr, s)
    ensures Shaped(tr, s)
  {
  }

  /** An event that touches only the worker, the pipe and the fp32 weights. */
  lemma {:induction false} SameData<W, G, H>(tr: Training<W, G, H>, s: State<W, G, H>, r: State<W, G, H>)
    requires Inv(tr, s) && |r.fp32| == |s.fp32|
    requires r == s.(worker := r.worker, commands := r.commands, replies := r.replies, fp32 := r.fp32)
    requires Shaped(tr, r) && PipeInv(tr, r)
    ensures Inv(tr, r)
  {
    hide PipeInv, Partly, Seen, Gradient;
  }

  lemma {:induction false} InitialInv<W, G, H>(tr: Training<W, G, H>, affinity: bool)
    requires |tr.w0| == |tr.h0| == tr.groups
    ensures Inv(tr, Initial(tr, affinity))
  {
  }

  lemma {:induction false} PartlyNext<T>(v: seq<T>, from: seq<T>, to: seq<T>, next: nat, x: T)
    requires Partly(v, from, to, next) && next < |v| && x == to[next]
    ensures v[next] == from[next]
    ensures Partly(v[next := x], from, to, next + 1)
  {
    assert to[..next + 1] == to[..next] + [x];
    assert from[next..] == [from[next]] + from[next + 1..];
  }

  lemma {:induction false} PartlyAt<T>(v: seq<T>, from: seq<T>, to: seq<T>, next: nat)
    requires Partly(v, from, to, next) && next < |v|
    ensures |from| == |v| && v[next] == from[next]
  {
  }

  lemma {:induction false} PartlyDone<T>(v: seq<T>, from: seq<T>, to: seq<T>)
    requires Partly(v, from, to, |v|)
    ensures v == to
  {
  }

  lemma {:induction false} PartlyStart<T>(v: seq<T>, to: seq<T>)
    requires |v| == |to|
    ensures Partly(v, v, to, 0)
  {
  }

  lemma {:induction false} VersionAt<W, G, H>(tr: Training<W, G, H>, k: nat, j: nat)
    requires |tr.w0| == |tr.h0| == tr.groups && j < tr.groups && k > 0
    ensures Version(tr, k)[j] == tr.update(j, Before(tr, k)[j], Gradient(tr, k - 1)[j])
  {
  }

  lemma {:induction false} SeenAt<W, G, H>(tr: Training<W, G, H>, k: nat, j: nat)
    requires |tr.w0| == |tr.h0| == tr.groups && j < tr.groups
    ensures Seen(tr, k + 1)[j] == tr.half(Version(tr, k)[j])
  {
  }

  lemma {:induction false} GradientAt<W, G, H>(tr: Training<W, G, H>, k: nat, j: nat)
    requires |tr.w0| == |tr.h0| == tr.groups && j < tr.groups
    ensures Gradient(tr, k)[j] == tr.grad(k, Seen(tr, k), j)
  {
  }

  lemma {:induction false} BeforeIs<W, G, H>(tr: Training<W, G, H>, k: nat)
    requires |tr.w0| == |tr.h0| == tr.groups
    ensures Before(tr, k + 1) == Version(tr, k) && Before(tr, 0) == Version(tr, 0)
  {
  }

  // ----------------------------------------------------- each event keeps it

  lemma {:induction false} WorkerReceiveKeeps<W, G, H>(tr: Training<W, G, H>, s: State<W, G, H>)
    requires Inv(tr, s) && Next(tr, s, WorkerReceive).Some?
    ensures Inv(tr, Next(tr, s, WorkerReceive).value)
  {
    hide Version, Before, Seen, Gradient, Partly, DataInv;
    if s.commands[0].Step? { PartlyStart(s.fp32, Version(tr, s.iteration)); }
    var r := Next(tr, s, WorkerReceive).value;
    assert PipeInv(tr, r);
    hide PipeInv;
    SameData(tr, s, r);
  }

  lemma {:induction false} WorkerReplyKeeps<W, G, H>(tr: Training<W, G, H>, s: State<W, G, H>)
    requires Inv(tr, s) && Next(tr, s, WorkerReply).Some?
    ensures Inv(tr, Next(tr, s, WorkerReply).value)
  {
    hide Version, Before, Seen, Gradient, Partly, DataInv;
    PartlyDone(s.fp32, Before(tr, s.iteration), Version(tr, s.iteration));
    SameData(tr, s, Next(tr, s, WorkerReply).value);
  }

  /** One sub-group of the worker's step: it reads the gradient buffer the main thread does not write. */
  lemma {:induction false} UpdateKeeps<W, G, H>(tr: Training<W, G, H>, s: State<W, G, H>)
    requires Inv(tr, s) && Next(tr, s, WorkerUpdate).Some?
    ensures Inv(tr, Next(tr, s, WorkerUpdate).value)
  {
    hide Version, Before, Seen, Gradient, Partly, DataInv;
    var i, k := s.worker.next, s.iteration;
    assert Updating(tr, s);
    assert s.bufs[s.worker.buffer] == Gradient(tr, k - 1);
    VersionAt(tr, k, i);
    PartlyAt(s.fp32, Before(tr, k), Version(tr, k), i);
    PartlyNext(s.fp32, Before(tr, k), Version(tr, k), i, tr.update(i, s.fp32[i], s.bufs[s.worker.buffer][i]));
    SameData(tr, s, Next(tr, s, WorkerUpdate).value);
  }

  lemma {:induction false} FailKeeps<W, G, H>(tr: Training<W, G, H>, s: State<W, G, H>)
    requires Inv(tr, s) && Next(tr, s, WorkerFails).Some?
    ensures Inv(tr, Next(tr, s, WorkerFails).value)
  {
    hide Version, Before, Seen, Gradient, Partly, DataInv, GoodSoFar;
    SameData(tr, s, Next(tr, s, WorkerFails).value);
  }

  lemma {:induction false} StartKeeps<W, G, H>(tr: Training<W, G, H>, s: State<W, G, H>)
    requires Inv(tr, s) && Next(tr, s, StartIteration).Some?
    ensures Inv(tr, Next(tr, s, StartIteration).value)
  {
    hide Version, Before, Seen, Gradient, Partly;
    BeforeIs(tr, s.iteration);
  }

  /** The main thread writes the gradient buffer the worker does not read. */
  lemma {:induction false} WriteKeeps<W, G, H>(tr: Training<W, G, H>, s: State<W, G, H>, j: int)
    requires Inv(tr, s) && Next(tr, s, WriteGrad(j)).Some?
    ensures Inv(tr, Next(tr, s, WriteGrad(j)).value)
  {
    hide Version, Before, Seen, Gradient, Partly;
    GradientAt(tr, s.iteration, j);
  }

  lemma {:induction false} EndBackwardKeeps<W, G, H>(tr: Training<W, G, H>, s: State<W, G, H>)
    requires Inv(tr, s) && Next(tr, s, EndBackward).Some?
    ensures Inv(tr, Next(tr, s, EndBackward).value)
  {
    hide Version, Before, Seen, Gradient, Partly;
    assert s.bufs[s.switch] == Gradient(tr, s.iteration);
  }

  lemma {:induction false} ReceiveKeeps<W, G, H>(tr: Training<W, G, H>, s: State<W, G, H>)
    requires Inv(tr, s) && Next(tr, s, Receive).Some?
    ensures Inv(tr, Next(tr, s, Receive).value)
  {
    hide Version, Before, Seen, Gradient, Partly;
    PartlyStart(s.fp16, Seen(tr, s.iteration + 1));
  }

  lemma {:induction false} CopyKeeps<W, G, H>(tr: Training<W, G, H>, s: State<W, G, H>)
    requires Inv(tr, s) && Next(tr, s, CopyDown).Some?
    ensures Inv(tr, Next(tr, s, CopyDown).value)
  {
    hide Version, Before, Seen, Gradient, Partly;
    SeenAt(tr, s.iteration, s.main.next);
    PartlyNext(s.fp16, Seen(tr, s.iteration), Seen(tr, s.iteration + 1), s.main.next, tr.half(s.fp32[s.main.next]));
  }

  lemma {:induction false} ToggleKeeps<W, G, H>(tr: Training<W, G, H>, s: State<W, G, H>)
    requires Inv(tr, s) && Next(tr, s, Toggle).Some?
    ensures Inv(tr, Next(tr, s, Toggle).value)
  {
    hide Version, Before, Seen, Gradient, Partly;
    BeforeIs(tr, s.iteration);
    PartlyDone(s.fp16, Seen(tr, s.iteration), Seen(tr, s.iteration + 1));
  }

  lemma {:induction false} StopKeeps<W, G, H>(tr: Training<W, G, H>, s: State<W, G, H>)
    requires Inv(tr, s) && Next(tr, s, Stop).Some?
    ensures Inv(tr, Next(tr, s, Stop).value)
  {
    hide Version, Before, Seen, Gradient, Partly;
  }

  lemma {:induction false} NextKeeps<W, G, H>(tr: Training<W, G, H>, s: State<W, G, H>, e: Event)
    requires Inv(tr, s) && Next(tr, s, e).Some?
    ensures Inv(tr, Next(tr, s, e).value)
  {
    hide *;
    match e
    case StartIteration => StartKeeps(tr, s);
    case WriteGrad(j) => WriteKeeps(tr, s, j);
    case EndBackward => EndBackwardKeeps(tr, s);
    case Receive => ReceiveKeeps(tr, s);
    case CopyDown => CopyKeeps(tr, s);
    case Toggle => ToggleKeeps(tr, s);
    case Stop => StopKeeps(tr, s);
    case WorkerReceive => WorkerReceiveKeeps(tr, s);
    case WorkerUpdate => UpdateKeeps(tr, s);
    case WorkerReply => WorkerReplyKeeps(tr, s);
    case WorkerFails => FailKeeps(tr, s);
  }

  // ---------------------------------------------------------------- whole runs

  /** The state after an interleaving, if every event of it could happen. */
  ghost function Run<W, G, H>(tr: Training<W, G, H>, affinity: bool, es: seq<Event>): (r: Option<State<W, G, H>>)
    requires |tr.w0| == |tr.h0| == tr.groups
    ensures r.Some? ==> Inv(tr, r.value)
  {
    if es == [] then InitialInv(tr, affinity); Some(Initial(tr, affinity)) else
      var before := Run(tr, affinity, es[..|es| - 1]);
      if before.None? || Next(tr, before.value, es[|es| - 1]).None? then None
      else NextKeeps(tr, before.value, es[|es| - 1]); Next(tr, before.value, es[|es| - 1])
  }

  /** Steps under way: commands not taken, a step being executed, replies not read. */
  function Outstanding<W, G, H>(s: State<W, G, H>): nat
  {
    StepsIn(s.commands) + (if s.worker.Stepping? then 1 else 0) + s.replies
  }

  function StepsIn(cs: seq<Command>): nat
  {
    if cs == [] then 0 else (if cs[0].Step? then 1 else 0) + StepsIn(cs[1..])
  }

  lemma {:induction false} StepsInShort(cs: seq<Command>)
    requires |cs| <= 2 && (|cs| == 2 ==> !cs[0].Step?)
    ensures StepsIn(cs) == if cs != [] && cs[|cs| - 1].Step? then 1 else 0
  {
    if |cs| == 2 {
      assert cs[1..] == [cs[1]] && cs[1..][1..] == [];
    } else if |cs| == 1 {
      assert cs[1..] == [];
    }
  }

  /** What the invariant says about the pipe, the worker and the buffers they name. */
  lemma {:induction false} PipeShape<W, G, H>(tr: Training<W, G, H>, s: State<W, G, H>)
    requires Inv(tr, s)
    ensures |s.commands| <= 2 && (|s.commands| == 2 ==> s.commands[0] == SetAffinity)
    ensures var sent := s.commands != [] && s.commands[|s.commands| - 1].Step?;
            && (sent ==> s.commands[|s.commands| - 1] == Step(1 - s.switch) && s.worker == Idle && s.replies == 0)
            && (s.worker.Stepping? ==> s.worker.buffer == 1 - s.switch && s.replies == 0 && s.worker.next <= tr.groups)
            && s.replies <= 1
            && (s.main.Copying? ==> !sent && s.worker == Idle && s.replies == 0 && s.main.next <= tr.groups)
            && (s.main == Begin ==> !sent && s.worker == Idle && s.replies == 0)
  {
    hide Version, Before, Seen, Gradient;
  }

  lemma {:induction false} FewOutstanding<W, G, H>(tr: Training<W, G, H>, s: State<W, G, H>)
    requires Inv(tr, s)
    ensures Outstanding(s) <= 1 && (s.main.Copying? || s.main == Begin ==> Outstanding(s) == 0)
    ensures forall c :: c in s.commands && c.Step? ==> c.buffer == 1 - s.switch
  {
    PipeShape(tr, s);
    hide Inv;
    StepsInShort(s.commands);
    hide StepsIn;
  }

  /** In every interleaving: at most one step is under way; the buffer it reads is never the one backward writes;
      while it is under way the main thread does not read the fp32 weights. */
  lemma {:induction false} Isolation<W, G, H>(tr: Training<W, G, H>, affinity: bool, es: seq<Event>)
    requires |tr.w0| == |tr.h0| == tr.groups && Run(tr, affinity, es).Some?
    ensures var s := Run(tr, affinity, es).value;
            && Outstanding(s) <= 1
            && (s.worker.Stepping? ==> s.worker.buffer == 1 - s.switch)
            && (forall c :: c in s.commands && c.Step? ==> c.buffer == 1 - s.switch)
            && (s.main.Copying? ==> Outstanding(s) == 0)
  {
    hide *;
    PipeShape(tr, Run(tr, affinity, es).value);
    FewOutstanding(tr, Run(tr, affinity, es).value);
  }

  /** Whatever the interleaving, an iteration starts with the same weights: the fp32 weights have taken all
      gradients but the last two, each once and in order, iteration k computes with them rounded, and the last
      gradients wait in the other buffer. */
  lemma {:induction false} IterationStart<W, G, H>(tr: Training<W, G, H>, affinity: bool, es: seq<Event>)
    requires |tr.w0| == |tr.h0| == tr.groups && Run(tr, affinity, es).Some?
    requires Run(tr, affinity, es).value.main == Begin
    ensures var s := Run(tr, affinity, es).value;
            var k := s.iteration;
            && s.fp32 == Version(tr, if k == 0 then 0 else k - 1)
            && s.fp16 == Seen(tr, k)
            && (k > 0 ==> s.bufs[1 - s.switch] == Gradient(tr, k - 1))
            && Outstanding(s) == 0
  {
    hide *;
    FewOutstanding(tr, Run(tr, affinity, es).value);
    BeginIs(tr, Run(tr, affinity, es).value);
  }

  lemma {:induction false} BeginIs<W, G, H>(tr: Training<W, G, H>, s: State<W, G, H>)
    requires Inv(tr, s) && (s.main == Begin || s.main == Finished)
    ensures s.fp32 == Version(tr, if s.iteration == 0 then 0 else s.iteration - 1)
    ensures s.main == Begin ==> s.fp16 == Seen(tr, s.iteration)
    ensures s.iteration > 0 ==> s.bufs[1 - s.switch] == Gradient(tr, s.iteration - 1)
  {
    hide Version, Seen, Gradient;
  }

  lemma {:induction false} VersionNext<W, G, H>(tr: Training<W, G, H>, k: nat, j: nat)
    requires |tr.w0| == |tr.h0| == tr.groups && j < tr.groups
    ensures Version(tr, k + 1)[j] == tr.update(j, Version(tr, k)[j], tr.grad(k, Seen(tr, k), j))
    ensures k > 0 ==> Seen(tr, k)[j] == tr.half(Version(tr, k - 1)[j])
    ensures Version(tr, 0) == tr.w0 && Seen(tr, 0) == tr.h0
  {
  }

  lemma {:induction false} VersionStarts<W, G, H>(tr: Training<W, G, H>)
    requires |tr.w0| == |tr.h0| == tr.groups
    ensures Version(tr, 0) == tr.w0 && Seen(tr, 0) == tr.h0
  {
  }

  /** What an iteration sees depends only on the weights it sees rounded. */
  lemma {:induction false} SeenSame<W, G, H>(a: Training<W, G, H>, b: Training<W, G, H>, k: nat)
    requires |a.w0| == |a.h0| == a.groups && |b.w0| == |b.h0| == b.groups
    requires a.groups == b.groups && a.h0 == b.h0 && a.half == b.half
    requires Version(a, if k == 0 then 0 else k - 1) == Version(b, if k == 0 then 0 else k - 1)
    ensures Seen(a, k) == Seen(b, k)
  {
    hide Version;
  }

  /** An interleaving that has reached the start of iteration k. */
  ghost predicate StartOf<W, G, H>(tr: Training<W, G, H>, affinity: bool, es: seq<Event>, k: nat)
    requires |tr.w0| == |tr.h0| == tr.groups
  {
    && Run(tr, affinity, es).Some? && Run(tr, affinity, es).value.main == Begin
    && Run(tr, affinity, es).value.iteration == k
  }

  ghost function At<W, G, H>(tr: Training<W, G, H>, affinity: bool, es: seq<Event>): State<W, G, H>
    requires |tr.w0| == |tr.h0| == tr.groups && Run(tr, affinity, es).Some?
  {
    Run(tr, affinity, es).value
  }

  /** Training one step behind, seen from outside: whatever three interleavings reach the starts of iterations k,
      k + 1 and k + 2, the fp32 weights at the last are those at the second updated once with the gradients of the
      fp16 weights at the first; and from the second on the fp16 weights are the fp32 weights rounded. */
  lemma {:induction false} OneStepBehind<W, G, H>(tr: Training<W, G, H>, affinity: bool, k: nat,
                                                  ds: seq<Event>, es: seq<Event>, fs: seq<Event>, j: nat)
    requires |tr.w0| == |tr.h0| == tr.groups && j < tr.groups
    requires StartOf(tr, affinity, ds, k) && StartOf(tr, affinity, es, k + 1) && StartOf(tr, affinity, fs, k + 2)
    ensures var d, e, f := At(tr, affinity, ds), At(tr, affinity, es), At(tr, affinity, fs);
            && |d.fp32| == |e.fp32| == |f.fp32| == |d.fp16| == |e.fp16| == tr.groups
            && f.fp32[j] == tr.update(j, e.fp32[j], tr.grad(k, d.fp16, j))
            && e.fp16[j] == tr.half(e.fp32[j])
            && (k == 0 ==> d.fp32 == e.fp32 == tr.w0 && d.fp16 == tr.h0)
  {
    hide *;
    AtStart(tr, affinity, ds, k);
    AtStart(tr, affinity, es, k + 1);
    AtStart(tr, affinity, fs, k + 2);
    VersionNext(tr, k, j);
    VersionNext(tr, k + 1, j);
  }

  lemma {:induction false} AtStart<W, G, H>(tr: Training<W, G, H>, affinity: bool, es: seq<Event>, k: nat)
    requires |tr.w0| == |tr.h0| == tr.groups && StartOf(tr, affinity, es, k)
    ensures var s := At(tr, affinity, es);
            && s.fp32 == Version(tr, if k == 0 then 0 else k - 1) && s.fp16 == Seen(tr, k)
            && |s.fp32| == |s.fp16| == tr.groups
  {
    hide Version, Run, Before;
    IterationStart(tr, affinity, es);
  }

  /** When training ends, every gradient except the last has been applied. */
  lemma {:induction false} AfterTraining<W, G, H>(tr: Training<W, G, H>, affinity: bool, es: seq<Event>)
    requires |tr.w0| == |tr.h0| == tr.groups && Run(tr, affinity, es).Some?
    requires Run(tr, affinity, es).value.main == Finished
    ensures var s := Run(tr, affinity, es).value;
            s.fp32 == Version(tr, if s.iteration == 0 then 0 else s.iteration - 1)
  {
    hide *;
    BeginIs(tr, Run(tr, affinity, es).value);
  }

  // ------------------------------------------------------------------ progress

  /** Some event that can happen. */
  function Enabled<W, G, H>(tr: Training<W, G, H>, s: State<W, G, H>): Event
  {
    match s.main
    case Begin => StartIteration
    case Backward(left) => if left == {} then EndBackward else WriteGrad(AnyOf(tr.groups, left))
    case Copying(next) => if next < tr.groups then CopyDown else Toggle
    case _ =>
      if s.main == Waiting && (!s.pending || s.replies > 0) then Receive
      else if s.worker == Idle then WorkerReceive
      else if s.worker.Stepping? && s.worker.next < tr.groups then
        (if tr.gid(s.worker.next) == 0 then WorkerUpdate else WorkerFails)
      else WorkerReply
  }

  function AnyOf(n: nat, s: set<int>): int
  {
    if n == 0 then 0 else if n - 1 in s then n - 1 else AnyOf(n - 1, s)
  }

  lemma {:induction false} AnyOfIn(n: nat, s: set<int>)
    requires s != {} && forall j :: j in s ==> 0 <= j < n
    ensures AnyOf(n, s) in s
    decreases n
  {
    if n > 0 && n - 1 !in s {
      AnyOfIn(n - 1, s);
    } else if n == 0 {
      assert forall j :: j !in s;
    }
  }

  /** The main thread waits for the reply of a worker that has died. */
  predicate Stuck<W, G, H>(s: State<W, G, H>)
  {
    s.main == Waiting && s.worker.Dead?
  }

  predicate Over<W, G, H>(s: State<W, G, H>)
  {
    s.main == Finished && s.worker == Gone
  }

  lemma {:induction false} CanMove<W, G, H>(tr: Training<W, G, H>, s: State<W, G, H>)
    requires Inv(tr, s) && !Over(s) && !Stuck(s)
    ensures Next(tr, s, Enabled(tr, s)).Some?
  {
    if s.main.Backward? && s.main.left != {} { AnyOfIn(tr.groups, s.main.left); }
    hide Version, Before, Seen, Gradient, Partly, GoodSoFar;
  }

  lemma {:induction false} CannotMove<W, G, H>(tr: Training<W, G, H>, s: State<W, G, H>, e: Event)
    requires Inv(tr, s) && (Over(s) || Stuck(s))
    ensures Next(tr, s, e).None?
  {
    hide Version, Before, Seen, Gradient, Partly, GoodSoFar;
  }

  lemma {:induction false} DeadMeansGroups<W, G, H>(tr: Training<W, G, H>, s: State<W, G, H>)
    requires Inv(tr, s)
    ensures s.worker.Dead? ==> !OneGroup(tr) && s.iteration == 1 && (s.main.Backward? || s.main == Waiting)
    ensures s.iteration > 1 || (s.iteration == 1 && s.main.Copying?) ==> OneGroup(tr)
  {
    hide Version, Before, Seen, Gradient, Partly, OneGroup, GoodSoFar;
    if s.worker.Dead? { NotOne(tr, s.worker.at); }
  }

  lemma {:induction false} NotOne<W, G, H>(tr: Training<W, G, H>, i: nat)
    requires i < tr.groups && tr.gid(i) != 0
    ensures !OneGroup(tr)
  {
  }

  /** Deadlocks, exactly: nothing can happen any more if and only if training is over, or the main thread waits for a
      worker that died; and the worker dies only of a sub-group from a second parameter group. */
  lemma {:induction false} NeverStuck<W, G, H>(tr: Training<W, G, H>, s: State<W, G, H>)
    requires Inv(tr, s)
    ensures (forall e :: Next(tr, s, e).None?) <==> Over(s) || Stuck(s)
    ensures Stuck(s) ==> !OneGroup(tr)
  {
    hide *;
    InvShaped(tr, s);
    if Over(s) || Stuck(s) {
      forall e ensures Next(tr, s, e).None? { CannotMove(tr, s, e); }
    } else {
      CanMove(tr, s);
    }
    DeadMeansGroups(tr, s);
    StuckIsDead(s);
  }

  lemma {:induction false} StuckIsDead<W, G, H>(s: State<W, G, H>)
    ensures Stuck(s) ==> s.worker.Dead?
  {
  }

  function CommandWork(groups: nat, cs: seq<Command>): nat
  {
    if cs == [] then 0 else (if cs[0].Step? then groups + 2 else 1) + CommandWork(groups, cs[1..])
  }

  /** How many more events the current iteration can take. */
  function Work<W, G, H>(tr: Training<W, G, H>, s: State<W, G, H>): int
  {
    var main := match s.main
      case Begin => 3 * tr.groups + 7
      case Backward(left) => |left| + tr.groups + 3
      case Waiting => tr.groups + 2
      case Copying(next) => tr.groups - next + 1
      case Finished => 0;
    var worker := if s.worker.Stepping? then tr.groups - s.worker.next + 1 else 0;
    main + worker + CommandWork(tr.groups, s.commands)
  }

  lemma {:induction false} CommandWorkOne(groups: nat, cs: seq<Command>, c: Command)
    ensures CommandWork(groups, cs + [c]) == CommandWork(groups, cs) + if c.Step? then groups + 2 else 1
    decreases |cs|
  {
    if cs == [] {
      assert (cs + [c])[1..] == [];
    } else {
      assert (cs + [c])[1..] == cs[1..] + [c];
      CommandWorkOne(groups, cs[1..], c);
    }
  }

  lemma {:induction false} WorkNonNegative<W, G, H>(tr: Training<W, G, H>, s: State<W, G, H>)
    requires Inv(tr, s)
    ensures Work(tr, s) >= 0
  {
    PipeShape(tr, s);
    hide Inv;
  }

  lemma {:induction false} MainWorks<W, G, H>(tr: Training<W, G, H>, s: State<W, G, H>, e: Event)
    requires Inv(tr, s) && Next(tr, s, e).Some?
    requires e.WriteGrad? || e.EndBackward? || e.Receive? || e.CopyDown?
    ensures Work(tr, Next(tr, s, e).value) < Work(tr, s)
  {
    assert Shaped(tr, s);
    hide Inv, CommandWork, UpTo;
  }

  /** What starting an iteration, or stopping, does to the two programs and the pipe. */
  lemma {:induction false} SendIs<W, G, H>(tr: Training<W, G, H>, s: State<W, G, H>, e: Event)
    requires Inv(tr, s) && Next(tr, s, e).Some? && (e == StartIteration || e == Stop)
    ensures var r := Next(tr, s, e).value;
            && s.main == Begin && r.worker == s.worker
            && (e == StartIteration ==> r.main.Backward? && |r.main.left| == tr.groups)
            && (e == Stop ==> r.main == Finished && r.commands == s.commands + [Shutdown])
            && (e == StartIteration ==> r.commands == s.commands || r.commands == s.commands + [Step(1 - s.switch)])
  {
    hide Version, Before, Seen, Gradient;
  }

  lemma {:induction false} SendWorks<W, G, H>(tr: Training<W, G, H>, s: State<W, G, H>, e: Event)
    requires Inv(tr, s) && Next(tr, s, e).Some? && (e == StartIteration || e == Stop)
    ensures Work(tr, Next(tr, s, e).value) < Work(tr, s)
  {
    SendIs(tr, s, e);
    CommandWorkOne(tr.groups, s.commands, Step(1 - s.switch));
    CommandWorkOne(tr.groups, s.commands, Shutdown);
    hide Inv, CommandWork, UpTo, Next;
  }

  lemma {:induction false} WorkerWorks<W, G, H>(tr: Training<W, G, H>, s: State<W, G, H>, e: Event)
    requires Inv(tr, s) && Next(tr, s, e).Some? && (e == WorkerReceive || e == WorkerUpdate || e == WorkerReply || e == WorkerFails)
    ensures Work(tr, Next(tr, s, e).value) < Work(tr, s)
  {
    PipeShape(tr, s);
    hide Inv, UpTo;
  }

  /** Every event that does not end the iteration uses up some of its work, so however the two sides are
      scheduled the iteration ends. */
  lemma {:induction false} WorkShrinks<W, G, H>(tr: Training<W, G, H>, s: State<W, G, H>, e: Event)
    requires Inv(tr, s) && Next(tr, s, e).Some? && e != Toggle
    ensures 0 <= Work(tr, Next(tr, s, e).value) < Work(tr, s)
  {
    hide *;
    NextKeeps(tr, s, e);
    InvShaped(tr, s);
    WorkNonNegative(tr, Next(tr, s, e).value);
    if e == StartIteration || e == Stop {
      SendWorks(tr, s, e);
    } else if e == WorkerReceive || e == WorkerUpdate || e == WorkerReply || e == WorkerFails {
      WorkerWorks(tr, s, e);
    } else {
      MainWorks(tr, s, e);
    }
  }

  // ------------------------------------------------------------- going on

  lemma {:induction false} RunOne<W, G, H>(tr: Training<W, G, H>, affinity: bool, es: seq<Event>, e: Event)
    requires |tr.w0| == |tr.h0| == tr.groups && Run(tr, affinity, es).Some?
    ensures Inv(tr, At(tr, affinity, es)) && Run(tr, affinity, es + [e]) == Next(tr, At(tr, affinity, es), e)
  {
    assert (es + [e])[..|es|] == es;
    hide Next, Inv;
  }

  /** What the next event of an undisturbed run does to the iteration count. */
  lemma {:induction false} EnabledMoves<W, G, H>(tr: Training<W, G, H>, s: State<W, G, H>)
    requires Inv(tr, s) && Next(tr, s, Enabled(tr, s)).Some? && s.main != Finished
    ensures var r := Next(tr, s, Enabled(tr, s)).value;
            && r.main != Finished
            && (Enabled(tr, s) == Toggle ==> r.main == Begin && r.iteration == s.iteration + 1)
            && (Enabled(tr, s) != Toggle ==> r.iteration == s.iteration)
  {
    hide Inv, AnyOf;
  }

  /** Left alone, every run gets to the start of the next iteration, or gets stuck in this one. */
  ghost predicate Settles<W, G, H>(tr: Training<W, G, H>, affinity: bool, es: seq<Event>, k: nat)
    requires |tr.w0| == |tr.h0| == tr.groups
  {
    || StartOf(tr, affinity, es, k + 1)
    || (Run(tr, affinity, es).Some? && Stuck(At(tr, affinity, es)) && At(tr, affinity, es).iteration == k)
  }

  lemma {:induction false} SettlesIntro<W, G, H>(tr: Training<W, G, H>, affinity: bool, es: seq<Event>, k: nat)
    requires |tr.w0| == |tr.h0| == tr.groups && Run(tr, affinity, es).Some?
    requires var s := At(tr, affinity, es);
             (Stuck(s) && s.iteration == k) || (s.main == Begin && s.iteration == k + 1)
    ensures Settles(tr, affinity, es, k)
  {
    hide Run;
  }

  lemma {:induction false} GoesOn<W, G, H>(tr: Training<W, G, H>, affinity: bool, es: seq<Event>, k: nat)
    requires |tr.w0| == |tr.h0| == tr.groups && Run(tr, affinity, es).Some?
    requires At(tr, affinity, es).main != Finished && At(tr, affinity, es).iteration == k
    ensures exists fs :: Settles(tr, affinity, fs, k)
    decreases WorkAt(tr, affinity, es)
  {
    hide *;
    RunInv(tr, affinity, es);
    var s := At(tr, affinity, es);
    var e := Enabled(tr, s);
    if Stuck(s) {
      SettlesIntro(tr, affinity, es, k);
    } else {
      OverMeans(s);
      CanMove(tr, s);
      EnabledMoves(tr, s);
      RunOne(tr, affinity, es, e);
      AtIs(tr, affinity, es + [e]);
      if e == Toggle {
        SettlesIntro(tr, affinity, es + [e], k);
      } else {
        WorkShrinks(tr, s, e);
        WorkAtIs(tr, affinity, es);
        WorkAtIs(tr, affinity, es + [e]);
        GoesOn(tr, affinity, es + [e], k);
      }
    }
  }

  ghost function WorkAt<W, G, H>(tr: Training<W, G, H>, affinity: bool, es: seq<Event>): nat
    requires |tr.w0| == |tr.h0| == tr.groups && Run(tr, affinity, es).Some?
  {
    WorkNonNegative(tr, At(tr, affinity, es));
    Work(tr, At(tr, affinity, es))
  }

  lemma {:induction false} WorkAtIs<W, G, H>(tr: Training<W, G, H>, affinity: bool, es: seq<Event>)
    requires |tr.w0| == |tr.h0| == tr.groups && Run(tr, affinity, es).Some?
    ensures WorkAt(tr, affinity, es) == Work(tr, At(tr, affinity, es))
  {
    hide Work, Run;
  }

  lemma {:induction false} AtIs<W, G, H>(tr: Training<W, G, H>, affinity: bool, es: seq<Event>)
    requires |tr.w0| == |tr.h0| == tr.groups && Run(tr, affinity, es).Some?
    ensures At(tr, affinity, es) == Run(tr, affinity, es).value
  {
    hide Run;
  }

  lemma {:induction false} OverMeans<W, G, H>(s: State<W, G, H>)
    ensures Over(s) ==> s.main == Finished
  {
  }

  lemma {:induction false} RunInv<W, G, H>(tr: Training<W, G, H>, affinity: bool, es: seq<Event>)
    requires |tr.w0| == |tr.h0| == tr.groups && Run(tr, affinity, es).Some?
    ensures Inv(tr, At(tr, affinity, es)) && Shaped(tr, At(tr, affinity, es))
  {
    hide Next;
    InvShaped(tr, At(tr, affinity, es));
    hide Inv;
  }

  lemma {:induction false} StartIs<W, G, H>(tr: Training<W, G, H>, affinity: bool, es: seq<Event>, k: nat)
    requires |tr.w0| == |tr.h0| == tr.groups && StartOf(tr, affinity, es, k)
    ensures Run(tr, affinity, es).Some? && At(tr, affinity, es).main != Finished && At(tr, affinity, es).iteration == k
  {
    hide Run;
  }

  /** Some run reaches the start of iteration k. */
  ghost predicate Reaches<W, G, H>(tr: Training<W, G, H>, affinity: bool, k: nat)
    requires |tr.w0| == |tr.h0| == tr.groups
  {
    exists es :: StartOf(tr, affinity, es, k)
  }

  /** Some run leaves the main thread waiting for a dead worker. */
  ghost predicate GetsStuck<W, G, H>(tr: Training<W, G, H>, affinity: bool)
    requires |tr.w0| == |tr.h0| == tr.groups
  {
    exists es :: Run(tr, affinity, es).Some? && Stuck(At(tr, affinity, es))
  }

  lemma {:induction false} SettledIs<W, G, H>(tr: Training<W, G, H>, affinity: bool, es: seq<Event>, k: nat)
    requires |tr.w0| == |tr.h0| == tr.groups && Settles(tr, affinity, es, k)
    ensures Reaches(tr, affinity, k + 1) || (GetsStuck(tr, affinity) && k == 1 && !OneGroup(tr))
  {
    hide Run, OneGroup, Stuck;
    if !StartOf(tr, affinity, es, k + 1) {
      DeadMeansGroups(tr, At(tr, affinity, es));
      StuckIsDead(At(tr, affinity, es));
    }
    hide Inv;
  }

  /** From the start of an iteration the next one is reached, or its step kills the worker. */
  lemma {:induction false} NextStart<W, G, H>(tr: Training<W, G, H>, affinity: bool, k: nat)
    requires |tr.w0| == |tr.h0| == tr.groups && Reaches(tr, affinity, k)
    ensures Reaches(tr, affinity, k + 1) || (GetsStuck(tr, affinity) && k == 1 && !OneGroup(tr))
  {
    var es :| StartOf(tr, affinity, es, k);
    hide *;
    StartIs(tr, affinity, es, k);
    GoesOn(tr, affinity, es, k);
    var fs :| Settles(tr, affinity, fs, k);
    SettledIs(tr, affinity, fs, k);
  }

  lemma {:induction false} StartsAtOnce<W, G, H>(tr: Training<W, G, H>, affinity: bool)
    requires |tr.w0| == |tr.h0| == tr.groups
    ensures Reaches(tr, affinity, 0)
  {
    assert StartOf(tr, affinity, [], 0);
  }

  lemma {:induction false} ReachesAll<W, G, H>(tr: Training<W, G, H>, affinity: bool, k: nat)
    requires |tr.w0| == |tr.h0| == tr.groups && (OneGroup(tr) || k <= 1)
    ensures Reaches(tr, affinity, k)
    decreases k
  {
    hide *;
    if k == 0 {
      StartsAtOnce(tr, affinity);
    } else {
      ReachesAll(tr, affinity, k - 1);
      NextStart(tr, affinity, k - 1);
    }
  }

  lemma {:induction false} ThirdNeedsOne<W, G, H>(tr: Training<W, G, H>, affinity: bool, k: nat)
    requires |tr.w0| == |tr.h0| == tr.groups && k >= 2 && Reaches(tr, affinity, k)
    ensures OneGroup(tr)
  {
    var es :| StartOf(tr, affinity, es, k);
    hide Run, OneGroup;
    DeadMeansGroups(tr, At(tr, affinity, es));
    hide Inv;
  }

  /** Training goes on for ever if and only if every sub-group was cut from the first parameter group; otherwise the
      first optimizer step kills the worker and some run ends with the main thread waiting for its reply. */
  lemma {:induction false} GoesOnIffOneGroup<W, G, H>(tr: Training<W, G, H>, affinity: bool)
    requires |tr.w0| == |tr.h0| == tr.groups
    ensures (forall k: nat :: Reaches(tr, affinity, k)) <==> OneGroup(tr)
    ensures Reaches(tr, affinity, 2) <==> OneGroup(tr)
    ensures GetsStuck(tr, affinity) <==> !OneGroup(tr)
  {
    hide *;
    if OneGroup(tr) {
      forall k: nat ensures Reaches(tr, affinity, k) { ReachesAll(tr, affinity, k); }
    } else {
      ReachesAll(tr, affinity, 1);
      NextStart(tr, affinity, 1);
      if Reaches(tr, affinity, 2) { ThirdNeedsOne(tr, affinity, 2); }
    }
    if GetsStuck(tr, affinity) { StuckNeedsGroups(tr, affinity); }
  }

  lemma {:induction false} StuckNeedsGroups<W, G, H>(tr: Training<W, G, H>, affinity: bool)
    requires |tr.w0| == |tr.h0| == tr.groups && GetsStuck(tr, affinity)
    ensures !OneGroup(tr)
  {
    var es :| Run(tr, affinity, es).Some? && Stuck(At(tr, affinity, es));
    hide Run, OneGroup;
    DeadMeansGroups(tr, At(tr, affinity, es));
    hide Inv;
  }
}
