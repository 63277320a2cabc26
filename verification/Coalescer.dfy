/** Coalesced cell reads: the queue with its timer and the batches in flight, under every
    interleaving of subscribing, cancelling, the timer, and requests that answer or fail. */
module Coalescer {
  import opened CubeModel

  type Address = map<string, string>

  /** Reads of one client and one cube share a request. */
  datatype Bucket = Bucket(client: nat, cube: string)

  /** What the server answers for an address at a given moment. */
  type Server = (nat, Bucket, Address) -> int

  datatype ReadState = Live | Cancelled | Delivered

  /** A value, an empty one, or the failure of the request. */
  datatype Outcome = Got(value: int) | NoValue | Failed

  /** What came back for a request: the values, perhaps too few, or a failure. */
  datatype Reply =
    | Answered(at: nat, bucket: Bucket, asked: seq<Address>, values: seq<int>)
    | Rejected(bucket: Bucket, asked: seq<Address>)

  /** `pushed` is everything the observer was ever given. */
  datatype Subscription = Subscription(bucket: Bucket, address: Address, state: ReadState, pushed: seq<Outcome>)

  function Deliver(r: Subscription, o: Outcome): Subscription {
    if r.state == Live then r.(state := Delivered, pushed := r.pushed + [o]) else r
  }

  function Unsubscribed(r: Subscription): Subscription {
    if r.state == Live then r.(state := Cancelled) else r
  }

  // ---------------------------------------------------------------- the queue

  type Pending = map<Bucket, seq<nat>>

  function Joined(pending: Pending, b: Bucket, id: nat): Pending {
    pending[b := (if b in pending then pending[b] else []) + [id]]
  }

  function RemoveFirst(ids: seq<nat>, id: nat): (r: seq<nat>)
    ensures forall x :: x in r ==> x in ids
    ensures forall x :: x in ids && x != id ==> x in r
  {
    if ids == [] then []
    else if ids[0] == id then ids[1..]
    else [ids[0]] + RemoveFirst(ids[1..], id)
  }

  /** The first place of the id, and no other, goes from the list. */
  lemma {:induction false} RemovesFirst(ids: seq<nat>, id: nat, p: nat)
    requires FirstAt(ids, id, p)
    ensures RemoveFirst(ids, id) == ids[..p] + ids[p + 1..]
  {
    if p == 0 {
      assert ids[..0] + ids[1..] == ids[1..];
    } else {
      var tail := ids[1..];
      assert ids[0] in ids[..p] && ids[..p] == [ids[0]] + tail[..p - 1];
      RemovesFirst(tail, id, p - 1);
      SplicedTail(ids, p);
    }
  }

  lemma SplicedTail(ids: seq<nat>, p: nat)
    requires 0 < p < |ids|
    ensures ids[..p] + ids[p + 1..] == [ids[0]] + (ids[1..][..p - 1] + ids[1..][p..])
  {}

  lemma {:induction false} RemovesNothing(ids: seq<nat>, id: nat)
    requires id !in ids
    ensures RemoveFirst(ids, id) == ids
  {
    if ids != [] { RemovesNothing(ids[1..], id); }
  }

  ghost predicate FirstAt(ids: seq<nat>, id: nat, p: nat) {
    p < |ids| && ids[p] == id && id !in ids[..p]
  }

  function Left(pending: Pending, b: Bucket, id: nat): Pending {
    if b !in pending then pending
    else
      var rest := RemoveFirst(pending[b], id);
      if rest == [] then pending - {b} else pending[b := rest]
  }

  datatype Batch = Batch(bucket: Bucket, ids: seq<nat>)

  ghost predicate HasBatch(batches: seq<Batch>, b: Bucket) {
    exists i :: 0 <= i < |batches| && batches[i].bucket == b
  }

  /** The batches are the buckets of the queue, each once, in some order. */
  ghost predicate Drained(pending: Pending, batches: seq<Batch>) {
    && (forall i :: 0 <= i < |batches| ==> batches[i].bucket in pending && batches[i].ids == pending[batches[i].bucket])
    && (forall b :: b in pending ==> HasBatch(batches, b))
    && (forall i, j :: 0 <= i < j < |batches| ==> batches[i].bucket != batches[j].bucket)
  }

  lemma OneMoreBatch(batches: seq<Batch>, last: Batch)
    ensures HasBatch(batches + [last], last.bucket)
    ensures forall b :: HasBatch(batches, b) ==> HasBatch(batches + [last], b)
  {
    var more := batches + [last];
    assert more[|batches|] == last;
    assert forall i :: 0 <= i < |batches| ==> more[i] == batches[i];
  }

  /** The part of the coalescer its lock guards. */
  class ReadQueue {
    var pending: Pending
    var armed: bool

    /** No bucket is empty, and a waiting read has a timer to flush it. */
    ghost predicate Valid()
      reads this
    {
      QueueOk(pending, armed)
    }

    constructor ()
      ensures Valid() && pending == map[] && !armed
    {
      pending := map[];
      armed := false;
    }

    method Enqueue(b: Bucket, id: nat)
      requires Valid()
      modifies this
      ensures Valid() && armed && pending == Joined(old(pending), b, id)
    {
      if b !in pending { pending := pending[b := []]; }
      pending := pending[b := pending[b] + [id]];
      if !armed { armed := true; }
    }

    method Cancel(b: Bucket, id: nat)
      requires Valid()
      modifies this`pending
      ensures Valid() && pending == Left(old(pending), b, id)
    {
      if b in pending {
        pending := pending[b := RemoveFirst(pending[b], id)];
        if pending[b] == [] { pending := pending - {b}; }
      }
    }

    method Drain() returns (batches: seq<Batch>)
      requires Valid()
      modifies this
      ensures Valid() && Drained(old(pending), batches) && pending == map[] && !armed
    {
      batches := [];
      var left := pending.Keys;
      while left != {}
        invariant left <= pending.Keys && pending == old(pending)
        invariant forall i :: 0 <= i < |batches| ==> batches[i].bucket in pending && batches[i].bucket !in left
        invariant forall i :: 0 <= i < |batches| ==> batches[i].ids == pending[batches[i].bucket]
        invariant forall b :: b in pending && b !in left ==> HasBatch(batches, b)
        invariant forall i, j :: 0 <= i < j < |batches| ==> batches[i].bucket != batches[j].bucket
      {
        var b :| b in left;
        OneMoreBatch(batches, Batch(b, pending[b]));
        batches := batches + [Batch(b, pending[b])];
        left := left - {b};
      }
      pending, armed := map[], false;
    }
  }

  ghost predicate QueueOk(pending: Pending, armed: bool) {
    (forall b :: b in pending ==> pending[b] != []) && (pending != map[] ==> armed)
  }

  // ---------------------------------------------------------------- batches in flight

  datatype Task =
    | Queued(bucket: Bucket, ids: seq<nat>)
    | Sent(bucket: Bucket, ids: seq<nat>)
    | FanOut(bucket: Bucket, ids: seq<nat>, values: seq<int>, next: nat)
    | OneByOne(bucket: Bucket, ids: seq<nat>, next: nat)
    | Asking(bucket: Bucket, ids: seq<nat>, next: nat)
    | Finished

  /** `replies` is everything that ever came back. */
  datatype State = State(
    cells: map<nat, Subscription>, pending: Pending, armed: bool, tasks: seq<Task>, replies: set<Reply>)

  datatype Step =
    | Subscribe(id: nat, bucket: Bucket, address: Address)
    | Dispose(id: nat)
    | Dequeue(id: nat)
    | Flush(batches: seq<Batch>)
    | Send(task: nat)
    | Answer(task: nat, at: nat, values: seq<int>)
    | Reject(task: nat)
    | Push(task: nat)
    | AskNext(task: nat)
    | AnswerOne(task: nat, at: nat, value: int)
    | RejectOne(task: nat)

  function AddressOf(s: State, id: nat): Address {
    if id in s.cells then s.cells[id].address else map[]
  }

  function Addresses(s: State, ids: seq<nat>): (r: seq<Address>)
    ensures |r| == |ids| && forall j :: 0 <= j < |r| ==> r[j] == AddressOf(s, ids[j])
  {
    seq(|ids|, j requires 0 <= j < |ids| => AddressOf(s, ids[j]))
  }

  /** A request is answered in the order of the addresses sent, though perhaps not in full. */
  ghost predicate InOrder(server: Server, at: nat, b: Bucket, asked: seq<Address>, values: seq<int>) {
    forall j :: 0 <= j < |asked| && j < |values| ==> values[j] == server(at, b, asked[j])
  }

  ghost predicate Enabled(server: Server, s: State, step: Step) {
    match step
    case Subscribe(id, _, _) => id !in s.cells
    case Dispose(id) => id in s.cells
    case Dequeue(id) => id in s.cells && s.cells[id].state != Live
    case Flush(batches) => s.armed && Drained(s.pending, batches)
    case Send(i) => i < |s.tasks| && s.tasks[i].Queued?
    case Answer(i, at, values) =>
      i < |s.tasks| && s.tasks[i].Sent? && InOrder(server, at, s.tasks[i].bucket, Addresses(s, s.tasks[i].ids), values)
    case Reject(i) => i < |s.tasks| && s.tasks[i].Sent?
    case Push(i) => i < |s.tasks| && s.tasks[i].FanOut?
    case AskNext(i) => i < |s.tasks| && s.tasks[i].OneByOne?
    case AnswerOne(i, at, value) =>
      && i < |s.tasks| && s.tasks[i].Asking? && s.tasks[i].next < |s.tasks[i].ids|
      && value == server(at, s.tasks[i].bucket, AddressOf(s, s.tasks[i].ids[s.tasks[i].next]))
    case RejectOne(i) => i < |s.tasks| && s.tasks[i].Asking? && s.tasks[i].next < |s.tasks[i].ids|
  }

  function StillLive(cells: map<nat, Subscription>, ids: seq<nat>): (r: seq<nat>)
    ensures forall id :: id in r <==> id in ids && id in cells && cells[id].state != Cancelled
  {
    if ids == [] then []
    else
      var n := |ids| - 1;
      StillLive(cells, ids[..n]) + (if ids[n] in cells && cells[ids[n]].state != Cancelled then [ids[n]] else [])
  }

  function DeliverTo(cells: map<nat, Subscription>, id: nat, o: Outcome): map<nat, Subscription> {
    if id in cells then cells[id := Deliver(cells[id], o)] else cells
  }

  /** The task after its step, and the read it pushes an outcome to. */
  datatype Effect = Effect(task: Task, to: Option<nat>, outcome: Outcome)

  function Quiet(t: Task): Effect { Effect(t, None, Got(0)) }

  function Move(s: State, t: Task, step: Step): Effect {
    match (t, step)
    case (Queued(b, ids), Send(_)) =>
      var live := StillLive(s.cells, ids);
      if live == [] then Quiet(Finished) else Quiet(Sent(b, live))
    case (Sent(b, live), Answer(_, _, values)) => Quiet(FanOut(b, live, values, 0))
    case (Sent(b, live), Reject(_)) =>
      if |live| == 1 then Effect(Finished, Some(live[0]), Failed)
      else Quiet(OneByOne(b, live, 0))
    case (FanOut(b, live, values, k), Push(_)) =>
      if k < |live| then
        Effect(FanOut(b, live, values, k + 1), Some(live[k]),
               if k < |values| then Got(values[k]) else NoValue)
      else Quiet(Finished)
    case (OneByOne(b, live, k), AskNext(_)) =>
      if k >= |live| then Quiet(Finished)
      else if live[k] in s.cells && s.cells[live[k]].state == Cancelled then Quiet(OneByOne(b, live, k + 1))
      else Quiet(Asking(b, live, k))
    case (Asking(b, live, k), AnswerOne(_, _, value)) =>
      if k < |live| then Effect(OneByOne(b, live, k + 1), Some(live[k]), Got(value)) else Quiet(t)
    case (Asking(b, live, k), RejectOne(_)) =>
      if k < |live| then Effect(OneByOne(b, live, k + 1), Some(live[k]), Failed) else Quiet(t)
    case _ => Quiet(t)
  }

  /** What a step brings back from the server. */
  function ReplyTo(s: State, t: Task, step: Step): set<Reply> {
    match (t, step)
    case (Sent(b, live), Answer(_, at, values)) => {Answered(at, b, Addresses(s, live), values)}
    case (Sent(b, live), Reject(_)) => {Rejected(b, Addresses(s, live))}
    case (Asking(b, live, k), AnswerOne(_, at, value)) =>
      if k < |live| then {Answered(at, b, [AddressOf(s, live[k])], [value])} else {}
    case (Asking(b, live, k), RejectOne(_)) => if k < |live| then {Rejected(b, [AddressOf(s, live[k])])} else {}
    case _ => {}
  }

  function Moved(s: State, i: nat, step: Step): State
    requires i < |s.tasks|
  {
    var e := Move(s, s.tasks[i], step);
    s.(tasks := s.tasks[i := e.task], replies := s.replies + ReplyTo(s, s.tasks[i], step),
       cells := if e.to.Some? then DeliverTo(s.cells, e.to.value, e.outcome) else s.cells)
  }

  function Queue(batches: seq<Batch>): (r: seq<Task>)
    ensures |r| == |batches|
    ensures forall i :: 0 <= i < |r| ==> r[i] == Queued(batches[i].bucket, batches[i].ids)
  {
    seq(|batches|, i requires 0 <= i < |batches| => Queued(batches[i].bucket, batches[i].ids))
  }

  ghost function Apply(server: Server, s: State, step: Step): State
    requires Enabled(server, s, step)
  {
    match step
    case Subscribe(id, b, a) =>
      s.(cells := s.cells[id := Subscription(b, a, Live, [])], pending := Joined(s.pending, b, id), armed := true)
    case Dispose(id) => s.(cells := s.cells[id := Unsubscribed(s.cells[id])])
    case Dequeue(id) => s.(pending := Left(s.pending, s.cells[id].bucket, id))
    case Flush(batches) => s.(pending := map[], armed := false, tasks := s.tasks + Queue(batches))
    case Send(i) => Moved(s, i, step)
    case Answer(i, _, _) => Moved(s, i, step)
    case Reject(i) => Moved(s, i, step)
    case Push(i) => Moved(s, i, step)
    case AskNext(i) => Moved(s, i, step)
    case AnswerOne(i, _, _) => Moved(s, i, step)
    case RejectOne(i) => Moved(s, i, step)
  }

  ghost predicate Run(server: Server, s: State, steps: seq<Step>, t: State)
    decreases |steps|
  {
    if steps == [] then s == t
    else Enabled(server, s, steps[0]) && Run(server, Apply(server, s, steps[0]), steps[1..], t)
  }

  const IDLE := State(map[], map[], false, [], {})

  // ---------------------------------------------------------------- the invariant

  /** What an observer was given is its own: at most one outcome, and what came back for it. */
  ghost predicate PushedOk(replies: set<Reply>, r: Subscription) {
    && (r.state != Delivered ==> r.pushed == [])
    && (r.state == Delivered ==> |r.pushed| == 1 && IsOwn(replies, r, r.pushed[0]))
  }

  /** The value at its place in a reply to a request that asked for its address; nothing where that
      reply ended before its place; a failure where a request for its address alone failed. */
  ghost predicate IsOwn(replies: set<Reply>, r: Subscription, o: Outcome) {
    exists reply, k :: reply in replies && ServedBy(reply, k, r, o)
  }

  ghost predicate ServedBy(reply: Reply, k: nat, r: Subscription, o: Outcome) {
    && reply.bucket == r.bucket && k < |reply.asked| && reply.asked[k] == r.address
    && match o
       case Failed => reply.Rejected? && |reply.asked| == 1
       case NoValue => reply.Answered? && |reply.values| <= k
       case Got(v) => reply.Answered? && k < |reply.values| && reply.values[k] == v
  }

  /** The server answers each address it is asked, in order. */
  ghost predicate RepliesOk(server: Server, replies: set<Reply>) {
    forall reply :: reply in replies && reply.Answered? ==>
      InOrder(server, reply.at, reply.bucket, reply.asked, reply.values)
  }

  function Remaining(t: Task): seq<nat> {
    match t
    case Queued(_, ids) => ids
    case Sent(_, live) => live
    case FanOut(_, live, _, k) => if k <= |live| then live[k..] else []
    case OneByOne(_, live, k) => if k <= |live| then live[k..] else []
    case Asking(_, live, k) => if k <= |live| then live[k..] else []
    case Finished => []
  }

  ghost predicate TaskOk(replies: set<Reply>, cells: map<nat, Subscription>, t: Task) {
    t.Finished? || (
      && (forall id :: id in t.ids ==> id in cells && cells[id].bucket == t.bucket)
      && (t.FanOut? ==> exists reply :: reply in replies && RepliedTo(reply, cells, t))
      && (t.FanOut? || t.OneByOne? ==> t.next <= |t.ids|)
      && (t.Asking? ==> t.next < |t.ids|))
  }

  /** The values fanned out are those of this reply, which asked for the batch's addresses. */
  ghost predicate RepliedTo(reply: Reply, cells: map<nat, Subscription>, t: Task)
    requires t.FanOut?
  {
    && reply.Answered? && reply.bucket == t.bucket && reply.values == t.values && |reply.asked| == |t.ids|
    && forall j :: 0 <= j < |t.ids| && t.ids[j] in cells ==> reply.asked[j] == cells[t.ids[j]].address
  }

  /** A read not yet settled is in the queue or in a batch that has still to serve it. */
  ghost predicate Located(s: State, id: nat) {
    || (id in s.cells && s.cells[id].bucket in s.pending && id in s.pending[s.cells[id].bucket])
    || exists i :: 0 <= i < |s.tasks| && id in Remaining(s.tasks[i])
  }

  ghost predicate ReadsOk(replies: set<Reply>, cells: map<nat, Subscription>) {
    forall id :: id in cells ==> PushedOk(replies, cells[id])
  }

  ghost predicate PendingOk(s: State) {
    forall b, id :: b in s.pending && id in s.pending[b] ==> id in s.cells && s.cells[id].bucket == b
  }

  ghost predicate TasksOk(s: State) {
    forall i :: 0 <= i < |s.tasks| ==> TaskOk(s.replies, s.cells, s.tasks[i])
  }

  ghost predicate AllLocated(s: State) {
    forall id :: id in s.cells && s.cells[id].state == Live ==> Located(s, id)
  }

  ghost predicate Inv(server: Server, s: State) {
    && QueueOk(s.pending, s.armed) && PendingOk(s) && RepliesOk(server, s.replies) && ReadsOk(s.replies, s.cells)
    && TasksOk(s) && AllLocated(s)
  }

  // ---------------------------------------------------------------- every step keeps it

  lemma DeliverKeeps(replies: set<Reply>, cells: map<nat, Subscription>, id: nat, o: Outcome)
    requires ReadsOk(replies, cells) && id in cells && IsOwn(replies, cells[id], o)
    ensures ReadsOk(replies, DeliverTo(cells, id, o))
  {
    var r := cells[id];
    assert PushedOk(replies, r);
    assert IsOwn(replies, Deliver(r, o), o) by { SameOwner(replies, r, Deliver(r, o), o); }
    assert PushedOk(replies, Deliver(r, o));
    assert DeliverTo(cells, id, o) == cells[id := Deliver(r, o)];
  }

  lemma SameOwner(replies: set<Reply>, r: Subscription, t: Subscription, o: Outcome)
    requires IsOwn(replies, r, o) && r.bucket == t.bucket && r.address == t.address
    ensures IsOwn(replies, t, o)
  {
    var reply, k :| reply in replies && ServedBy(reply, k, r, o);
    assert ServedBy(reply, k, t, o);
  }

  /** More replies take nothing away. */
  lemma MoreReplies(a: set<Reply>, b: set<Reply>, cells: map<nat, Subscription>)
    requires ReadsOk(a, cells) && a <= b
    ensures ReadsOk(b, cells)
  {
    forall id | id in cells
      ensures PushedOk(b, cells[id])
    {
      assert PushedOk(a, cells[id]);
      if cells[id].state == Delivered {
        var reply, k :| reply in a && ServedBy(reply, k, cells[id], cells[id].pushed[0]);
        assert reply in b;
      }
    }
  }

  /** What an effect pushes is its read's own. */
  lemma PushIsOwn(server: Server, s: State, i: nat, step: Step)
    requires Inv(server, s) && Enabled(server, s, step) && i < |s.tasks|
    requires ActsOn(step, i)
    ensures var e := Move(s, s.tasks[i], step);
            e.to.Some? ==> e.to.value in s.cells && IsOwn(Moved(s, i, step).replies, s.cells[e.to.value], e.outcome)
  {
    hide IsOwn, RepliesOk, ReadsOk, AllLocated, PendingOk, InOrder, DeliverTo;
    var t, e := s.tasks[i], Move(s, s.tasks[i], step);
    assert TaskOk(s.replies, s.cells, t);
    if e.to.Some? {
      var r, now := s.cells[e.to.value], Moved(s, i, step).replies;
      if t.FanOut? {
        var reply :| reply in s.replies && RepliedTo(reply, s.cells, t);
        assert ServedBy(reply, t.next, r, e.outcome);
        OwnBy(now, reply, t.next, r, e.outcome);
      } else {
        var reply :| reply in ReplyTo(s, t, step);
        assert ServedBy(reply, 0, r, e.outcome);
        OwnBy(now, reply, 0, r, e.outcome);
      }
    }
  }

  lemma OwnBy(replies: set<Reply>, reply: Reply, k: nat, r: Subscription, o: Outcome)
    requires reply in replies && ServedBy(reply, k, r, o)
    ensures IsOwn(replies, r, o)
  {}

  lemma RepliesStayOk(server: Server, s: State, i: nat, step: Step)
    requires Inv(server, s) && Enabled(server, s, step) && i < |s.tasks| && ActsOn(step, i)
    ensures RepliesOk(server, Moved(s, i, step).replies)
  {
    hide TasksOk, ReadsOk, AllLocated, PendingOk, Move;
    forall reply | reply in ReplyTo(s, s.tasks[i], step) && reply.Answered?
      ensures InOrder(server, reply.at, reply.bucket, reply.asked, reply.values)
    {}
  }

  predicate ActsOn(step: Step, i: nat) {
    match step
    case Send(j) => i == j
    case Answer(j, _, _) => i == j
    case Reject(j) => i == j
    case Push(j) => i == j
    case AskNext(j) => i == j
    case AnswerOne(j, _, _) => i == j
    case RejectOne(j) => i == j
    case _ => false
  }

  /** Cells keep their bucket and address, and once settled stay as they are. */
  ghost predicate Later(a: map<nat, Subscription>, b: map<nat, Subscription>) {
    forall id :: id in a ==>
      && id in b && b[id].bucket == a[id].bucket && b[id].address == a[id].address
      && (a[id].state != Live ==> b[id] == a[id])
  }

  lemma TaskOkLater(was: set<Reply>, now: set<Reply>, a: map<nat, Subscription>, b: map<nat, Subscription>, t: Task)
    requires TaskOk(was, a, t) && Later(a, b) && was <= now
    ensures TaskOk(now, b, t)
  {
    if t.FanOut? {
      var reply :| reply in was && RepliedTo(reply, a, t);
      assert reply in now && RepliedTo(reply, b, t);
    }
  }

  lemma MoveKeepsTask(server: Server, s: State, i: nat, step: Step)
    requires Inv(server, s) && Enabled(server, s, step) && i < |s.tasks| && ActsOn(step, i)
    ensures TaskOk(Moved(s, i, step).replies, s.cells, Move(s, s.tasks[i], step).task)
  {
    hide RepliesOk, ReadsOk, AllLocated, PendingOk, InOrder, DeliverTo;
    var t := s.tasks[i];
    assert TaskOk(s.replies, s.cells, t);
    var u, now := Move(s, t, step).task, Moved(s, i, step).replies;
    match step
    case Answer(_, at, values) =>
      var reply := Answered(at, t.bucket, Addresses(s, t.ids), values);
      assert reply in now && RepliedTo(reply, s.cells, u);
    case Push(_) =>
      var reply :| reply in s.replies && RepliedTo(reply, s.cells, t);
      if u.FanOut? { assert reply in now && RepliedTo(reply, s.cells, u); }
    case _ =>
  }

  lemma TailSplit(ids: seq<nat>, k: nat, id: nat)
    requires k <= |ids| && id in ids[k..]
    ensures k < |ids| && (id == ids[k] || id in ids[k + 1..])
  {
    assert ids[k..] == [ids[k]] + ids[k + 1..];
  }

  /** A read a task had still to serve is still to be served by it, or settled by this step. */
  lemma MoveServes(server: Server, s: State, i: nat, step: Step, id: nat)
    requires Enabled(server, s, step) && i < |s.tasks| && ActsOn(step, i)
    requires id in s.cells && id in Remaining(s.tasks[i])
    ensures StillServed(s, Move(s, s.tasks[i], step), id)
  {
    hide InOrder, Move, StillServed;
    var t := s.tasks[i];
    match t
    case Queued(_, _) => BatchServes(s, t, step, id);
    case Sent(_, _) => BatchServes(s, t, step, id);
    case FanOut(_, live, _, k) =>
      TailSplit(live, k, id);
      CursorServes(s, t, step, id);
    case OneByOne(_, live, k) =>
      TailSplit(live, k, id);
      CursorServes(s, t, step, id);
    case Asking(_, live, k) =>
      TailSplit(live, k, id);
      CursorServes(s, t, step, id);
  }

  ghost predicate StillServed(s: State, e: Effect, id: nat)
    requires id in s.cells
  {
    id in Remaining(e.task) || e.to == Some(id) || s.cells[id].state == Cancelled
  }

  lemma BatchServes(s: State, t: Task, step: Step, id: nat)
    requires id in s.cells && (t.Queued? || t.Sent?) && id in t.ids
    ensures StillServed(s, Move(s, t, step), id)
  {
    hide Addresses;
  }

  lemma CursorServes(s: State, t: Task, step: Step, id: nat)
    requires id in s.cells && (t.FanOut? || t.OneByOne? || t.Asking?)
    requires t.next < |t.ids| && (id == t.ids[t.next] || id in t.ids[t.next + 1..])
    ensures StillServed(s, Move(s, t, step), id)
  {
    hide Move, StillServed;
    assert t.ids[t.next..] == [t.ids[t.next]] + t.ids[t.next + 1..];
    if t.FanOut? {
      FanOutServes(s, t, step, id);
    } else {
      OneServes(s, t, step, id);
    }
  }

  lemma FanOutServes(s: State, t: Task, step: Step, id: nat)
    requires id in s.cells && t.FanOut? && t.next < |t.ids| && id in t.ids[t.next..]
    requires id == t.ids[t.next] || id in t.ids[t.next + 1..]
    ensures StillServed(s, Move(s, t, step), id)
  {
    hide Addresses, StillLive;
  }

  lemma OneServes(s: State, t: Task, step: Step, id: nat)
    requires id in s.cells && (t.OneByOne? || t.Asking?) && t.next < |t.ids| && id in t.ids[t.next..]
    requires id == t.ids[t.next] || id in t.ids[t.next + 1..]
    ensures StillServed(s, Move(s, t, step), id)
  {
    hide Addresses, StillLive;
  }

  lemma MovedKeepsInv(server: Server, s: State, i: nat, step: Step)
    requires Inv(server, s) && Enabled(server, s, step) && i < |s.tasks| && ActsOn(step, i)
    ensures Inv(server, Moved(s, i, step)) && Later(s.cells, Moved(s, i, step).cells)
  {
    hide Move, TaskOk, Remaining, PushedOk, IsOwn, Enabled, RepliesOk, ReplyTo;
    var e := Move(s, s.tasks[i], step);
    var t := Moved(s, i, step);
    PushIsOwn(server, s, i, step);
    MoveKeepsTask(server, s, i, step);
    RepliesStayOk(server, s, i, step);
    MoreReplies(s.replies, t.replies, s.cells);
    if e.to.Some? { DeliverKeeps(t.replies, s.cells, e.to.value, e.outcome); }
    assert Later(s.cells, t.cells);
    forall j | 0 <= j < |t.tasks|
      ensures TaskOk(t.replies, t.cells, t.tasks[j])
    {
      if j == i {
        TaskOkLater(t.replies, t.replies, s.cells, t.cells, t.tasks[j]);
      } else {
        TaskOkLater(s.replies, t.replies, s.cells, t.cells, t.tasks[j]);
      }
    }
    forall id | id in t.cells && t.cells[id].state == Live
      ensures Located(t, id)
    {
      MovedLocates(server, s, i, step, id);
    }
  }

  lemma MovedLocates(server: Server, s: State, i: nat, step: Step, id: nat)
    requires Inv(server, s) && Enabled(server, s, step) && i < |s.tasks| && ActsOn(step, i)
    requires id in Moved(s, i, step).cells && Moved(s, i, step).cells[id].state == Live
    ensures Located(Moved(s, i, step), id)
  {
    hide Move, TaskOk, Remaining, PushedOk, IsOwn, Enabled;
    var t := Moved(s, i, step);
    assert id in s.cells && s.cells[id].state == Live && Located(s, id);
    if !(s.cells[id].bucket in s.pending && id in s.pending[s.cells[id].bucket]) {
      var j :| 0 <= j < |s.tasks| && id in Remaining(s.tasks[j]);
      if j == i { MoveServes(server, s, i, step, id); }
      assert id in Remaining(t.tasks[j]);
    }
  }

  lemma SubscribeKeepsInv(server: Server, s: State, id: nat, b: Bucket, a: Address)
    requires Inv(server, s) && id !in s.cells
    ensures Inv(server, Apply(server, s, Subscribe(id, b, a)))
    ensures Later(s.cells, Apply(server, s, Subscribe(id, b, a)).cells)
  {
    hide TaskOk, Remaining, PushedOk, Located;
    var t := Apply(server, s, Subscribe(id, b, a));
    NewIsOk(s.replies, b, a);
    forall j | 0 <= j < |t.tasks|
      ensures TaskOk(t.replies, t.cells, t.tasks[j])
    {
      TaskOkLater(s.replies, t.replies, s.cells, t.cells, t.tasks[j]);
    }
    forall x | x in t.cells && t.cells[x].state == Live
      ensures Located(t, x)
    {
      SubscribeLocates(server, s, id, b, a, x);
    }
  }

  lemma SubscribeLocates(server: Server, s: State, id: nat, b: Bucket, a: Address, x: nat)
    requires PendingOk(s) && AllLocated(s) && id !in s.cells
    requires x == id || (x in s.cells && s.cells[x].state == Live)
    ensures Located(Apply(server, s, Subscribe(id, b, a)), x)
  {
    hide Remaining;
    var t := Apply(server, s, Subscribe(id, b, a));
    if x == id {
      assert id in t.pending[b];
    } else {
      StaysLocated(s, t, x);
    }
  }

  lemma NewIsOk(replies: set<Reply>, b: Bucket, a: Address)
    ensures PushedOk(replies, Subscription(b, a, Live, []))
  {}

  /** Where the queue only loses settled reads and tasks are only added, a read stays located. */
  lemma StaysLocated(s: State, t: State, x: nat)
    requires x in s.cells && x in t.cells && t.cells[x].bucket == s.cells[x].bucket && Located(s, x)
    requires s.cells[x].bucket in s.pending && x in s.pending[s.cells[x].bucket] ==>
               s.cells[x].bucket in t.pending && x in t.pending[s.cells[x].bucket]
    requires s.tasks <= t.tasks
    ensures Located(t, x)
  {
    hide Remaining;
    if !(s.cells[x].bucket in s.pending && x in s.pending[s.cells[x].bucket]) {
      var i :| 0 <= i < |s.tasks| && x in Remaining(s.tasks[i]);
      assert t.tasks[i] == s.tasks[i];
    }
  }

  lemma DisposeKeepsInv(server: Server, s: State, id: nat)
    requires Inv(server, s) && id in s.cells
    ensures Inv(server, Apply(server, s, Dispose(id))) && Later(s.cells, Apply(server, s, Dispose(id)).cells)
  {
    hide TaskOk, Remaining, IsOwn;
    var t := Apply(server, s, Dispose(id));
    assert PushedOk(s.replies, s.cells[id]);
    forall j | 0 <= j < |t.tasks|
      ensures TaskOk(t.replies, t.cells, t.tasks[j])
    {
      TaskOkLater(s.replies, t.replies, s.cells, t.cells, t.tasks[j]);
    }
    forall x | x in t.cells && t.cells[x].state == Live
      ensures Located(t, x)
    {
      StaysLocated(s, t, x);
    }
  }

  lemma DequeueKeepsInv(server: Server, s: State, id: nat)
    requires Inv(server, s) && id in s.cells && s.cells[id].state != Live
    ensures Inv(server, Apply(server, s, Dequeue(id)))
  {
    hide TaskOk, Remaining, PushedOk;
    var t := Apply(server, s, Dequeue(id));
    forall x | x in t.cells && t.cells[x].state == Live
      ensures Located(t, x)
    {
      StaysLocated(s, t, x);
    }
  }

  lemma FlushKeepsInv(server: Server, s: State, batches: seq<Batch>)
    requires Inv(server, s) && s.armed && Drained(s.pending, batches)
    ensures Inv(server, Apply(server, s, Flush(batches)))
  {
    hide PushedOk;
    var t := Apply(server, s, Flush(batches));
    forall j | 0 <= j < |t.tasks|
      ensures TaskOk(t.replies, t.cells, t.tasks[j])
    {
      if j < |s.tasks| { assert TaskOk(s.replies, s.cells, s.tasks[j]); }
    }
    forall x | x in t.cells && t.cells[x].state == Live
      ensures Located(t, x)
    {
      var b := s.cells[x].bucket;
      if b in s.pending && x in s.pending[b] {
        assert HasBatch(batches, b);
        var i :| 0 <= i < |batches| && batches[i].bucket == b;
        assert x in Remaining(t.tasks[|s.tasks| + i]);
      } else {
        StaysLocated(s, t, x);
      }
    }
  }

  lemma StepKeepsInv(server: Server, s: State, step: Step)
    requires Inv(server, s) && Enabled(server, s, step)
    ensures Inv(server, Apply(server, s, step)) && Later(s.cells, Apply(server, s, step).cells)
  {
    hide Inv, Moved;
    match step
    case Subscribe(id, b, a) => SubscribeKeepsInv(server, s, id, b, a);
    case Dispose(id) => DisposeKeepsInv(server, s, id);
    case Dequeue(id) => DequeueKeepsInv(server, s, id);
    case Flush(batches) => FlushKeepsInv(server, s, batches);
    case Send(i) => MovedKeepsInv(server, s, i, step);
    case Answer(i, _, _) => MovedKeepsInv(server, s, i, step);
    case Reject(i) => MovedKeepsInv(server, s, i, step);
    case Push(i) => MovedKeepsInv(server, s, i, step);
    case AskNext(i) => MovedKeepsInv(server, s, i, step);
    case AnswerOne(i, _, _) => MovedKeepsInv(server, s, i, step);
    case RejectOne(i) => MovedKeepsInv(server, s, i, step);
  }

  lemma {:induction false} RunKeepsInv(server: Server, s: State, steps: seq<Step>, t: State)
    requires Inv(server, s) && Run(server, s, steps, t)
    ensures Inv(server, t) && Later(s.cells, t.cells)
    decreases |steps|
  {
    hide Inv, Enabled, Apply;
    if steps != [] {
      StepKeepsInv(server, s, steps[0]);
      RunKeepsInv(server, Apply(server, s, steps[0]), steps[1..], t);
    }
  }

  lemma IdleOk(server: Server)
    ensures Inv(server, IDLE)
  {}

  // ---------------------------------------------------------------- main results

  /** In every run: a waiting read has a timer armed; an observer is given at most one outcome,
      exactly when its read is delivered, and its own; and once the timer is idle and every
      task is through, each read has been delivered or cancelled. */
  lemma EveryReadSettles(server: Server, steps: seq<Step>, t: State)
    requires Run(server, IDLE, steps, t)
    ensures t.pending != map[] ==> t.armed
    ensures forall id :: id in t.cells ==>
              && |t.cells[id].pushed| == (if t.cells[id].state == Delivered then 1 else 0)
              && (t.cells[id].state == Delivered ==> IsOwn(t.replies, t.cells[id], t.cells[id].pushed[0]))
    ensures RepliesOk(server, t.replies)
    ensures !t.armed && (forall i :: 0 <= i < |t.tasks| ==> t.tasks[i] == Finished) ==>
              forall id :: id in t.cells ==> t.cells[id].state != Live
  {
    hide TasksOk;
    IdleOk(server);
    RunKeepsInv(server, IDLE, steps, t);
    forall id | id in t.cells
      ensures PushedOk(t.replies, t.cells[id])
    {}
    assert AllLocated(t);
  }

  /** Whatever happens after a read is cancelled or delivered, it is never pushed to again. */
  lemma SettledForGood(server: Server, before: seq<Step>, s: State, after: seq<Step>, t: State, id: nat)
    requires Run(server, IDLE, before, s) && Run(server, s, after, t)
    requires id in s.cells && s.cells[id].state != Live
    ensures id in t.cells && t.cells[id] == s.cells[id]
    ensures s.cells[id].state == Cancelled ==> t.cells[id].pushed == []
  {
    hide Inv, Run;
    IdleOk(server);
    RunKeepsInv(server, IDLE, before, s);
    RunKeepsInv(server, s, after, t);
    EveryReadSettles(server, before, s);
  }

  /** Cancelling a read that waits settles it: it is never given anything. */
  lemma CancelSettles(server: Server, before: seq<Step>, s: State, id: nat, after: seq<Step>, t: State)
    requires Run(server, IDLE, before, s) && id in s.cells && s.cells[id].state == Live
    requires Run(server, Apply(server, s, Dispose(id)), after, t)
    ensures id in t.cells && t.cells[id].state == Cancelled && t.cells[id].pushed == []
  {
    hide Inv, Run;
    IdleOk(server);
    RunKeepsInv(server, IDLE, before, s);
    EveryReadSettles(server, before, s);
    StepKeepsInv(server, s, Dispose(id));
    RunKeepsInv(server, Apply(server, s, Dispose(id)), after, t);
  }

  /** The server's own answers to the addresses of a list of reads. */
  function TrueValues(server: Server, at: nat, b: Bucket, asked: seq<Address>): (r: seq<int>)
    ensures |r| == |asked| && forall j :: 0 <= j < |r| ==> r[j] == server(at, b, asked[j])
  {
    seq(|asked|, j requires 0 <= j < |asked| => server(at, b, asked[j]))
  }

  /** Pushing the rest of a batch gives every read of it that still waits the value at its place. */
  lemma {:induction false} PushesAll(server: Server, s: State, i: nat, at: nat) returns (steps: seq<Step>, t: State)
    requires i < |s.tasks| && s.tasks[i].FanOut? && s.tasks[i].next <= |s.tasks[i].ids|
    requires s.tasks[i].values == TrueValues(server, at, s.tasks[i].bucket, Addresses(s, s.tasks[i].ids))
    requires forall id :: id in s.tasks[i].ids ==> id in s.cells
    ensures Run(server, s, steps, t) && Later(s.cells, t.cells)
    ensures forall id :: id in s.tasks[i].ids[s.tasks[i].next..] && s.cells[id].state == Live ==>
              t.cells[id].pushed == s.cells[id].pushed + [Got(server(at, s.tasks[i].bucket, s.cells[id].address))]
    decreases |s.tasks[i].ids| - s.tasks[i].next
  {
    var task := s.tasks[i];
    if task.next == |task.ids| {
      steps, t := [], s;
    } else {
      var id := task.ids[task.next];
      var next := Apply(server, s, Push(i));
      assert task.ids[task.next..] == [id] + task.ids[task.next + 1..];
      OnePushed(server, s, i, at);
      var rest, last := PushesAll(server, next, i, at);
      steps, t := [Push(i)] + rest, last;
      assert steps[1..] == rest;
    }
  }

  lemma OnePushed(server: Server, s: State, i: nat, at: nat)
    requires i < |s.tasks| && s.tasks[i].FanOut? && s.tasks[i].next < |s.tasks[i].ids|
    requires s.tasks[i].values == TrueValues(server, at, s.tasks[i].bucket, Addresses(s, s.tasks[i].ids))
    requires forall id :: id in s.tasks[i].ids ==> id in s.cells
    ensures Enabled(server, s, Push(i))
    ensures var task, next := s.tasks[i], Apply(server, s, Push(i));
            var id := task.ids[task.next];
            && next.tasks[i] == FanOut(task.bucket, task.ids, task.values, task.next + 1)
            && Addresses(next, task.ids) == Addresses(s, task.ids)
            && next.cells == s.cells[id := Deliver(s.cells[id], Got(server(at, task.bucket, s.cells[id].address)))]
  {
    var task, next := s.tasks[i], Apply(server, s, Push(i));
    assert task.values[task.next] == server(at, task.bucket, AddressOf(s, task.ids[task.next]));
  }

  /** A batch that has been sent can be answered, and each read of it that still waits then gets what
      the server answers its address. */
  lemma AnswersReachReads(server: Server, s: State, i: nat, at: nat) returns (steps: seq<Step>, t: State)
    requires Inv(server, s) && i < |s.tasks| && s.tasks[i].Sent?
    ensures Run(server, s, steps, t)
    ensures forall id :: id in s.tasks[i].ids && id in s.cells && s.cells[id].state == Live ==>
              && id in t.cells && t.cells[id].state == Delivered
              && t.cells[id].pushed == [Got(server(at, s.tasks[i].bucket, s.cells[id].address))]
  {
    var task := s.tasks[i];
    assert TaskOk(s.replies, s.cells, task);
    var values := TrueValues(server, at, task.bucket, Addresses(s, task.ids));
    var answer := Answer(i, at, values);
    var next := Apply(server, s, answer);
    assert next.tasks[i] == FanOut(task.bucket, task.ids, values, 0) && next.cells == s.cells;
    assert Addresses(next, task.ids) == Addresses(s, task.ids);
    assert task.ids[0..] == task.ids;
    var rest, last := PushesAll(server, next, i, at);
    steps, t := [answer] + rest, last;
    assert steps[1..] == rest;
    RunKeepsInv(server, s, steps, t);
    forall id | id in task.ids && id in s.cells && s.cells[id].state == Live
      ensures t.cells[id].state == Delivered && s.cells[id].pushed == []
    {
      assert PushedOk(s.replies, s.cells[id]) && PushedOk(t.replies, t.cells[id]);
    }
  }

  /** How many more steps a task can take. */
  function Work(t: Task): nat {
    match t
    case Queued(_, ids) => 2 * |ids| + 4
    case Sent(_, live) => 2 * |live| + 3
    case FanOut(_, live, _, k) => if k <= |live| then 2 * (|live| - k) + 2 else 1
    case OneByOne(_, live, k) => if k <= |live| then 2 * (|live| - k) + 2 else 1
    case Asking(_, live, k) => if k <= |live| then 2 * (|live| - k) + 1 else 1
    case Finished => 0
  }

  lemma {:induction false} StillLiveNoMore(cells: map<nat, Subscription>, ids: seq<nat>)
    ensures |StillLive(cells, ids)| <= |ids|
  {
    if ids != [] { StillLiveNoMore(cells, ids[..|ids| - 1]); }
  }

  lemma HasStep(server: Server, s: State, i: nat)
    requires i < |s.tasks| && TaskOk(s.replies, s.cells, s.tasks[i]) && s.tasks[i] != Finished
    ensures exists step :: ActsOn(step, i) && Enabled(server, s, step)
  {
    hide TaskOk;
    match s.tasks[i]
    case Queued(_, _) => assert Enabled(server, s, Send(i)) && ActsOn(Send(i), i);
    case Sent(_, _) => assert Enabled(server, s, Reject(i)) && ActsOn(Reject(i), i);
    case FanOut(_, _, _, _) => assert Enabled(server, s, Push(i)) && ActsOn(Push(i), i);
    case OneByOne(_, _, _) => assert Enabled(server, s, AskNext(i)) && ActsOn(AskNext(i), i);
    case Asking(_, _, _) => CanReject(server, s, i);
  }

  lemma CanReject(server: Server, s: State, i: nat)
    requires i < |s.tasks| && TaskOk(s.replies, s.cells, s.tasks[i]) && s.tasks[i].Asking?
    ensures Enabled(server, s, RejectOne(i)) && ActsOn(RejectOne(i), i)
  {}

  lemma StepLowersWork(server: Server, s: State, i: nat, step: Step)
    requires i < |s.tasks| && TaskOk(s.replies, s.cells, s.tasks[i]) && s.tasks[i] != Finished
    requires ActsOn(step, i) && Enabled(server, s, step)
    ensures Work(Move(s, s.tasks[i], step).task) < Work(s.tasks[i])
  {
    hide Addresses, InOrder, RepliedTo;
    if s.tasks[i].Queued? { StillLiveNoMore(s.cells, s.tasks[i].ids); }
  }

  /** A task that is not through has a step to take, and each step leaves it less to do: with
      the requests answered one way or the other, every task comes to its end. */
  lemma TasksFinish(server: Server, s: State, i: nat)
    requires Inv(server, s) && i < |s.tasks| && s.tasks[i] != Finished
    ensures exists step :: ActsOn(step, i) && Enabled(server, s, step)
    ensures forall step :: ActsOn(step, i) && Enabled(server, s, step) ==>
              Work(Move(s, s.tasks[i], step).task) < Work(s.tasks[i])
  {
    hide TaskOk, Enabled, ActsOn, Move, Work;
    assert TaskOk(s.replies, s.cells, s.tasks[i]);
    HasStep(server, s, i);
    forall step | ActsOn(step, i) && Enabled(server, s, step)
      ensures Work(Move(s, s.tasks[i], step).task) < Work(s.tasks[i])
    {
      StepLowersWork(server, s, i, step);
    }
  }
}
