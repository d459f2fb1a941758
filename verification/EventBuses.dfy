/** The progress bus: every subscriber of a job has a queue of its own that keeps the
    newest 32 events it has not read. */
module EventBuses {
  import opened Wrappers
  import opened Jobs

  const QUEUE_SIZE := 32

  // ---------------------------------------------------------------- one queue over time

  /** What happens to a subscriber: an event is published for its job, or it reads. */
  datatype Op<E> = Published(event: E) | Read

  /** What the queue holds, what was published since the subscription, and which of
      those events the subscriber has read, by position. */
  datatype View<E> = View(items: seq<E>, published: seq<E>, taken: seq<int>) {
    /** The position of the oldest event still in the queue. */
    function Head(): int {
      |published| - |items|
    }
  }

  function Pushed<E>(items: seq<E>, event: E): seq<E> {
    if |items| < QUEUE_SIZE then items + [event] else items[1..] + [event]
  }

  function Next<E>(v: View<E>, op: Op<E>): View<E> {
    match op
    case Published(event) => v.(items := Pushed(v.items, event), published := v.published + [event])
    case Read => if v.items == [] then v else v.(items := v.items[1..], taken := v.taken + [v.Head()])
  }

  function After<E>(log: seq<Op<E>>): View<E> {
    if log == [] then View([], [], []) else Next(After(log[..|log| - 1]), log[|log| - 1])
  }

  /** The queue is the newest part of what was published, and never holds more than 32. */
  ghost predicate IsRecent<E>(v: View<E>) {
    && |v.items| <= QUEUE_SIZE
    && |v.items| <= |v.published|
    && v.items == v.published[v.Head()..]
  }

  /** What was read was read once, in order, and is no longer in the queue. */
  ghost predicate ReadInOrder<E>(v: View<E>) {
    && (forall k :: 0 <= k < |v.taken| ==> 0 <= v.taken[k] < v.Head())
    && (forall j, k :: 0 <= j < k < |v.taken| ==> v.taken[j] < v.taken[k])
  }

  lemma {:induction false} QueueIsRecentSuffix<E>(log: seq<Op<E>>)
    ensures IsRecent(After(log)) && |After(log).items| <= 32
    ensures ReadInOrder(After(log))
  {
    if log != [] {
      QueueIsRecentSuffix(log[..|log| - 1]);
    }
  }

  /** The event read last is the one whose position was recorded last. */
  ghost predicate IsLastTaken<E>(v: View<E>, event: E) {
    && v.taken != []
    && 0 <= v.taken[|v.taken| - 1] < |v.published|
    && event == v.published[v.taken[|v.taken| - 1]]
  }

  /** Event `i` is gone without having been read. */
  ghost predicate Lost<E>(v: View<E>, i: nat) {
    i < v.Head() && i !in v.taken
  }

  /** At the `k`-th operation a newer event arrived while events `i` to `i + 31` were
      all waiting unread. */
  ghost predicate CrowdedOut<E>(log: seq<Op<E>>, k: nat, i: nat)
    requires k < |log|
  {
    var v := After(log[..k]);
    && log[k].Published?
    && v.Head() == i
    && |v.items| == 32
  }

  lemma LostStep<E>(v: View<E>, op: Op<E>, i: nat)
    requires IsRecent(v) && ReadInOrder(v)
    ensures Lost(Next(v, op), i) <==> Lost(v, i) || (op.Published? && v.Head() == i && |v.items| == QUEUE_SIZE)
  {
    var w := Next(v, op);
    if op.Read? && v.items != [] {
      assert w.taken[|v.taken|] == v.Head();
      assert forall k :: 0 <= k < |v.taken| ==> w.taken[k] == v.taken[k];
    }
  }

  /** An event is lost exactly when 32 newer ones arrived while it was waiting unread. */
  lemma {:induction false} LostIffCrowdedOut<E>(log: seq<Op<E>>, i: nat)
    ensures Lost(After(log), i) <==> exists k :: 0 <= k < |log| && CrowdedOut(log, k, i)
  {
    if log != [] {
      var n := |log| - 1;
      var before := log[..n];
      QueueIsRecentSuffix(before);
      LostIffCrowdedOut(before, i);
      LostStep(After(before), log[n], i);
      assert forall k :: 0 <= k < n ==> before[..k] == log[..k];
      assert forall k :: 0 <= k < n ==> CrowdedOut(before, k, i) == CrowdedOut(log, k, i);
      assert CrowdedOut(log, n, i)
          <==> (log[n].Published? && After(before).Head() == i && |After(before).items| == QUEUE_SIZE);
    }
  }

  /** So a subscriber that is at most 31 events behind whenever one arrives loses nothing:
      everything published has been read or is waiting. */
  lemma PromptReaderLosesNothing<E>(log: seq<Op<E>>, i: nat)
    requires forall k :: 0 <= k < |log| && log[k].Published? ==> |After(log[..k]).items| < 32
    requires i < |After(log).published|
    ensures i in After(log).taken || i >= After(log).Head()
  {
    LostIffCrowdedOut(log, i);
  }

  // ---------------------------------------------------------------- the bus

  class Queue<E> {
    var items: seq<E>
    /** Everything that happened to this subscriber since it subscribed. */
    ghost var log: seq<Op<E>>
    /** How many events had been published for its job before. */
    ghost const joined: nat

    ghost predicate Valid()
      reads this
    {
      items == After(log).items
    }

    constructor (ghost joined: nat)
      ensures Valid() && log == [] && this.joined == joined
    {
      items, log, this.joined := [], [], joined;
    }

    method PutNowait(event: E) returns (ok: bool)
      modifies this`items
      ensures ok == (|old(items)| < QUEUE_SIZE)
      ensures items == if ok then old(items) + [event] else old(items)
    {
      ok := |items| < QUEUE_SIZE;
      if ok {
        items := items + [event];
      }
    }

    method GetNowait() returns (event: Option<E>)
      modifies this`items
      ensures old(items) == [] ==> event == None && items == []
      ensures old(items) != [] ==> event == Some(old(items)[0]) && items == old(items)[1..]
    {
      if items == [] {
        return None;
      }
      event := Some(items[0]);
      items := items[1..];
    }

    /** The bus's side: when the queue is full the oldest event makes room. */
    method Offer(event: E)
      requires Valid()
      modifies this
      ensures Valid() && log == old(log) + [Published(event)]
    {
      QueueIsRecentSuffix(log);
      var ok := PutNowait(event);
      if !ok {
        var _ := GetNowait();
        var _ := PutNowait(event);
      }
      assert (log + [Published(event)])[..|log|] == log;
      log := log + [Published(event)];
    }

    /** The subscriber's side: the oldest waiting event, if there is one. */
    method Get() returns (event: Option<E>)
      requires Valid()
      modifies this
      ensures Valid() && log == if event.Some? then old(log) + [Read] else old(log)
      ensures event.None? <==> old(items) == []
      ensures event.Some? ==> IsLastTaken(After(log), event.value)
    {
      QueueIsRecentSuffix(log);
      event := GetNowait();
      if event.Some? {
        assert (log + [Op<E>.Read])[..|log|] == log;
        log := log + [Read];
      }
    }
  }

  function SubscribersOf<E>(subs: map<JobId, seq<Queue<E>>>, id: JobId): seq<Queue<E>> {
    if id in subs then subs[id] else []
  }

  function SentTo<E>(sent: map<JobId, seq<E>>, id: JobId): seq<E> {
    if id in sent then sent[id] else []
  }

  /** The list without the first occurrence of `q`. */
  function Without<E>(queues: seq<Queue<E>>, q: Queue<E>): seq<Queue<E>> {
    if queues == [] then []
    else if queues[0] == q then queues[1..]
    else [queues[0]] + Without(queues[1..], q)
  }

  predicate NoneTwice<T(==)>(s: seq<T>) {
    forall i, j :: 0 <= i < j < |s| ==> s[i] != s[j]
  }

  lemma {:induction false} WithoutIsRemoval<E>(queues: seq<Queue<E>>, q: Queue<E>)
    requires NoneTwice(queues)
    ensures NoneTwice(Without(queues, q))
    ensures forall r :: r in Without(queues, q) <==> r in queues && r != q
  {
    if queues != [] {
      assert queues == [queues[0]] + queues[1..];
      assert NoneTwice(queues[1..]) && queues[0] !in queues[1..];
      if queues[0] != q {
        WithoutIsRemoval(queues[1..], q);
      }
    }
  }

  /** The loop of `publish`. */
  method OfferAll<E>(queues: seq<Queue<E>>, event: E)
    requires NoneTwice(queues)
    requires forall q | q in queues :: q.Valid()
    modifies queues
    ensures forall q | q in queues :: q.Valid() && q.log == old(q.log) + [Published(event)]
  {
    for i := 0 to |queues|
      invariant forall k | 0 <= k < |queues| :: queues[k].Valid()
      invariant forall k | 0 <= k < i :: queues[k].log == old(queues[k].log) + [Published(event)]
      invariant forall k | i <= k < |queues| :: queues[k].log == old(queues[k].log)
    {
      queues[i].Offer(event);
    }
  }

  lemma OneMoreFollows<E>(log: seq<Op<E>>, event: E, sent: seq<E>, joined: nat)
    requires joined <= |sent| && After(log).published == sent[joined..]
    ensures After(log + [Published(event)]).published == (sent + [event])[joined..]
  {
    assert (log + [Published(event)])[..|log|] == log;
  }

  class EventBus<E> {
    var subs: map<JobId, seq<Queue<E>>>
    /** Everything that was ever published, by job. */
    ghost var sent: map<JobId, seq<E>>

    /** No queue is registered twice, and no job keeps an empty list. */
    ghost predicate Apart()
      reads this
    {
      && (forall id | id in subs :: subs[id] != [])
      && (forall id | id in subs :: NoneTwice(subs[id]))
      && (forall id, other, q | id in subs && other in subs && q in subs[id] && q in subs[other] :: id == other)
    }

    /** A registered queue has seen exactly what was published for its job since it joined. */
    ghost predicate Follows(q: Queue<E>, id: JobId)
      reads this, q
    {
      && q.Valid()
      && q.joined <= |SentTo(sent, id)|
      && After(q.log).published == SentTo(sent, id)[q.joined..]
    }

    ghost predicate Valid()
      reads this, set id, q | id in subs && q in subs[id] :: q
    {
      && Apart()
      && forall id, q | id in subs && q in subs[id] :: Follows(q, id)
    }

    constructor ()
      ensures Valid() && subs == map[] && sent == map[]
    {
      subs, sent := map[], map[];
    }

    /** A fresh, empty queue at the end of the job's list. */
    method Subscribe(id: JobId) returns (q: Queue<E>)
      requires Valid()
      modifies this`subs
      ensures Valid() && fresh(q) && q.log == [] && q.joined == |SentTo(sent, id)|
      ensures subs == old(subs)[id := SubscribersOf(old(subs), id) + [q]]
    {
      q := new Queue(|SentTo(sent, id)|);
      assert forall other, r | other in subs && r in subs[other] :: r != q && Follows(r, other);
      subs := subs[id := SubscribersOf(subs, id) + [q]];
    }

    method Unsubscribe(id: JobId, q: Queue<E>)
      requires Valid()
      modifies this`subs
      ensures Valid() && q !in SubscribersOf(subs, id)
      ensures SubscribersOf(subs, id) == Without(SubscribersOf(old(subs), id), q)
      ensures subs - {id} == old(subs) - {id}
    {
      if id !in subs {
        return;
      }
      WithoutIsRemoval(subs[id], q);
      var left := Without(subs[id], q);
      subs := if left == [] then subs - {id} else subs[id := left];
    }

    /** Every subscriber of the job gets the event; nobody else is touched. */
    method Publish(id: JobId, event: E)
      requires Valid()
      modifies this`sent, SubscribersOf(subs, id)
      ensures Valid()
      ensures sent == old(sent)[id := SentTo(old(sent), id) + [event]]
      ensures forall q | q in SubscribersOf(subs, id) :: q.log == old(q.log) + [Published(event)]
    {
      var queues := SubscribersOf(subs, id);
      assert forall q | q in queues :: Follows(q, id);
      OfferAll(queues, event);
      sent := sent[id := SentTo(sent, id) + [event]];
      forall q | q in queues ensures Follows(q, id) {
        OneMoreFollows(old(q.log), event, SentTo(old(sent), id), q.joined);
      }
    }

    /** A subscriber reads; the bus and every other subscriber stay as they are. */
    method Receive(q: Queue<E>) returns (event: Option<E>)
      requires Valid() && q.Valid()
      modifies q
      ensures Valid() && q.Valid()
      ensures q.log == if event.Some? then old(q.log) + [Read] else old(q.log)
      ensures event.None? <==> old(q.items) == []
      ensures event.Some? ==> IsLastTaken(After(q.log), event.value)
    {
      event := q.Get();
      if event.Some? {
        assert (old(q.log) + [Op<E>.Read])[..|old(q.log)|] == old(q.log);
      }
    }

    /** In every state of the bus a subscriber's queue is the newest part, at most 32
        events, of what was published for its job since it subscribed. */
    lemma QueueHoldsNewest(id: JobId, q: Queue<E>)
      requires Valid() && q in SubscribersOf(subs, id)
      ensures |q.items| <= 32
      ensures q.joined + |q.items| <= |SentTo(sent, id)|
      ensures q.items == SentTo(sent, id)[|SentTo(sent, id)| - |q.items|..]
    {
      assert Follows(q, id);
      QueueIsRecentSuffix(q.log);
    }

    predicate HasSubscribers(id: JobId)
      reads this
    {
      SubscribersOf(subs, id) != []
    }
  }
}
