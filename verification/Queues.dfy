/** The semaphore-guarded queue (src/ctru_utils.rs). */
module Queues {
  import opened Tokens

  /** The kernel semaphore is created with this maximum. */
  const MAX_PERMITS: nat := 255

  datatype Queue<T> = Queue(vals: seq<T>, permits: nat)

  /** The first half of `add`: the value enters the queue. */
  function Push<T>(q: Queue<T>, v: T): Queue<T>
  {
    q.(vals := q.vals + [v])
  }

  /** The second half of `add`: one more permit. At the maximum the kernel refuses
      the release, the code ignores the refusal, and the count stays. */
  function Release<T>(q: Queue<T>): Queue<T>
  {
    if q.permits < MAX_PERMITS then q.(permits := q.permits + 1) else q
  }

  /** Waiting returns by taking a permit. */
  function Acquire<T>(q: Queue<T>): Queue<T>
    requires q.permits > 0
  {
    q.(permits := q.permits - 1)
  }

  /** `remove` takes the newest value. */
  function Newest<T>(q: Queue<T>): T
    requires q.vals != []
  {
    q.vals[|q.vals| - 1]
  }

  function Pop<T>(q: Queue<T>): Queue<T>
    requires q.vals != []
  {
    q.(vals := q.vals[..|q.vals| - 1])
  }

  /** Additions one after another, each followed by its release. */
  function AddAll<T>(q: Queue<T>, vs: seq<T>): Queue<T>
    decreases |vs|
  {
    if vs == [] then q else AddAll(Release(Push(q, vs[0])), vs[1..])
  }

  /** They end up in the queue in order, with as many permits as fit. */
  lemma {:induction false} AddAllAppends<T>(q: Queue<T>, vs: seq<T>)
    requires q.permits <= MAX_PERMITS
    ensures AddAll(q, vs).vals == q.vals + vs
    ensures AddAll(q, vs).permits == if q.permits + |vs| < MAX_PERMITS then q.permits + |vs| else MAX_PERMITS
    decreases |vs|
  {
    if vs == [] {
      assert q.vals + vs == q.vals;
    } else {
      AddAllAppends(Release(Push(q, vs[0])), vs[1..]);
      assert (q.vals + [vs[0]]) + vs[1..] == q.vals + vs;
    }
  }

  /** The one-shot event: raised by a signal, lowered by the wait that it ends. */
  class WaitSignal {
    var raised: bool

    constructor ()
      ensures !raised
    {
      raised := false;
    }

    method Signal()
      modifies this
      ensures raised
    {
      raised := true;
    }

    /** `wait`, as far as it returns. */
    method TryWait() returns (ended: bool)
      modifies this
      ensures ended == old(raised) && !raised
    {
      ended := raised;
      raised := false;
    }
  }

  class SyncQueue<T> {
    var vals: seq<T>
    var permits: nat

    ghost function View(): Queue<T>
      reads this
    {
      Queue(vals, permits)
    }

    constructor ()
      ensures View() == Queue([], 0)
    {
      vals, permits := [], 0;
    }

    method PushValue(val: T)
      modifies this
      ensures View() == Push(old(View()), val)
    {
      vals := vals + [val];
    }

    method ReleaseOne()
      modifies this
      ensures View() == Release(old(View()))
    {
      if permits < MAX_PERMITS {
        permits := permits + 1;
      }
    }

    /** Without interference the two halves of `add` run back to back. */
    method Add(val: T)
      modifies this
      ensures View() == Release(Push(old(View()), val))
    {
      PushValue(val);
      ReleaseOne();
    }

    method AddEach(vs: seq<T>)
      modifies this
      ensures View() == AddAll(old(View()), vs)
    {
      for i := 0 to |vs|
        invariant AddAll(View(), vs[i..]) == AddAll(old(View()), vs)
      {
        Add(vs[i]);
        assert vs[i..][1..] == vs[i + 1..];
      }
    }

    method Remove() returns (val: Option<T>)
      modifies this
      ensures old(vals) == [] ==> val == None && View() == old(View())
      ensures old(vals) != [] ==> val == Some(Newest(old(View()))) && View() == Pop(old(View()))
      ensures val.Some? ==> old(vals) == vals + [val.value]
    {
      if vals == [] {
        val := None;
      } else {
        val := Some(vals[|vals| - 1]);
        vals := vals[..|vals| - 1];
      }
    }

    /** `wait`, as far as it returns: whether there was a permit to take. */
    method TryWait() returns (taken: bool)
      modifies this
      ensures taken <==> old(permits) > 0
      ensures taken ==> View() == Acquire(old(View()))
      ensures !taken ==> View() == old(View())
    {
      taken := permits > 0;
      if taken {
        permits := permits - 1;
      }
    }
  }
}
