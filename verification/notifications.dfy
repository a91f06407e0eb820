/**
  The notification store: an ordered list of transient, severity-tagged
  messages plus a counter that hands out their ids. Entries are appended by
  `Add` and dismissed by `Remove`; nothing else changes the store.
 */
module Notifications {

  /** The severity tag: one constructor per literal of `Notification.type`. */
  datatype Kind = Success | Error | Info

  datatype Notification = Notification(id: nat, message: string, kind: Kind)

  /** The store's state: the visible list and the id the next entry will get. */
  datatype State = State(notifications: seq<Notification>, nextId: nat)

  /** Ids rise strictly from the front of the list to its back. */
  predicate IdsIncreasing(ns: seq<Notification>) {
    forall i, j :: 0 <= i < j < |ns| ==> ns[i].id < ns[j].id
  }

  /** No two entries of the list share an id. */
  predicate IdsDistinct(ns: seq<Notification>) {
    forall i, j :: 0 <= i < |ns| && 0 <= j < |ns| && i != j ==> ns[i].id != ns[j].id
  }

  /** Some entry of the list carries `id`. */
  predicate Mentions(ns: seq<Notification>, id: int) {
    exists i :: 0 <= i < |ns| && ns[i].id == id
  }

  /**
    The store invariant: every id already in the list was handed out before
    (it is below the counter), and ids rise strictly along the list.
   */
  predicate Valid(s: State) {
    && (forall i :: 0 <= i < |s.notifications| ==> s.notifications[i].id < s.nextId)
    && IdsIncreasing(s.notifications)
  }

  /** Strictly increasing ids are in particular pairwise distinct. */
  lemma IncreasingIsDistinct(ns: seq<Notification>)
    requires IdsIncreasing(ns)
    ensures IdsDistinct(ns)
  {
  }

  /** The state the store starts in. */
  function Initial(): (s: State)
    ensures Valid(s)
    ensures |s.notifications| == 0 && s.nextId == 0
  {
    State([], 0)
  }

  /**
    Appends one entry carrying `message` and `kind` verbatim; its id is the
    counter's value before the call, and the counter moves on by one.
   */
  function Add(s: State, message: string, kind: Kind): (r: State)
    ensures |r.notifications| == |s.notifications| + 1
    ensures r.notifications[..|s.notifications|] == s.notifications
    ensures r.notifications[|s.notifications|] == Notification(s.nextId, message, kind)
    ensures r.nextId == s.nextId + 1
    ensures Valid(s) ==> Valid(r)
  {
    State(s.notifications + [Notification(s.nextId, message, kind)], s.nextId + 1)
  }

  /** The entries of `ns` whose id differs from `id`, in their original order. */
  function Without(ns: seq<Notification>, id: int): (r: seq<Notification>)
    ensures |r| <= |ns|
    ensures forall n :: n in r <==> n in ns && n.id != id
    ensures IdsIncreasing(ns) ==> IdsIncreasing(r)
  {
    if |ns| == 0 then []
    else if ns[0].id == id then Without(ns[1..], id)
    else
      var rest := Without(ns[1..], id);
      assert forall n :: n in rest ==> n in ns[1..];
      [ns[0]] + rest
  }

  /** Filtering distributes over concatenation: it keeps relative order. */
  lemma {:induction false} WithoutAppend(a: seq<Notification>, b: seq<Notification>, id: int)
    ensures Without(a + b, id) == Without(a, id) + Without(b, id)
  {
    if |a| == 0 {
      assert a + b == b;
    } else {
      assert (a + b)[0] == a[0];
      assert (a + b)[1..] == a[1..] + b;
      WithoutAppend(a[1..], b, id);
    }
  }

  /** Filtering out an id nobody carries changes nothing. */
  lemma {:induction false} WithoutAbsent(ns: seq<Notification>, id: int)
    requires !Mentions(ns, id)
    ensures Without(ns, id) == ns
  {
    if |ns| > 0 {
      var tail := ns[1..];
      assert !Mentions(tail, id) by {
        forall i | 0 <= i < |tail|
          ensures tail[i].id != id
        {
          assert tail[i] == ns[i + 1];
        }
      }
      WithoutAbsent(ns[1..], id);
      assert ns == [ns[0]] + ns[1..];
    }
  }

  /** Dismisses every entry carrying `id`; the counter is left alone. */
  function Remove(s: State, id: int): (r: State)
    ensures r.nextId == s.nextId
    ensures !Mentions(r.notifications, id)
    ensures forall n :: n in r.notifications <==> n in s.notifications && n.id != id
    ensures Valid(s) ==> Valid(r)
  {
    var kept := Without(s.notifications, id);
    assert !Mentions(kept, id) by {
      forall i | 0 <= i < |kept|
        ensures kept[i].id != id
      {
        assert kept[i] in kept;
      }
    }
    if Valid(s) then
      assert forall i :: 0 <= i < |kept| ==> kept[i].id < s.nextId by {
        forall i | 0 <= i < |kept|
          ensures kept[i].id < s.nextId
        {
          assert kept[i] in s.notifications;
        }
      }
      State(kept, s.nextId)
    else
      State(kept, s.nextId)
  }

  /** Removing an id that is not in the list leaves the store exactly as it was. */
  lemma RemoveAbsentIsNoOp(s: State, id: int)
    requires !Mentions(s.notifications, id)
    ensures Remove(s, id) == s
  {
    WithoutAbsent(s.notifications, id);
  }

  /**
    In a valid store, removing an id that is present deletes exactly that one
    entry and keeps the others in their original order.
   */
  lemma RemoveDeletesOneEntry(s: State, k: nat, id: int)
    requires Valid(s)
    requires k < |s.notifications| && s.notifications[k].id == id
    ensures Remove(s, id).notifications == s.notifications[..k] + s.notifications[k + 1..]
  {
    var ns := s.notifications;
    IncreasingIsDistinct(ns);
    assert ns == ns[..k] + ([ns[k]] + ns[k + 1..]);
    WithoutAppend(ns[..k], [ns[k]] + ns[k + 1..], id);
    WithoutAppend([ns[k]], ns[k + 1..], id);
    var front, back := ns[..k], ns[k + 1..];
    assert !Mentions(front, id) by {
      forall i | 0 <= i < |front|
        ensures front[i].id != id
      {
        assert front[i] == ns[i];
      }
    }
    assert !Mentions(back, id) by {
      forall i | 0 <= i < |back|
        ensures back[i].id != id
      {
        assert back[i] == ns[k + 1 + i];
      }
    }
    WithoutAbsent(front, id);
    WithoutAbsent(back, id);
    assert [ns[k]][1..] == [];
    assert Without([ns[k]], id) == [];
  }

  /** One invocation of the store by its users. */
  datatype Op = Push(message: string, kind: Kind) | Dismiss(id: int)

  function Apply(s: State, op: Op): State {
    match op
    case Push(m, k) => Add(s, m, k)
    case Dismiss(id) => Remove(s, id)
  }

  /** The store after running `ops` in order from `s`. */
  function Run(s: State, ops: seq<Op>): State
    decreases |ops|
  {
    if |ops| == 0 then s else Run(Apply(s, ops[0]), ops[1..])
  }

  /** How many of the operations add a notification. */
  function Pushes(ops: seq<Op>): nat
    decreases |ops|
  {
    if |ops| == 0 then 0
    else (if ops[0].Push? then 1 else 0) + Pushes(ops[1..])
  }

  /**
    The ids handed out, in order, while running `ops` from `s`: the i-th push
    gets `s.nextId + i`, so no id is ever handed out twice, and each lies
    below every later counter value.
   */
  function Issued(s: State, ops: seq<Op>): (ids: seq<nat>)
    ensures forall i :: 0 <= i < |ids| ==> ids[i] == s.nextId + i
    ensures |ids| == Pushes(ops)
    ensures Run(s, ops).nextId == s.nextId + |ids|
    decreases |ops|
  {
    if |ops| == 0 then []
    else
      var here :=
        if ops[0].Push? then [Apply(s, ops[0]).notifications[|s.notifications|].id] else [];
      here + Issued(Apply(s, ops[0]), ops[1..])
  }

  /** Every reachable state of the store satisfies the invariant. */
  lemma {:induction false} RunKeepsValid(s: State, ops: seq<Op>)
    requires Valid(s)
    ensures Valid(Run(s, ops))
    decreases |ops|
  {
    if |ops| > 0 {
      RunKeepsValid(Apply(s, ops[0]), ops[1..]);
    }
  }

  /**
    The scenario: push "X" (info), push "Y" (error), dismiss 0; only the
    second entry survives, still carrying id 1.
   */
  lemma TwoPushesThenDismissFirst()
    ensures Run(Initial(), [Push("X", Info), Push("Y", Error), Dismiss(0)]).notifications
         == [Notification(1, "Y", Error)]
  {
  }
}
