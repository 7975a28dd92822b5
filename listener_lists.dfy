/**
 * Listener registration lists and the snapshot dispatch used when a model
 * object is about to be destroyed.
 *
 * A registration list is a sequence of listeners. JUCE's ListenerList adds a
 * listener only if it is not registered yet and removes the first occurrence;
 * a plain std::vector of listeners appends and erases the first occurrence.
 */
module ListenerLists {

  predicate NoDuplicates<L(==)>(s: seq<L>) {
    forall i, j :: 0 <= i < j < |s| ==> s[i] != s[j]
  }

  /** ListenerList::add: register `l` unless it is registered already. */
  function AddIfAbsent<L(==)>(s: seq<L>, l: L): (r: seq<L>)
    ensures l in r
    ensures forall i :: 0 <= i < |s| ==> s[i] in r
    ensures forall i :: 0 <= i < |r| ==> r[i] in s || r[i] == l
    ensures NoDuplicates(s) ==> NoDuplicates(r)
  {
    if l in s then s else s + [l]
  }

  /** ListenerList::remove and ARA::find_erase: drop the first occurrence of `l`, keep the order of the rest. */
  function RemoveFirst<L(==)>(s: seq<L>, l: L): (r: seq<L>)
    ensures |r| == if l in s then |s| - 1 else |s|
    ensures forall i :: 0 <= i < |s| && s[i] != l ==> s[i] in r
    ensures forall i :: 0 <= i < |r| ==> r[i] in s
    ensures l !in s ==> r == s
    ensures NoDuplicates(s) ==> NoDuplicates(r) && l !in r
  {
    if s == [] then []
    else if s[0] == l then s[1..]
    else [s[0]] + RemoveFirst(s[1..], l)
  }

  /** Removal cuts out exactly the first occurrence, at `i`, and keeps everything else in order. */
  lemma {:induction false} RemoveFirstCutsFirstOccurrence<L>(s: seq<L>, l: L, i: int)
    requires 0 <= i < |s| && s[i] == l && l !in s[..i]
    ensures RemoveFirst(s, l) == s[..i] + s[i + 1..]
  {
    if i > 0 {
      var t := s[1..];
      assert s[0] == s[..i][0];
      assert t[..i - 1] == s[1..i];
      assert forall x :: x in t[..i - 1] ==> x in s[..i];
      RemoveFirstCutsFirstOccurrence(t, l, i - 1);
      assert RemoveFirst(s, l) == [s[0]] + RemoveFirst(t, l);
      assert s[..i] == [s[0]] + t[..i - 1];
      assert s[i + 1..] == t[i..];
    }
  }

  /** What a listener's callback does to the list it is registered in. */
  datatype Edit<L> = Add(listener: L) | Remove(listener: L)

  function ApplyEdits<L(==)>(s: seq<L>, edits: seq<Edit<L>>): (r: seq<L>)
    ensures NoDuplicates(s) ==> NoDuplicates(r)
    decreases |edits|
  {
    if edits == [] then s
    else
      var s' := match edits[0]
        case Add(l) => AddIfAbsent(s, l)
        case Remove(l) => RemoveFirst(s, l);
      ApplyEdits(s', edits[1..])
  }

  /** The listeners that were called, in call order, and the registration list afterwards. */
  datatype Outcome<L> = Outcome(called: seq<L>, live: seq<L>)

  /**
   * Dispatch over a snapshot: the listeners of `pending` are visited in order;
   * one that is still registered in the live list at its turn is called, and
   * its callback (`react`) may add or remove registrations; one that is no
   * longer registered is skipped.
   */
  function Dispatch<L(==)>(pending: seq<L>, live: seq<L>, react: L -> seq<Edit<L>>): (o: Outcome<L>)
    ensures forall x :: x in o.called ==> x in pending
    ensures NoDuplicates(pending) ==> NoDuplicates(o.called)
  {
    if pending == [] then Outcome([], live)
    else
      var l := pending[0];
      var rest := Dispatch(pending[1..], if l in live then ApplyEdits(live, react(l)) else live, react);
      assert NoDuplicates(pending) ==> l !in pending[1..] && NoDuplicates(pending[1..]);
      if l in live then Outcome([l] + rest.called, rest.live) else rest
  }

  /** Dispatching over `p + q` is dispatching over `p`, then over `q` from the list `p` left behind. */
  lemma {:induction false} DispatchAppend<L>(p: seq<L>, q: seq<L>, live: seq<L>, react: L -> seq<Edit<L>>)
    ensures Dispatch(p + q, live, react).called
         == Dispatch(p, live, react).called + Dispatch(q, Dispatch(p, live, react).live, react).called
    ensures Dispatch(p + q, live, react).live == Dispatch(q, Dispatch(p, live, react).live, react).live
  {
    if p != [] {
      var l := p[0];
      assert (p + q)[0] == l && (p + q)[1..] == p[1..] + q;
      var live' := if l in live then ApplyEdits(live, react(l)) else live;
      DispatchAppend(p[1..], q, live', react);
      assert Dispatch(p + q, live, react) == (var o := Dispatch(p[1..] + q, live', react);
        if l in live then Outcome([l] + o.called, o.live) else o);
      assert Dispatch(p, live, react) == (var o := Dispatch(p[1..], live', react);
        if l in live then Outcome([l] + o.called, o.live) else o);
    } else {
      assert p + q == q;
    }
  }

  /**
   * A listener that occurs once in the snapshot is called exactly when it is
   * still registered after the callbacks of the listeners before it have run:
   * one removed by an earlier callback is skipped.
   */
  lemma CalledIffStillRegistered<L>(p: seq<L>, l: L, q: seq<L>, live: seq<L>, react: L -> seq<Edit<L>>)
    requires l !in p && l !in q
    ensures l in Dispatch(p + [l] + q, live, react).called <==> l in Dispatch(p, live, react).live
  {
    DispatchAppend(p, [l] + q, live, react);
    assert p + [l] + q == p + ([l] + q);
    var mid := Dispatch(p, live, react).live;
    assert ([l] + q)[1..] == q;
  }

  /** A listener outside the snapshot, such as one added during the dispatch, is never called. */
  lemma NewcomerNotCalled<L>(pending: seq<L>, live: seq<L>, react: L -> seq<Edit<L>>, l: L)
    requires l !in pending
    ensures l !in Dispatch(pending, live, react).called
  {
  }

  /** When no callback touches the list, every listener of the snapshot is called once, in order. */
  lemma {:induction false} UndisturbedDispatchCallsAll<L>(pending: seq<L>, live: seq<L>, react: L -> seq<Edit<L>>)
    requires forall x :: x in pending ==> x in live
    requires forall x :: react(x) == []
    ensures Dispatch(pending, live, react) == Outcome(pending, live)
  {
    if pending != [] {
      assert ApplyEdits(live, react(pending[0])) == live;
      UndisturbedDispatchCallsAll(pending[1..], live, react);
    }
  }

  /**
   * The loop of willDestroyAudioSource / willDestroyRegionSequence: copy the
   * registration list, then call each listener of the copy that is still
   * registered at its turn.
   */
  method CallOverSnapshot<L(==)>(listeners: seq<L>, react: L -> seq<Edit<L>>)
    returns (called: seq<L>, liveAfter: seq<L>)
    ensures Outcome(called, liveAfter) == Dispatch(listeners, listeners, react)
  {
    var snapshot := listeners;
    var live := listeners;
    called := [];
    var i := 0;
    while i < |snapshot|
      invariant 0 <= i <= |snapshot|
      invariant Dispatch(listeners, listeners, react)
             == var o := Dispatch(snapshot[i..], live, react); Outcome(called + o.called, o.live)
    {
      var l := snapshot[i];
      assert snapshot[i..][1..] == snapshot[i + 1..];
      if l in live {
        called := called + [l];
        live := ApplyEdits(live, react(l));
      }
      i := i + 1;
    }
    liveAfter := live;
  }

  /**
   * ListenerList::call with a callback that leaves the registrations alone:
   * every registered listener receives one call, built by `callFor`.
   */
  method CallEach<L, C>(listeners: seq<L>, callFor: L -> C) returns (calls: seq<C>)
    ensures |calls| == |listeners|
    ensures forall i :: 0 <= i < |listeners| ==> calls[i] == callFor(listeners[i])
  {
    calls := [];
    var i := 0;
    while i < |listeners|
      invariant 0 <= i <= |listeners|
      invariant |calls| == i
      invariant forall j :: 0 <= j < i ==> calls[j] == callFor(listeners[j])
    {
      calls := calls + [callFor(listeners[i])];
      i := i + 1;
    }
  }
}
