/**
  The phase queue registry: one list of pending script URLs per loading
  phase, and the one-shot "main completed" signal that fires when the main
  phase has drained down to its sentinel entry.
 */
module Queues {
  import opened Wrappers

  datatype Phase = Main | Vendor | Internal

  /** Placeholder that every queue starts with. */
  const Sentinel: string := "once"
  /** Second placeholder of the vendor and internal queues, cleared when their loop ends. */
  const Primed: string := "primed"

  /** The tags under which the phase queues are registered. */
  const MainTag: string := "main"
  const VendorTag: string := "vendor"
  const InternalTag: string := "internal"

  /** The tag under which a phase's queue is registered. */
  function Tag(p: Phase): string
  {
    match p
    case Main => MainTag
    case Vendor => VendorTag
    case Internal => InternalTag
  }

  /** Looking a tag up in the registry: only the three phase tags have a queue. */
  function PhaseOf(tag: string): (r: Option<Phase>)
    ensures r.Some? ==> Tag(r.value) == tag
  {
    if tag == MainTag then Some(Main)
    else if tag == VendorTag then Some(Vendor)
    else if tag == InternalTag then Some(Internal)
    else None
  }

  lemma PhaseOfTag(p: Phase)
    ensures PhaseOf(Tag(p)) == Some(p)
  {
  }

  /** The queue after removing the first occurrence of `u`, if any. */
  function RemoveFirst(q: seq<string>, u: string): (r: seq<string>)
    ensures u !in q ==> r == q
    ensures u in q ==> |r| == |q| - 1
  {
    if q == [] then []
    else if q[0] == u then q[1..]
    else [q[0]] + RemoveFirst(q[1..], u)
  }

  /** Splicing out the first index that holds `u` is exactly RemoveFirst. */
  lemma {:induction false} RemoveFirstAt(q: seq<string>, u: string, i: nat)
    requires i < |q| && q[i] == u && u !in q[..i]
    ensures RemoveFirst(q, u) == q[..i] + q[i + 1..]
  {
    if i > 0 {
      assert q[0] in q[..i];
      assert q[1..][..i - 1] == q[1..i];
      RemoveFirstAt(q[1..], u, i - 1);
      assert q[..i] == [q[0]] + q[1..i];
      assert q[1..][i..] == q[i + 1..];
    }
  }

  /** RemoveFirst takes away one copy of `u` and nothing else. */
  lemma {:induction false} RemoveFirstMultiset(q: seq<string>, u: string)
    ensures multiset(RemoveFirst(q, u)) == multiset(q) - multiset{u}
  {
    if q != [] {
      assert q == [q[0]] + q[1..];
      if q[0] != u {
        RemoveFirstMultiset(q[1..], u);
      }
    }
  }

  /** Index of the first occurrence of `u` in `q`, or -1 (the `indexOf` of the registry). */
  method IndexOf(q: seq<string>, u: string) returns (index: int)
    ensures index == -1 <==> u !in q
    ensures index != -1 ==> 0 <= index < |q| && q[index] == u && u !in q[..index]
  {
    index := 0;
    while index < |q|
      invariant 0 <= index <= |q|
      invariant u !in q[..index]
    {
      if q[index] == u {
        return;
      }
      assert q[..index + 1] == q[..index] + [q[index]];
      index := index + 1;
    }
    assert q[..index] == q;
    index := -1;
  }

  /** The registry's contents as a value: the three queues and how often the main signal fired. */
  datatype RegistryState = RegistryState(main: seq<string>, vendor: seq<string>, internal: seq<string>, signals: nat)
  {
    function Get(p: Phase): seq<string>
    {
      match p
      case Main => main
      case Vendor => vendor
      case Internal => internal
    }

    /** These queues with phase `p`'s queue replaced by `q`. */
    function With(p: Phase, q: seq<string>): (r: RegistryState)
      ensures r.Get(p) == q && r.signals == signals
      ensures forall o :: o != p ==> r.Get(o) == Get(o)
    {
      match p
      case Main => this.(main := q)
      case Vendor => this.(vendor := q)
      case Internal => this.(internal := q)
    }
  }

  /** The registry when the content script starts. */
  function Initial(): RegistryState
  {
    RegistryState([Sentinel], [Sentinel, Primed], [Sentinel, Primed], 0)
  }

  /** Registering `url` under `tag`: appended for a known phase, ignored otherwise. */
  function Pushed(s: RegistryState, tag: string, url: string): (r: RegistryState)
    ensures r.signals == s.signals
    ensures forall p :: r.Get(p) == if PhaseOf(tag) == Some(p) then s.Get(p) + [url] else s.Get(p)
  {
    match PhaseOf(tag)
    case None => s
    case Some(p) => s.With(p, s.Get(p) + [url])
  }

  /**
    Completion of `url` in phase `p`: its first occurrence leaves the queue;
    when the main queue is then exactly the sentinel, the sentinel goes too
    and the main signal fires.
   */
  function Loaded(s: RegistryState, url: string, p: Phase): (r: RegistryState)
    ensures forall o :: o != p ==> r.Get(o) == s.Get(o)
    ensures r.signals == s.signals + 1 <==> p == Main && RemoveFirst(s.main, url) == [Sentinel]
    ensures r.signals == s.signals || r.signals == s.signals + 1
    ensures r.signals != s.signals ==> r.main == []
    ensures r.signals == s.signals ==> r.Get(p) == RemoveFirst(s.Get(p), url)
  {
    var q := RemoveFirst(s.Get(p), url);
    if p == Main && q == [Sentinel] then s.With(Main, []).(signals := s.signals + 1)
    else s.With(p, q)
  }

  /** The registry object that the injector mutates in place. */
  class Registry {
    var main: seq<string>
    var vendor: seq<string>
    var internal: seq<string>
    var signals: nat

    function State(): RegistryState
      reads this
    {
      RegistryState(main, vendor, internal, signals)
    }

    constructor ()
      ensures State() == Initial()
    {
      main := [Sentinel];
      vendor := [Sentinel, Primed];
      internal := [Sentinel, Primed];
      signals := 0;
    }

    /** Replaces phase `p`'s queue. */
    method Assign(p: Phase, q: seq<string>)
      modifies this
      ensures State() == old(State()).With(p, q)
    {
      match p
      case Main => main := q;
      case Vendor => vendor := q;
      case Internal => internal := q;
    }

    /** Appends `url` to the queue registered under `tag`, if there is one. */
    method Enqueue(tag: string, url: string)
      modifies this
      ensures State() == Pushed(old(State()), tag, url)
    {
      var phase := PhaseOf(tag);
      if phase.Some? {
        Assign(phase.value, State().Get(phase.value) + [url]);
      }
    }

    /** Removes the first occurrence of `url` from phase `p`, then checks the main drain rule. */
    method HandleScriptLoaded(url: string, p: Phase)
      modifies this
      ensures State() == Loaded(old(State()), url, p)
    {
      var queue := State().Get(p);
      var index := IndexOf(queue, url);
      if index > -1 {
        RemoveFirstAt(queue, url, index);
        queue := queue[..index] + queue[index + 1..];
      }
      Assign(p, queue);
      if p == Main && |main| == 1 && main[0] == Sentinel {
        var k := IndexOf(main, Sentinel);
        main := main[..k] + main[k + 1..];
        signals := signals + 1;
      }
    }
  }

  /** One registry operation, for reasoning about arbitrary histories. */
  datatype Op = Enqueued(tag: string, url: string) | Completed(url: string, phase: Phase)

  function Step(s: RegistryState, op: Op): RegistryState
  {
    match op
    case Enqueued(tag, url) => Pushed(s, tag, url)
    case Completed(url, p) => Loaded(s, url, p)
  }

  function Replay(s: RegistryState, ops: seq<Op>): RegistryState
    decreases |ops|
  {
    if ops == [] then s else Replay(Step(s, ops[0]), ops[1..])
  }

  /** Before the signal the main queue holds the sentinel once; after it, not at all. */
  ghost predicate SignalInvariant(s: RegistryState)
  {
    || (s.signals == 0 && multiset(s.main)[Sentinel] == 1)
    || (s.signals == 1 && Sentinel !in s.main)
  }

  lemma InitialSignalInvariant()
    ensures SignalInvariant(Initial())
  {
  }

  lemma StepKeepsSignalInvariant(s: RegistryState, op: Op)
    requires SignalInvariant(s)
    requires op.url != Sentinel
    ensures SignalInvariant(Step(s, op))
  {
    match op
    case Enqueued(tag, url) =>
      var r := Pushed(s, tag, url);
      assert r.Get(Main) == s.main || r.Get(Main) == s.main + [url];
      assert multiset(r.main)[Sentinel] == multiset(s.main)[Sentinel];
    case Completed(url, p) =>
      if p == Main {
        RemoveFirstMultiset(s.main, url);
        var q := RemoveFirst(s.main, url);
        assert multiset(q)[Sentinel] == multiset(s.main)[Sentinel];
        if s.signals == 1 {
          assert Sentinel !in q;
        }
      }
  }

  /**
    As long as no URL equal to the sentinel is ever enqueued or completed, the
    main signal fires at most once, whatever the history.
   */
  lemma {:induction false} SignalAtMostOnce(s: RegistryState, ops: seq<Op>)
    requires SignalInvariant(s)
    requires forall k :: 0 <= k < |ops| ==> ops[k].url != Sentinel
    ensures SignalInvariant(Replay(s, ops))
    ensures Replay(s, ops).signals <= 1
    decreases |ops|
  {
    if ops != [] {
      StepKeepsSignalInvariant(s, ops[0]);
      SignalAtMostOnce(Step(s, ops[0]), ops[1..]);
    }
  }

  /** Without that proviso the signal can fire twice: a script URL equal to "once" re-arms it. */
  lemma SentinelUrlRearmsSignal()
    ensures Replay(Initial(), [Completed("x", Main), Enqueued(MainTag, Sentinel), Completed("y", Main)]).signals == 2
  {
    var ops := [Completed("x", Main), Enqueued(MainTag, Sentinel), Completed("y", Main)];
    var s1 := Loaded(Initial(), "x", Main);
    assert RemoveFirst([Sentinel], "x") == [Sentinel];
    assert s1.main == [] && s1.signals == 1;
    var s2 := Pushed(s1, MainTag, Sentinel);
    assert s2.main == [Sentinel] && s2.signals == 1;
    var s3 := Loaded(s2, "y", Main);
    assert RemoveFirst([Sentinel], "y") == [Sentinel];
    assert s3.signals == 2;
    assert Replay(s3, []) == s3;
    assert ops[1..][1..][1..] == [];
    assert Replay(s2, ops[1..][1..]) == Replay(s3, []);
    assert Replay(s1, ops[1..]) == Replay(s2, ops[1..][1..]);
  }
}
