/**
  What a whole bootstrap run guarantees: which outcome it ends in, the order
  of its steps, which scripts it injects, and the registry it leaves behind.
  The lemmas are about the reference run (RunTrace, RunOutcome, RunQueues),
  which RunSequence is proved to follow.
 */
module SequenceLaws {
  import opened Wrappers
  import opened Queues
  import opened Injector
  import opened Manifest
  import opened Sequencer

  // ----- error policy -----

  /**
    The run stops at the main script, at either manifest or at the first
    internal script that fails, and completes exactly when none of those
    fails; how the vendor scripts fare never matters.
   */
  lemma OutcomePolicy(base: string, vr: Response, ir: Response, loads: string -> bool)
    ensures var o := RunOutcome(base, vr, ir, loads);
      && (o == Aborted(MainScript) <==> !loads(DrawerUrl(base)))
      && (o == Aborted(VendorManifest) <==>
            loads(DrawerUrl(base)) && FetchManifest(VendorManifestUrl(base), vr).Err?)
      && (o == Aborted(InternalManifest) <==>
            loads(DrawerUrl(base)) && FetchManifest(VendorManifestUrl(base), vr).Ok?
            && FetchManifest(InternalManifestUrl(base), ir).Err?)
      && (o == Done <==> GatesOpen(base, vr, ir, loads) && AllLoad(InternalList(base, ir), loads))
      && (forall j: nat :: o == Aborted(InternalScript(j)) <==>
            GatesOpen(base, vr, ir, loads) && FirstFailure(InternalList(base, ir), loads, j))
  {
    var urls := InternalList(base, ir);
    forall j: nat | GatesOpen(base, vr, ir, loads) && FirstFailure(urls, loads, j)
      ensures RunOutcome(base, vr, ir, loads) == Aborted(InternalScript(j))
    {
      FirstFailureUnique(urls, loads, j, FailureIndex(urls, loads).value);
    }
  }

  // ----- ordering -----

  /**
    The position of a step in the bootstrap order: the main injection, the
    manifest fetches, the main signal, the vendor injections, the vendor
    clear, the internal injections, the internal clear.
   */
  function Rank(e: Event): nat
  {
    match e
    case Injected(_, tag, _, _, _) =>
      if tag == MainTag then 0 else if tag == VendorTag then 3 else if tag == InternalTag then 5 else 7
    case Fetched(_, _) => 1
    case MainResolved => 2
    case PrimedCleared(p) =>
      match p
      case Vendor => 4
      case Internal => 6
      case Main => 7
  }

  /** No step comes after a step of a later rank. */
  predicate Ordered(t: seq<Event>)
  {
    forall i, j :: 0 <= i < j < |t| ==> Rank(t[i]) <= Rank(t[j])
  }

  predicate RanksAtMost(t: seq<Event>, k: nat)
  {
    forall i :: 0 <= i < |t| ==> Rank(t[i]) <= k
  }

  predicate RanksEqual(t: seq<Event>, k: nat)
  {
    forall i :: 0 <= i < |t| ==> Rank(t[i]) == k
  }

  /** Appending steps of rank `k` to an ordered trace of ranks up to `k` keeps it ordered. */
  lemma Extend(a: seq<Event>, b: seq<Event>, k: nat)
    requires Ordered(a) && RanksAtMost(a, k) && RanksEqual(b, k)
    ensures Ordered(a + b) && RanksAtMost(a + b, k)
  {
    var t := a + b;
    forall i, j | 0 <= i < j < |t|
      ensures Rank(t[i]) <= Rank(t[j])
    {
      if j < |a| {
        assert t[i] == a[i] && t[j] == a[j];
      } else if i < |a| {
        assert t[i] == a[i] && t[j] == b[j - |a|];
      } else {
        assert t[i] == b[i - |a|] && t[j] == b[j - |a|];
      }
    }
    forall i | 0 <= i < |t|
      ensures Rank(t[i]) <= k
    {
      if i < |a| { assert t[i] == a[i]; } else { assert t[i] == b[i - |a|]; }
    }
  }

  /** All attempts of one phase share that phase's rank. */
  lemma AttemptsRank(urls: seq<string>, tag: string, loads: string -> bool)
    requires tag == VendorTag || tag == InternalTag
    ensures RanksEqual(Attempts(urls, tag, loads), if tag == VendorTag then 3 else 5)
  {
  }

  /**
    Every run follows the bootstrap order: the main injection, the manifest
    fetches, the main signal, all vendor injections, the vendor clear, the
    internal injections, the internal clear.
   */
  lemma {:induction false} TraceOrdered(base: string, extId: string, vr: Response, ir: Response, loads: string -> bool)
    ensures Ordered(RunTrace(base, extId, vr, ir, loads))
  {
    if GatesOpen(base, vr, ir, loads) {
      var urls := InternalList(base, ir);
      GatedTrace(base, extId, vr, ir, loads);
      AttemptsRank(VendorList(base, vr), VendorTag, loads);
      AttemptsRank(InternalAttempted(urls, loads), InternalTag, loads);
      var opening := [MainEvent(base, extId, loads), Fetched(VendorManifestUrl(base), true),
                      Fetched(InternalManifestUrl(base), true), MainResolved];
      assert Ordered(opening) && RanksAtMost(opening, 2);
      OrderedSteps(opening, Attempts(VendorList(base, vr), VendorTag, loads),
                   Attempts(InternalAttempted(urls, loads), InternalTag, loads));
    }
  }

  /** The gated part of a run is ordered whether or not it ends with the internal clear. */
  lemma OrderedSteps(opening: seq<Event>, va: seq<Event>, ia: seq<Event>)
    requires Ordered(opening) && RanksAtMost(opening, 2) && RanksEqual(va, 3) && RanksEqual(ia, 5)
    ensures var steps := opening + va + [PrimedCleared(Vendor)] + ia;
      Ordered(steps) && Ordered(steps + [PrimedCleared(Internal)])
  {
    Extend(opening, va, 3);
    Extend(opening + va, [PrimedCleared(Vendor)], 4);
    Extend(opening + va + [PrimedCleared(Vendor)], ia, 5);
    Extend(opening + va + [PrimedCleared(Vendor)] + ia, [PrimedCleared(Internal)], 6);
  }

  /**
    The run opens with the main injection, then fetches the vendor manifest
    and only after it the internal one; a failed main script or a failed
    fetch is the last step, so a failed vendor fetch means the internal
    manifest is never requested.
   */
  lemma TraceOpening(base: string, extId: string, vr: Response, ir: Response, loads: string -> bool)
    ensures var t := RunTrace(base, extId, vr, ir, loads);
      && 1 <= |t| && t[0] == MainEvent(base, extId, loads)
      && (!loads(DrawerUrl(base)) <==> |t| == 1)
      && (loads(DrawerUrl(base)) ==>
            2 <= |t| && t[1] == Fetched(VendorManifestUrl(base), FetchManifest(VendorManifestUrl(base), vr).Ok?))
      && (loads(DrawerUrl(base)) && FetchManifest(VendorManifestUrl(base), vr).Err? <==> |t| == 2)
      && (loads(DrawerUrl(base)) && FetchManifest(VendorManifestUrl(base), vr).Ok? ==>
            3 <= |t| && t[2] == Fetched(InternalManifestUrl(base), FetchManifest(InternalManifestUrl(base), ir).Ok?))
      && ((loads(DrawerUrl(base)) && FetchManifest(VendorManifestUrl(base), vr).Ok?
             && FetchManifest(InternalManifestUrl(base), ir).Err?) <==> |t| == 3)
      && (GatesOpen(base, vr, ir, loads) ==> 4 <= |t| && t[3] == MainResolved)
  {
    if GatesOpen(base, vr, ir, loads) {
      GatedOpening(base, extId, vr, ir, loads);
    } else {
      UngatedTrace(base, extId, vr, ir, loads);
    }
  }

  /** A run whose gates opened starts with the main injection, both fetches and the signal. */
  lemma GatedOpening(base: string, extId: string, vr: Response, ir: Response, loads: string -> bool)
    requires GatesOpen(base, vr, ir, loads)
    ensures var t := RunTrace(base, extId, vr, ir, loads);
      && 4 <= |t| && t[0] == MainEvent(base, extId, loads)
      && t[1] == Fetched(VendorManifestUrl(base), true) && t[2] == Fetched(InternalManifestUrl(base), true)
      && t[3] == MainResolved
  {
    var t := RunTrace(base, extId, vr, ir, loads);
    var opening := [MainEvent(base, extId, loads), Fetched(VendorManifestUrl(base), true),
                    Fetched(InternalManifestUrl(base), true), MainResolved];
    GatedTrace(base, extId, vr, ir, loads);
    OpeningKept(opening, Attempts(VendorList(base, vr), VendorTag, loads),
                Attempts(InternalAttempted(InternalList(base, ir), loads), InternalTag, loads));
    assert 4 <= |t| && t[..4] == opening;
    assert t[0] == t[..4][0] && t[1] == t[..4][1] && t[2] == t[..4][2] && t[3] == t[..4][3];
  }

  /** The gated part of a run keeps its opening steps in front, with or without the internal clear. */
  lemma OpeningKept(opening: seq<Event>, va: seq<Event>, ia: seq<Event>)
    ensures var steps := opening + va + [PrimedCleared(Vendor)] + ia;
      && |opening| <= |steps| && steps[..|opening|] == opening
      && (steps + [PrimedCleared(Internal)])[..|opening|] == opening
  {
    var steps := opening + va + [PrimedCleared(Vendor)] + ia;
    assert steps == opening + (va + [PrimedCleared(Vendor)] + ia);
    assert steps + [PrimedCleared(Internal)] == opening + (va + [PrimedCleared(Vendor)] + ia + [PrimedCleared(Internal)]);
  }

  /** The steps of a run whose gates stayed shut: it stops at the first step that failed. */
  lemma UngatedTrace(base: string, extId: string, vr: Response, ir: Response, loads: string -> bool)
    requires !GatesOpen(base, vr, ir, loads)
    ensures var main := MainEvent(base, extId, loads);
      var vendorOk := FetchManifest(VendorManifestUrl(base), vr).Ok?;
      var vendorFetch := Fetched(VendorManifestUrl(base), vendorOk);
      var internalFetch := Fetched(InternalManifestUrl(base), false);
      RunTrace(base, extId, vr, ir, loads) ==
        if !loads(DrawerUrl(base)) then [main]
        else if !vendorOk then [main, vendorFetch]
        else [main, vendorFetch, internalFetch]
  {
  }

  /**
    Only the first step's element is the main one: it gets the id
    "injector" and carries the extension's base URL and id; every later
    element (a vendor or internal script) gets no id and no data attributes.
   */
  lemma TraceElements(base: string, extId: string, vr: Response, ir: Response, loads: string -> bool)
    ensures var t := RunTrace(base, extId, vr, ir, loads);
      && 1 <= |t| && t[0].Injected?
      && Element(t[0]).src == DrawerUrl(base) && Element(t[0]).id == Some("injector")
      && Element(t[0]).dataUrl == Some(base) && Element(t[0]).dataId == Some(extId)
      && (forall i :: 1 <= i < |t| && t[i].Injected? ==>
            Element(t[i]).src == t[i].url && Element(t[i]).id.None?
            && Element(t[i]).dataUrl.None? && Element(t[i]).dataId.None?)
  {
    var t := RunTrace(base, extId, vr, ir, loads);
    TraceOpening(base, extId, vr, ir, loads);
    TraceOrdered(base, extId, vr, ir, loads);
    forall i | 1 <= i < |t| && t[i].Injected?
      ensures t[i].tag != MainTag
    {
      assert Rank(t[1]) == 1 <= Rank(t[i]);
    }
  }

  /** The steps of a run whose gates opened, piece by piece. */
  lemma GatedTrace(base: string, extId: string, vr: Response, ir: Response, loads: string -> bool)
    requires GatesOpen(base, vr, ir, loads)
    ensures var urls := InternalList(base, ir);
      var steps := [MainEvent(base, extId, loads), Fetched(VendorManifestUrl(base), true),
         Fetched(InternalManifestUrl(base), true), MainResolved]
        + Attempts(VendorList(base, vr), VendorTag, loads) + [PrimedCleared(Vendor)]
        + Attempts(InternalAttempted(urls, loads), InternalTag, loads);
      RunTrace(base, extId, vr, ir, loads) ==
        if FailureIndex(urls, loads).None? then steps + [PrimedCleared(Internal)] else steps
  {
  }

  /** Attempts hold injections only. */
  lemma AttemptsOnlyInjections(urls: seq<string>, tag: string, loads: string -> bool, e: Event)
    requires !e.Injected?
    ensures e !in Attempts(urls, tag, loads)
  {
  }

  /**
    The main signal is awaited and the vendor primed entry cleared exactly
    when both fetches succeeded after a main load; the internal primed entry
    is cleared exactly when the run completes.
   */
  lemma TraceMilestones(base: string, extId: string, vr: Response, ir: Response, loads: string -> bool)
    ensures var t := RunTrace(base, extId, vr, ir, loads);
      && (MainResolved in t <==> GatesOpen(base, vr, ir, loads))
      && (PrimedCleared(Vendor) in t <==> GatesOpen(base, vr, ir, loads))
      && (PrimedCleared(Internal) in t <==> RunOutcome(base, vr, ir, loads) == Done)
  {
    if GatesOpen(base, vr, ir, loads) {
      var urls := InternalList(base, ir);
      GatedTrace(base, extId, vr, ir, loads);
      var opening := [MainEvent(base, extId, loads), Fetched(VendorManifestUrl(base), true),
                      Fetched(InternalManifestUrl(base), true), MainResolved];
      MilestoneSteps(opening, VendorList(base, vr), InternalAttempted(urls, loads), loads);
    }
  }

  /** In the gated part of a run the clears are where they are put and nowhere else. */
  lemma MilestoneSteps(opening: seq<Event>, vendorUrls: seq<string>, internalUrls: seq<string>, loads: string -> bool)
    requires MainResolved in opening && PrimedCleared(Internal) !in opening
    ensures var steps := opening + Attempts(vendorUrls, VendorTag, loads) + [PrimedCleared(Vendor)]
                         + Attempts(internalUrls, InternalTag, loads);
      && MainResolved in steps && PrimedCleared(Vendor) in steps && PrimedCleared(Internal) !in steps
      && PrimedCleared(Internal) in steps + [PrimedCleared(Internal)]
  {
    AttemptsOnlyInjections(vendorUrls, VendorTag, loads, PrimedCleared(Internal));
    AttemptsOnlyInjections(internalUrls, InternalTag, loads, PrimedCleared(Internal));
  }

  // ----- injected scripts -----

  /** The URLs the trace injects under `tag`, in order. */
  function InjectedUrls(t: seq<Event>, tag: string): seq<string>
    decreases |t|
  {
    if t == [] then []
    else (if t[0].Injected? && t[0].tag == tag then [t[0].url] else []) + InjectedUrls(t[1..], tag)
  }

  lemma {:induction false} InjectedUrlsConcat(a: seq<Event>, b: seq<Event>, tag: string)
    ensures InjectedUrls(a + b, tag) == InjectedUrls(a, tag) + InjectedUrls(b, tag)
    decreases |a|
  {
    if a != [] {
      assert (a + b)[0] == a[0];
      assert (a + b)[1..] == a[1..] + b;
      InjectedUrlsConcat(a[1..], b, tag);
    } else {
      assert a + b == b;
    }
  }

  lemma InjectedUrlsSingle(e: Event, tag: string)
    ensures InjectedUrls([e], tag) == if e.Injected? && e.tag == tag then [e.url] else []
  {
    assert [e][1..] == [];
  }

  /** The attempts of a phase inject exactly its URLs, in order, and nothing under another tag. */
  lemma {:induction false} InjectedUrlsAttempts(urls: seq<string>, tag: string, other: string, loads: string -> bool)
    ensures InjectedUrls(Attempts(urls, tag, loads), tag) == urls
    ensures other != tag ==> InjectedUrls(Attempts(urls, tag, loads), other) == []
    decreases |urls|
  {
    if urls != [] {
      assert Attempts(urls, tag, loads)[1..] == Attempts(urls[1..], tag, loads);
      InjectedUrlsAttempts(urls[1..], tag, other, loads);
    }
  }

  /** Steps that are not injections do not show in InjectedUrls. */
  lemma InjectedUrlsSkip(t: seq<Event>, e: Event, tag: string)
    requires !e.Injected?
    ensures InjectedUrls(t + [e], tag) == InjectedUrls(t, tag)
  {
    InjectedUrlsSingle(e, tag);
    InjectedUrlsConcat(t, [e], tag);
  }

  /** The injections of a run under `tag`: the main one, then the vendor attempts', then the internal attempts'. */
  lemma GatedInjections(base: string, extId: string, vr: Response, ir: Response, loads: string -> bool, tag: string)
    requires GatesOpen(base, vr, ir, loads)
    ensures InjectedUrls(RunTrace(base, extId, vr, ir, loads), tag) ==
      InjectedUrls([MainEvent(base, extId, loads)], tag)
      + InjectedUrls(Attempts(VendorList(base, vr), VendorTag, loads), tag)
      + InjectedUrls(Attempts(InternalAttempted(InternalList(base, ir), loads), InternalTag, loads), tag)
  {
    var urls := InternalList(base, ir);
    var va := Attempts(VendorList(base, vr), VendorTag, loads);
    var ia := Attempts(InternalAttempted(urls, loads), InternalTag, loads);
    var t0 := [MainEvent(base, extId, loads)];
    var t1 := t0 + [Fetched(VendorManifestUrl(base), true)];
    var t2 := t1 + [Fetched(InternalManifestUrl(base), true)];
    var t3 := t2 + [MainResolved];
    var t4 := t3 + va;
    var t5 := t4 + [PrimedCleared(Vendor)];
    var t6 := t5 + ia;
    GatedTrace(base, extId, vr, ir, loads);
    assert t3 == [MainEvent(base, extId, loads), Fetched(VendorManifestUrl(base), true),
                  Fetched(InternalManifestUrl(base), true), MainResolved];
    InjectedUrlsSkip(t0, Fetched(VendorManifestUrl(base), true), tag);
    InjectedUrlsSkip(t1, Fetched(InternalManifestUrl(base), true), tag);
    InjectedUrlsSkip(t2, MainResolved, tag);
    InjectedUrlsConcat(t3, va, tag);
    InjectedUrlsSkip(t4, PrimedCleared(Vendor), tag);
    InjectedUrlsConcat(t5, ia, tag);
    if FailureIndex(urls, loads).None? {
      InjectedUrlsSkip(t6, PrimedCleared(Internal), tag);
      assert RunTrace(base, extId, vr, ir, loads) == t6 + [PrimedCleared(Internal)];
    } else {
      assert RunTrace(base, extId, vr, ir, loads) == t6;
    }
  }

  /** Before the gates open a run injects only the main script. */
  lemma UngatedInjections(base: string, extId: string, vr: Response, ir: Response, loads: string -> bool, tag: string)
    requires !GatesOpen(base, vr, ir, loads)
    ensures InjectedUrls(RunTrace(base, extId, vr, ir, loads), tag) == InjectedUrls([MainEvent(base, extId, loads)], tag)
  {
    var t0 := [MainEvent(base, extId, loads)];
    if loads(DrawerUrl(base)) {
      var f1 := Fetched(VendorManifestUrl(base), FetchManifest(VendorManifestUrl(base), vr).Ok?);
      var f2 := Fetched(InternalManifestUrl(base), FetchManifest(InternalManifestUrl(base), ir).Ok?);
      InjectedUrlsSkip(t0, f1, tag);
      InjectedUrlsSkip(t0 + [f1], f2, tag);
      assert t0 + [f1] == [t0[0], f1] && t0 + [f1] + [f2] == [t0[0], f1, f2];
    }
  }

  /**
    A run injects the main script once and first, and injects vendor scripts
    only once the gates are open: then every vendor entry in manifest order,
    failures included.
   */
  lemma MainAndVendorInjections(base: string, extId: string, vr: Response, ir: Response, loads: string -> bool)
    ensures var t := RunTrace(base, extId, vr, ir, loads);
      && InjectedUrls(t, MainTag) == [DrawerUrl(base)]
      && InjectedUrls(t, VendorTag) == (if GatesOpen(base, vr, ir, loads) then VendorList(base, vr) else [])
  {
    var m := MainEvent(base, extId, loads);
    InjectedUrlsSingle(m, MainTag);
    InjectedUrlsSingle(m, VendorTag);
    if GatesOpen(base, vr, ir, loads) {
      var attempted := InternalAttempted(InternalList(base, ir), loads);
      InjectedUrlsAttempts(VendorList(base, vr), VendorTag, MainTag, loads);
      InjectedUrlsAttempts(attempted, InternalTag, MainTag, loads);
      InjectedUrlsAttempts(attempted, InternalTag, VendorTag, loads);
      GatedInjections(base, extId, vr, ir, loads, MainTag);
      GatedInjections(base, extId, vr, ir, loads, VendorTag);
    } else {
      UngatedInjections(base, extId, vr, ir, loads, MainTag);
      UngatedInjections(base, extId, vr, ir, loads, VendorTag);
    }
  }

  /**
    The internal entries are injected in manifest order after the gates
    open: all of them when the run completes, up to and including the first
    failing one when that aborts it.
   */
  lemma InternalInjections(base: string, extId: string, vr: Response, ir: Response, loads: string -> bool)
    ensures var t := RunTrace(base, extId, vr, ir, loads);
      && (!GatesOpen(base, vr, ir, loads) ==> InjectedUrls(t, InternalTag) == [])
      && (RunOutcome(base, vr, ir, loads) == Done ==> InjectedUrls(t, InternalTag) == InternalList(base, ir))
      && (forall j: nat :: RunOutcome(base, vr, ir, loads) == Aborted(InternalScript(j)) ==>
            InjectedUrls(t, InternalTag) == InternalList(base, ir)[..j + 1])
  {
    InjectedUrlsSingle(MainEvent(base, extId, loads), InternalTag);
    if GatesOpen(base, vr, ir, loads) {
      var attempted := InternalAttempted(InternalList(base, ir), loads);
      InjectedUrlsAttempts(VendorList(base, vr), VendorTag, InternalTag, loads);
      InjectedUrlsAttempts(attempted, InternalTag, MainTag, loads);
      GatedInjections(base, extId, vr, ir, loads, InternalTag);
    } else {
      UngatedInjections(base, extId, vr, ir, loads, InternalTag);
    }
  }

  // ----- the registry left behind -----

  /** A list holding one copy of `x` and nothing else is `[x]`. */
  lemma SingletonMultiset(q: seq<string>, x: string)
    requires multiset(q) == multiset{x}
    ensures q == [x]
  {
    assert |q| == |multiset(q)| == 1;
    assert q[0] in multiset(q);
  }

  lemma {:induction false} FailuresNone(urls: seq<string>, loads: string -> bool)
    requires AllLoad(urls, loads)
    ensures Failures(urls, loads) == []
    decreases |urls|
  {
    if urls != [] {
      var n := |urls| - 1;
      assert forall k | 0 <= k < n :: urls[..n][k] == urls[k];
      FailuresNone(urls[..n], loads);
    }
  }

  /** Up to its first failure, a list has exactly that one failure. */
  lemma FailuresFirst(urls: seq<string>, loads: string -> bool, j: nat)
    requires FirstFailure(urls, loads, j)
    ensures Failures(urls[..j + 1], loads) == [urls[j]]
  {
    assert urls[..j + 1][..j] == urls[..j];
    assert forall k | 0 <= k < j :: urls[..j][k] == urls[k];
    FailuresNone(urls[..j], loads);
  }

  /** The main injection from the initial registry: drained and signalled on load, left pending on error. */
  lemma MainStage(base: string, loaded: bool)
    ensures var s := InjectEffect(Initial(), DrawerUrl(base), MainTag, loaded);
      && s.signals == (if loaded then 1 else 0)
      && s.main == (if loaded then [] else [Sentinel, DrawerUrl(base)])
      && s.vendor == [Sentinel, Primed] && s.internal == [Sentinel, Primed]
  {
    assert |DrawerUrl(base)| > |Sentinel|;
    MainInjectFromInitial(DrawerUrl(base), loaded);
  }

  /** The registry once the vendor phase is over: its queue keeps the sentinel and every vendor URL that failed. */
  lemma VendorStage(s1: RegistryState, urls: seq<string>, loads: string -> bool)
    requires s1.vendor == [Sentinel, Primed]
    ensures var s2 := Loaded(Settle(s1, urls, VendorTag, loads), Primed, Vendor);
      && s2.main == s1.main && s2.internal == s1.internal && s2.signals == s1.signals
      && multiset(s2.vendor) == multiset{Sentinel} + multiset(Failures(urls, loads))
  {
    var settled := Settle(s1, urls, VendorTag, loads);
    SettleQueues(s1, urls, VendorTag, Vendor, loads);
    assert settled.main == s1.main && settled.internal == s1.internal by {
      assert settled.Get(Main) == s1.Get(Main) && settled.Get(Internal) == s1.Get(Internal);
    }
    RemoveFirstMultiset(settled.vendor, Primed);
    var s2 := Loaded(settled, Primed, Vendor);
    assert s2.main == settled.main && s2.internal == settled.internal by {
      assert s2.Get(Main) == settled.Get(Main) && s2.Get(Internal) == settled.Get(Internal);
    }
    assert s2.vendor == RemoveFirst(settled.vendor, Primed);
  }

  /** The internal phase from `[once, primed]`: the queue gains exactly the URLs that failed. */
  lemma InternalStage(s2: RegistryState, attempted: seq<string>, loads: string -> bool)
    ensures var s3 := Settle(s2, attempted, InternalTag, loads);
      && s3.main == s2.main && s3.vendor == s2.vendor && s3.signals == s2.signals
      && multiset(s3.internal) == multiset(s2.internal) + multiset(Failures(attempted, loads))
  {
    var s3 := Settle(s2, attempted, InternalTag, loads);
    SettleQueues(s2, attempted, InternalTag, Internal, loads);
    assert s3.Get(Main) == s2.Get(Main) && s3.Get(Vendor) == s2.Get(Vendor);
  }

  /**
    The main signal fires once exactly when the main script loads, and the
    main queue is then empty; an erroring main script stays pending. The
    other queues keep their placeholders until the gates open; then the
    vendor queue ends with the sentinel and every vendor URL that failed.
   */
  lemma QueuesMainAndVendor(base: string, vr: Response, ir: Response, loads: string -> bool)
    ensures var q := RunQueues(base, vr, ir, loads);
      && q.signals == (if loads(DrawerUrl(base)) then 1 else 0)
      && q.main == (if loads(DrawerUrl(base)) then [] else [Sentinel, DrawerUrl(base)])
      && (!GatesOpen(base, vr, ir, loads) ==> q.vendor == [Sentinel, Primed] && q.internal == [Sentinel, Primed])
      && (GatesOpen(base, vr, ir, loads) ==>
            multiset(q.vendor) == multiset{Sentinel} + multiset(Failures(VendorList(base, vr), loads)))
  {
    var drawer := DrawerUrl(base);
    var s1 := InjectEffect(Initial(), drawer, MainTag, loads(drawer));
    MainStage(base, loads(drawer));
    if GatesOpen(base, vr, ir, loads) {
      var urls := InternalList(base, ir);
      VendorStage(s1, VendorList(base, vr), loads);
      var s2 := Loaded(Settle(s1, VendorList(base, vr), VendorTag, loads), Primed, Vendor);
      InternalStage(s2, InternalAttempted(urls, loads), loads);
      var s3 := Settle(s2, InternalAttempted(urls, loads), InternalTag, loads);
      if FailureIndex(urls, loads).None? {
        var s4 := Loaded(s3, Primed, Internal);
        assert s4.Get(Main) == s3.Get(Main) && s4.Get(Vendor) == s3.Get(Vendor);
      }
    }
  }

  /** Clearing "primed" from an internal queue holding just the two placeholders leaves the sentinel. */
  lemma ClearInternal(s3: RegistryState)
    requires multiset(s3.internal) == multiset{Sentinel, Primed}
    ensures Loaded(s3, Primed, Internal).internal == [Sentinel]
  {
    RemoveFirstMultiset(s3.internal, Primed);
    var s4 := Loaded(s3, Primed, Internal);
    assert s4.Get(Internal) == RemoveFirst(s3.internal, Primed);
    SingletonMultiset(s4.internal, Sentinel);
  }

  /** A completed run leaves the internal queue at its sentinel. */
  lemma QueuesDone(base: string, vr: Response, ir: Response, loads: string -> bool)
    requires RunOutcome(base, vr, ir, loads) == Done
    ensures RunQueues(base, vr, ir, loads).internal == [Sentinel]
  {
    var drawer := DrawerUrl(base);
    var s1 := InjectEffect(Initial(), drawer, MainTag, loads(drawer));
    MainStage(base, loads(drawer));
    var urls := InternalList(base, ir);
    assert InternalAttempted(urls, loads) == urls;
    VendorStage(s1, VendorList(base, vr), loads);
    var s2 := Loaded(Settle(s1, VendorList(base, vr), VendorTag, loads), Primed, Vendor);
    InternalStage(s2, urls, loads);
    FailuresNone(urls, loads);
    ClearInternal(Settle(s2, urls, InternalTag, loads));
  }

  /** The internal phase up to its first failure at `j` leaves that URL pending beside the two placeholders. */
  lemma InternalAbortStage(s2: RegistryState, urls: seq<string>, loads: string -> bool, j: nat)
    requires s2.internal == [Sentinel, Primed] && FirstFailure(urls, loads, j)
    ensures multiset(Settle(s2, urls[..j + 1], InternalTag, loads).internal) == multiset{Sentinel, Primed, urls[j]}
  {
    InternalStage(s2, urls[..j + 1], loads);
    FailuresFirst(urls, loads, j);
  }

  /** An abort at internal entry `j` happens only past the gates, at the first internal failure. */
  lemma AbortedAtInternal(base: string, vr: Response, ir: Response, loads: string -> bool, j: nat)
    requires RunOutcome(base, vr, ir, loads) == Aborted(InternalScript(j))
    ensures GatesOpen(base, vr, ir, loads) && FailureIndex(InternalList(base, ir), loads) == Some(j)
  {
  }

  /** The registry a run whose gates opened leaves behind, stage by stage. */
  lemma GatedQueues(base: string, vr: Response, ir: Response, loads: string -> bool)
    requires GatesOpen(base, vr, ir, loads)
    ensures var urls := InternalList(base, ir);
      var s1 := InjectEffect(Initial(), DrawerUrl(base), MainTag, true);
      var s2 := Loaded(Settle(s1, VendorList(base, vr), VendorTag, loads), Primed, Vendor);
      var s3 := Settle(s2, InternalAttempted(urls, loads), InternalTag, loads);
      RunQueues(base, vr, ir, loads) == if FailureIndex(urls, loads).None? then Loaded(s3, Primed, Internal) else s3
  {
  }

  /** An internal failure at `j` leaves the internal queue with its sentinel, "primed" and the failing URL. */
  lemma QueuesInternalAbort(base: string, vr: Response, ir: Response, loads: string -> bool, j: nat)
    requires RunOutcome(base, vr, ir, loads) == Aborted(InternalScript(j))
    ensures j < |InternalList(base, ir)|
    ensures multiset(RunQueues(base, vr, ir, loads).internal) == multiset{Sentinel, Primed, InternalList(base, ir)[j]}
  {
    AbortedAtInternal(base, vr, ir, loads, j);
    GatedQueues(base, vr, ir, loads);
    var urls := InternalList(base, ir);
    var s1 := InjectEffect(Initial(), DrawerUrl(base), MainTag, true);
    MainStage(base, true);
    VendorStage(s1, VendorList(base, vr), loads);
    var s2 := Loaded(Settle(s1, VendorList(base, vr), VendorTag, loads), Primed, Vendor);
    assert InternalAttempted(urls, loads) == urls[..j + 1];
    InternalAbortStage(s2, urls, loads, j);
  }

}
