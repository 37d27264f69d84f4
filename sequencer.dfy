/**
  The bootstrap sequence: inject the main script, fetch the vendor and then
  the internal manifest, wait for the main signal, inject the vendor scripts
  one by one (a failure is only logged), clear the vendor "primed" entry,
  inject the internal scripts one by one (a failure aborts), clear the
  internal "primed" entry. Every step is awaited before the next, so the
  sequence is modelled as a sequential run over outcome oracles: `loads(url)`
  says whether the element for `url` fires `load` (true) or `error` (false).
 */
module Sequencer {
  import opened Wrappers
  import opened Queues
  import opened Injector
  import opened Manifest

  /** Where the sequence gave up. */
  datatype Stage = MainScript | VendorManifest | InternalManifest | InternalScript(index: nat)

  datatype Outcome = Done | Aborted(stage: Stage)

  /**
    The observable steps of a run, in order. An injection step records the
    arguments injectScript was called with and the outcome its element
    reported; the element itself is `Element` of the step.
   */
  datatype Event =
    | Injected(url: string, tag: string, dataUrl: Option<string>, dataId: Option<string>, loaded: bool)
    | Fetched(url: string, ok: bool)
    | MainResolved
    | PrimedCleared(phase: Phase)

  /** The script element an injection step builds. */
  function Element(e: Event): ScriptRecord
    requires e.Injected?
  {
    MakeRecord(e.url, e.tag, e.dataUrl, e.dataId)
  }

  function DrawerUrl(base: string): string
  {
    base + WebDir + "drawer.js"
  }

  function VendorManifestUrl(base: string): string
  {
    base + "vendor.json"
  }

  function InternalManifestUrl(base: string): string
  {
    base + "internal.json"
  }

  /** The event of injecting `url` in a non-main phase, with its outcome. */
  function Attempt(url: string, tag: string, loads: string -> bool): Event
  {
    Injected(url, tag, None, None, loads(url))
  }

  /** One attempt per URL, in order. */
  function Attempts(urls: seq<string>, tag: string, loads: string -> bool): (r: seq<Event>)
    ensures |r| == |urls|
  {
    seq(|urls|, k requires 0 <= k < |urls| => Attempt(urls[k], tag, loads))
  }

  lemma AttemptsSnoc(urls: seq<string>, i: nat, tag: string, loads: string -> bool)
    requires i < |urls|
    ensures Attempts(urls[..i + 1], tag, loads) == Attempts(urls[..i], tag, loads) + [Attempt(urls[i], tag, loads)]
  {
  }

  function VendorUrls(base: string, es: seq<Entry>): (r: seq<string>)
    ensures |r| == |es|
  {
    seq(|es|, k requires 0 <= k < |es| => VendorUrl(base, es[k]))
  }

  function InternalUrls(base: string, es: seq<Entry>): (r: seq<string>)
    ensures |r| == |es|
  {
    seq(|es|, k requires 0 <= k < |es| => InternalUrl(base, es[k]))
  }

  /** The URLs among `urls` whose element fires `error`, in order. */
  function Failures(urls: seq<string>, loads: string -> bool): seq<string>
    decreases |urls|
  {
    if urls == [] then []
    else
      var last := urls[|urls| - 1];
      Failures(urls[..|urls| - 1], loads) + (if loads(last) then [] else [last])
  }

  predicate AllLoad(urls: seq<string>, loads: string -> bool)
  {
    forall k :: 0 <= k < |urls| ==> loads(urls[k])
  }

  /** `j` is the first index of `urls` whose element fires `error`. */
  predicate FirstFailure(urls: seq<string>, loads: string -> bool, j: nat)
  {
    j < |urls| && !loads(urls[j]) && forall k :: 0 <= k < j ==> loads(urls[k])
  }

  /** The index at which a loop that stops on the first error stops, if it does. */
  function FailureIndex(urls: seq<string>, loads: string -> bool): (r: Option<nat>)
    ensures r.None? <==> AllLoad(urls, loads)
    ensures r.Some? ==> FirstFailure(urls, loads, r.value)
    decreases |urls|
  {
    if urls == [] then None
    else if !loads(urls[0]) then Some(0)
    else
      match FailureIndex(urls[1..], loads)
      case None =>
        assert forall k | 1 <= k < |urls| :: urls[k] == urls[1..][k - 1];
        None
      case Some(j) =>
        assert forall k | 1 <= k < j + 1 :: urls[k] == urls[1..][k - 1];
        Some(j + 1)
  }

  /** The first failure is unique. */
  lemma FirstFailureUnique(urls: seq<string>, loads: string -> bool, i: nat, j: nat)
    requires FirstFailure(urls, loads, i) && FirstFailure(urls, loads, j)
    ensures i == j
  {
  }

  /** The registry after injecting each of `urls` in turn under `tag`. */
  function Settle(s: RegistryState, urls: seq<string>, tag: string, loads: string -> bool): RegistryState
    decreases |urls|
  {
    if urls == [] then s
    else
      var n := |urls| - 1;
      InjectEffect(Settle(s, urls[..n], tag, loads), urls[n], tag, loads(urls[n]))
  }

  lemma SettleSnoc(s: RegistryState, urls: seq<string>, i: nat, tag: string, loads: string -> bool)
    requires i < |urls|
    ensures Settle(s, urls[..i + 1], tag, loads) == InjectEffect(Settle(s, urls[..i], tag, loads), urls[i], tag, loads(urls[i]))
  {
    assert urls[..i + 1][..i] == urls[..i];
  }

  /**
    Injecting a list in a vendor or internal phase leaves the other queues
    alone and leaves exactly the URLs that failed pending in its own queue.
   */
  lemma {:induction false} SettleQueues(s: RegistryState, urls: seq<string>, tag: string, p: Phase, loads: string -> bool)
    requires PhaseOf(tag) == Some(p) && p != Main
    ensures var r := Settle(s, urls, tag, loads);
      && (forall o :: o != p ==> r.Get(o) == s.Get(o))
      && r.signals == s.signals
      && multiset(r.Get(p)) == multiset(s.Get(p)) + multiset(Failures(urls, loads))
    decreases |urls|
  {
    if urls != [] {
      var n := |urls| - 1;
      SettleQueues(s, urls[..n], tag, p, loads);
      InjectEffectQueue(Settle(s, urls[..n], tag, loads), urls[n], tag, loads(urls[n]), p);
    }
  }

  /** Both manifests arrived and the main script loaded: the phases after the gate run. */
  predicate GatesOpen(base: string, vr: Response, ir: Response, loads: string -> bool)
  {
    && loads(DrawerUrl(base))
    && FetchManifest(VendorManifestUrl(base), vr).Ok?
    && FetchManifest(InternalManifestUrl(base), ir).Ok?
  }

  /** The vendor URLs of a run: those of the fetched manifest, none when the fetch fails. */
  function VendorList(base: string, vr: Response): seq<string>
  {
    match FetchManifest(VendorManifestUrl(base), vr)
    case Ok(es) => VendorUrls(base, es)
    case Err(_) => []
  }

  /** The internal URLs of a run: those of the fetched manifest, none when the fetch fails. */
  function InternalList(base: string, ir: Response): seq<string>
  {
    match FetchManifest(InternalManifestUrl(base), ir)
    case Ok(es) => InternalUrls(base, es)
    case Err(_) => []
  }

  /** The element and outcome of the main injection. */
  function MainEvent(base: string, extId: string, loads: string -> bool): Event
  {
    Injected(DrawerUrl(base), MainTag, Some(base), Some(extId), loads(DrawerUrl(base)))
  }

  /** The internal URLs the internal loop gets to: all of them, or up to and including the first failure. */
  function InternalAttempted(urls: seq<string>, loads: string -> bool): seq<string>
  {
    match FailureIndex(urls, loads)
    case None => urls
    case Some(j) => urls[..j + 1]
  }

  /*
    The whole run as values, the reference that RunSequence is proved
    against: the steps it takes, where it ends, and the registry it leaves.
   */

  function RunTrace(base: string, extId: string, vr: Response, ir: Response, loads: string -> bool): seq<Event>
  {
    var main := MainEvent(base, extId, loads);
    var vendorFetch := Fetched(VendorManifestUrl(base), FetchManifest(VendorManifestUrl(base), vr).Ok?);
    var internalFetch := Fetched(InternalManifestUrl(base), FetchManifest(InternalManifestUrl(base), ir).Ok?);
    if !loads(DrawerUrl(base)) then [main]
    else if !vendorFetch.ok then [main, vendorFetch]
    else if !internalFetch.ok then [main, vendorFetch, internalFetch]
    else
      var urls := InternalList(base, ir);
      var steps := [main, vendorFetch, internalFetch, MainResolved]
        + Attempts(VendorList(base, vr), VendorTag, loads) + [PrimedCleared(Vendor)]
        + Attempts(InternalAttempted(urls, loads), InternalTag, loads);
      if FailureIndex(urls, loads).None? then steps + [PrimedCleared(Internal)] else steps
  }

  function RunOutcome(base: string, vr: Response, ir: Response, loads: string -> bool): Outcome
  {
    if !loads(DrawerUrl(base)) then Aborted(MainScript)
    else if FetchManifest(VendorManifestUrl(base), vr).Err? then Aborted(VendorManifest)
    else if FetchManifest(InternalManifestUrl(base), ir).Err? then Aborted(InternalManifest)
    else
      match FailureIndex(InternalList(base, ir), loads)
      case Some(j) => Aborted(InternalScript(j))
      case None => Done
  }

  function RunQueues(base: string, vr: Response, ir: Response, loads: string -> bool): RegistryState
  {
    var s1 := InjectEffect(Initial(), DrawerUrl(base), MainTag, loads(DrawerUrl(base)));
    if !GatesOpen(base, vr, ir, loads) then s1
    else
      var urls := InternalList(base, ir);
      var s2 := Loaded(Settle(s1, VendorList(base, vr), VendorTag, loads), Primed, Vendor);
      var s3 := Settle(s2, InternalAttempted(urls, loads), InternalTag, loads);
      if FailureIndex(urls, loads).None? then Loaded(s3, Primed, Internal) else s3
  }

  /** The vendor loop: every entry is injected in manifest order; a failure is only logged. */
  method InjectVendorScripts(reg: Registry, base: string, vendorScripts: seq<Entry>, loads: string -> bool)
    returns (events: seq<Event>)
    modifies reg
    ensures events == Attempts(VendorUrls(base, vendorScripts), VendorTag, loads)
    ensures reg.State() == Settle(old(reg.State()), VendorUrls(base, vendorScripts), VendorTag, loads)
  {
    ghost var urls := VendorUrls(base, vendorScripts);
    events := [];
    var i := 0;
    while i < |vendorScripts|
      invariant 0 <= i <= |vendorScripts|
      invariant reg.State() == Settle(old(reg.State()), urls[..i], VendorTag, loads)
      invariant events == Attempts(urls[..i], VendorTag, loads)
    {
      var url := VendorUrl(base, vendorScripts[i]);
      var script, loaded := InjectScript(reg, url, VendorTag, None, None, loads);
      events := events + [Injected(url, VendorTag, None, None, loaded)];
      AttemptsSnoc(urls, i, VendorTag, loads);
      SettleSnoc(old(reg.State()), urls, i, VendorTag, loads);
      i := i + 1;
    }
    assert urls[..i] == urls;
  }

  lemma AllLoadSnoc(urls: seq<string>, i: nat, loads: string -> bool)
    requires i < |urls| && AllLoad(urls[..i], loads) && loads(urls[i])
    ensures AllLoad(urls[..i + 1], loads)
  {
    assert forall k | 0 <= k < i :: urls[..i + 1][k] == urls[..i][k];
  }

  /** A first failure at `j` is the one FailureIndex reports. */
  lemma FailureIndexAt(urls: seq<string>, loads: string -> bool, j: nat)
    requires j < |urls| && AllLoad(urls[..j], loads) && !loads(urls[j])
    ensures FailureIndex(urls, loads) == Some(j)
    ensures InternalAttempted(urls, loads) == urls[..j + 1]
  {
    assert forall k | 0 <= k < j :: urls[k] == urls[..j][k];
    assert FirstFailure(urls, loads, j);
    var r := FailureIndex(urls, loads);
    assert !AllLoad(urls, loads);
    FirstFailureUnique(urls, loads, j, r.value);
  }

  /** The internal loop: entries in manifest order until the first one fails, which aborts. */
  method InjectInternalScripts(reg: Registry, base: string, internalScripts: seq<Entry>, loads: string -> bool)
    returns (events: seq<Event>, failed: Option<nat>)
    modifies reg
    ensures failed == FailureIndex(InternalUrls(base, internalScripts), loads)
    ensures events == Attempts(InternalAttempted(InternalUrls(base, internalScripts), loads), InternalTag, loads)
    ensures reg.State() == Settle(old(reg.State()), InternalAttempted(InternalUrls(base, internalScripts), loads), InternalTag, loads)
  {
    ghost var urls := InternalUrls(base, internalScripts);
    events := [];
    var i := 0;
    while i < |internalScripts|
      invariant 0 <= i <= |internalScripts|
      invariant AllLoad(urls[..i], loads)
      invariant reg.State() == Settle(old(reg.State()), urls[..i], InternalTag, loads)
      invariant events == Attempts(urls[..i], InternalTag, loads)
    {
      var url := InternalUrl(base, internalScripts[i]);
      assert url == urls[i];
      var script, loaded := InjectScript(reg, url, InternalTag, None, None, loads);
      events := events + [Injected(url, InternalTag, None, None, loaded)];
      AttemptsSnoc(urls, i, InternalTag, loads);
      SettleSnoc(old(reg.State()), urls, i, InternalTag, loads);
      if !loaded {
        // The rejection leaves the loop and ends the whole sequence.
        FailureIndexAt(urls, loads, i);
        failed := Some(i);
        return;
      }
      AllLoadSnoc(urls, i, loads);
      i := i + 1;
    }
    assert urls[..i] == urls;
    failed := None;
  }

  /**
    The bootstrap sequence against a registry in its initial state, with the
    fetch responses and load outcomes supplied by the host.
   */
  method RunSequence(reg: Registry, base: string, extId: string, vr: Response, ir: Response, loads: string -> bool)
    returns (trace: seq<Event>, outcome: Outcome)
    requires reg.State() == Initial()
    modifies reg
    ensures trace == RunTrace(base, extId, vr, ir, loads)
    ensures outcome == RunOutcome(base, vr, ir, loads)
    ensures reg.State() == RunQueues(base, vr, ir, loads)
  {
    var drawer := DrawerUrl(base);
    var script, loaded := InjectScript(reg, drawer, MainTag, Some(base), Some(extId), loads);
    var main := Injected(drawer, MainTag, Some(base), Some(extId), loaded);
    trace := [main];
    if !loaded {
      outcome := Aborted(MainScript);
      return;
    }

    var vendorManifest := FetchManifest(VendorManifestUrl(base), vr);
    var vendorFetch := Fetched(VendorManifestUrl(base), vendorManifest.Ok?);
    trace := [main, vendorFetch];
    if vendorManifest.Err? {
      outcome := Aborted(VendorManifest);
      return;
    }
    var internalManifest := FetchManifest(InternalManifestUrl(base), ir);
    var internalFetch := Fetched(InternalManifestUrl(base), internalManifest.Ok?);
    trace := [main, vendorFetch, internalFetch];
    if internalManifest.Err? {
      outcome := Aborted(InternalManifest);
      return;
    }

    // Awaiting the main signal never blocks: the main script's load handler has already fired it.
    MainInjectFromInitial(drawer, true);
    assert reg.signals == 1 && reg.main == [];
    trace := [main, vendorFetch, internalFetch, MainResolved];

    var vendorEvents := InjectVendorScripts(reg, base, vendorManifest.value, loads);
    reg.HandleScriptLoaded(Primed, Vendor);
    trace := trace + vendorEvents + [PrimedCleared(Vendor)];

    var internalEvents, failed := InjectInternalScripts(reg, base, internalManifest.value, loads);
    trace := trace + internalEvents;
    if failed.Some? {
      // The rejection ends the whole sequence.
      outcome := Aborted(InternalScript(failed.value));
      return;
    }
    reg.HandleScriptLoaded(Primed, Internal);
    trace := trace + [PrimedCleared(Internal)];
    outcome := Done;
  }
}
