/**
  The script injector: the attributes a script element gets, and the
  bookkeeping of one injection (register the URL, then remove it again when
  the element fires `load`; leave it pending when it fires `error`).
 */
module Injector {
  import opened Wrappers
  import opened Queues

  /** `sub` occurs in `s` starting at index `i`. */
  ghost predicate OccursAt(sub: string, s: string, i: int)
  {
    0 <= i && i + |sub| <= |s| && s[i..i + |sub|] == sub
  }

  ghost predicate Occurs(sub: string, s: string)
  {
    exists i :: OccursAt(sub, s, i)
  }

  /** Substring test (the `includes` of a string). */
  function Includes(s: string, sub: string): bool
    decreases |s|
  {
    |sub| <= |s| && (s[..|sub|] == sub || (|s| > 0 && Includes(s[1..], sub)))
  }

  /** Where Includes says yes, there is an occurrence. */
  lemma {:induction false} IncludesWitness(s: string, sub: string) returns (i: nat)
    requires Includes(s, sub)
    ensures OccursAt(sub, s, i)
    decreases |s|
  {
    if s[..|sub|] == sub {
      i := 0;
    } else {
      var j := IncludesWitness(s[1..], sub);
      assert s[1..][j..j + |sub|] == s[j + 1..j + 1 + |sub|];
      i := j + 1;
    }
  }

  /** An occurrence anywhere is found by Includes. */
  lemma {:induction false} OccursIncludes(s: string, sub: string, i: nat)
    requires OccursAt(sub, s, i)
    ensures Includes(s, sub)
    decreases i
  {
    if i > 0 {
      assert s[1..][i - 1..i - 1 + |sub|] == s[i..i + |sub|];
      OccursIncludes(s[1..], sub, i - 1);
    }
  }

  /** Includes finds `sub` exactly when it occurs somewhere in `s`. */
  lemma IncludesOccurs(s: string, sub: string)
    ensures Includes(s, sub) <==> Occurs(sub, s)
  {
    if Includes(s, sub) {
      var i := IncludesWitness(s, sub);
    }
    if Occurs(sub, s) {
      var i :| OccursAt(sub, s, i);
      OccursIncludes(s, sub, i);
    }
  }

  /** A URL naming an entry-point module is injected with `type="module"`. */
  predicate IsModuleScript(url: string)
  {
    Includes(url, "main.js") || Includes(url, "loader.js")
  }

  /** What the injected script element carries. */
  datatype ScriptRecord = ScriptRecord(
    src: string,
    isModule: bool,
    dataUrl: Option<string>,
    dataId: Option<string>,
    id: Option<string>)

  /** The text an attribute receives: a missing argument is converted to "undefined". */
  function AttributeText(v: Option<string>): string
  {
    match v
    case Some(x) => x
    case None => "undefined"
  }

  /** The element built for `url` in the phase named `tag`. */
  function MakeRecord(url: string, tag: string, dataUrl: Option<string>, dataId: Option<string>): (r: ScriptRecord)
    ensures r.src == url
    ensures r.id.Some? <==> tag == MainTag
    ensures tag == MainTag ==> r.id == Some("injector") && r.dataUrl == Some(AttributeText(dataUrl)) && r.dataId == Some(AttributeText(dataId))
    ensures tag != MainTag ==> r.dataUrl == None && r.dataId == None
  {
    var isMain := tag == MainTag;
    ScriptRecord(
      url,
      IsModuleScript(url),
      if isMain then Some(AttributeText(dataUrl)) else None,
      if isMain then Some(AttributeText(dataId)) else None,
      if isMain then Some("injector") else None)
  }

  /** An element is a module exactly when its URL contains "main.js" or "loader.js". */
  lemma MakeRecordModule(url: string, tag: string, dataUrl: Option<string>, dataId: Option<string>)
    ensures MakeRecord(url, tag, dataUrl, dataId).isModule <==> Occurs("main.js", url) || Occurs("loader.js", url)
  {
    IncludesOccurs(url, "main.js");
    IncludesOccurs(url, "loader.js");
  }

  /** The registry after injecting `url` under `tag` with the given load outcome. */
  function InjectEffect(s: RegistryState, url: string, tag: string, loaded: bool): RegistryState
  {
    var pushed := Pushed(s, tag, url);
    match PhaseOf(tag)
    case None => pushed
    case Some(p) => if loaded then Loaded(pushed, url, p) else pushed
  }

  /** An untracked tag (such as the default "base") leaves the registry alone. */
  lemma InjectUntracked(s: RegistryState, url: string, tag: string, loaded: bool)
    requires PhaseOf(tag).None?
    ensures InjectEffect(s, url, tag, loaded) == s
  {
  }

  /**
    In the vendor and internal phases an injection touches only its own queue:
    a load gives back exactly the entry it added, an error leaves it pending.
   */
  lemma InjectEffectQueue(s: RegistryState, url: string, tag: string, loaded: bool, p: Phase)
    requires PhaseOf(tag) == Some(p) && p != Main
    ensures var r := InjectEffect(s, url, tag, loaded);
      && (forall o :: o != p ==> r.Get(o) == s.Get(o))
      && r.signals == s.signals
      && multiset(r.Get(p)) == multiset(s.Get(p)) + (if loaded then multiset{} else multiset{url})
      && (!loaded ==> r.Get(p) == s.Get(p) + [url])
  {
    var pushed := Pushed(s, tag, url);
    if loaded {
      RemoveFirstMultiset(pushed.Get(p), url);
      assert url in pushed.Get(p);
    }
  }

  /** The main-phase injection from the initial registry: a load drains main and fires the signal. */
  lemma MainInjectFromInitial(url: string, loaded: bool)
    requires url != Sentinel
    ensures InjectEffect(Initial(), url, MainTag, loaded) ==
      if loaded then RegistryState([], [Sentinel, Primed], [Sentinel, Primed], 1)
      else RegistryState([Sentinel, url], [Sentinel, Primed], [Sentinel, Primed], 0)
  {
    var pushed := Pushed(Initial(), MainTag, url);
    assert pushed.main == [Sentinel, url];
    assert RemoveFirst([url], url) == [];
    assert RemoveFirst([Sentinel, url], url) == [Sentinel] + RemoveFirst([url], url);
  }

  /**
    The bookkeeping of one injection: build the element, register the URL,
    then act on the outcome the host reports for it.
   */
  method InjectScript(reg: Registry, url: string, tag: string, dataUrl: Option<string>, dataId: Option<string>,
                      loads: string -> bool)
    returns (script: ScriptRecord, loaded: bool)
    modifies reg
    ensures script == MakeRecord(url, tag, dataUrl, dataId)
    ensures loaded == loads(url)
    ensures reg.State() == InjectEffect(old(reg.State()), url, tag, loaded)
  {
    script := MakeRecord(url, tag, dataUrl, dataId);
    reg.Enqueue(tag, url);
    loaded := loads(url);
    var phase := PhaseOf(tag);
    if loaded && phase.Some? {
      reg.HandleScriptLoaded(url, phase.value);
    }
  }
}
