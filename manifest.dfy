/**
  Manifests: the JSON lists that name the vendor and internal scripts, the
  status rule for fetching them, and the URL each entry is loaded from.
 */
module Manifest {
  import opened Wrappers

  /** A manifest element: a bare script name, or a `[name, path]` pair. */
  datatype Entry = Name(name: string) | Pair(name: string, path: string)

  /** What the network hands back for a manifest request. */
  datatype Response =
    | NetworkError
    | Received(status: int, body: Option<seq<Entry>>)   // body: None when it is not valid JSON

  datatype FetchError = Unreachable(url: string) | BadStatus(url: string, status: int) | Unparsable(url: string)

  /** Fetching a manifest: anything but status 200 fails before the body is read. */
  function FetchManifest(url: string, response: Response): (r: Result<seq<Entry>, FetchError>)
    ensures r.Ok? <==> response.Received? && response.status == 200 && response.body.Some?
    ensures r.Ok? ==> r.value == response.body.value
    ensures response.Received? && response.status != 200 ==> r == Err(BadStatus(url, response.status))
    ensures r.Err? ==> r.error.url == url
  {
    match response
    case NetworkError => Err(Unreachable(url))
    case Received(status, body) =>
      if status != 200 then Err(BadStatus(url, status))
      else if body.None? then Err(Unparsable(url))
      else Ok(body.value)
  }

  const VendorDir: string := "src/vendor/"
  const WebDir: string := "src/web/"
  const ScriptSuffix: string := ".js"

  /** How an entry prints inside a template string: a pair is joined with a comma. */
  function Show(e: Entry): string
  {
    match e
    case Name(n) => n
    case Pair(n, p) => n + "," + p
  }

  /** The URL of a vendor manifest entry. */
  function VendorUrl(base: string, e: Entry): string
  {
    base + VendorDir + Show(e) + ScriptSuffix
  }

  /** The directory an internal entry is loaded from: the extension's web folder, or the pair's own path. */
  function InternalDir(base: string, e: Entry): string
  {
    match e
    case Name(_) => base + WebDir
    case Pair(_, path) => path + "/web/"
  }

  /** The URL of an internal manifest entry. */
  function InternalUrl(base: string, e: Entry): string
  {
    InternalDir(base, e) + e.name + ScriptSuffix
  }

  /** The part of `url` between `prefix` and `suffix`, when it has both. */
  function Strip(url: string, prefix: string, suffix: string): (r: Option<string>)
    ensures r.Some? ==> url == prefix + r.value + suffix
  {
    if |prefix| + |suffix| <= |url| && url[..|prefix|] == prefix && url[|url| - |suffix|..] == suffix
    then
      var mid := url[|prefix|..|url| - |suffix|];
      assert url == url[..|prefix|] + mid + url[|url| - |suffix|..];
      Some(mid)
    else None
  }

  lemma StripConcat(prefix: string, mid: string, suffix: string)
    ensures Strip(prefix + mid + suffix, prefix, suffix) == Some(mid)
  {
    var url := prefix + mid + suffix;
    assert url[..|prefix|] == prefix;
    assert url[|url| - |suffix|..] == suffix;
    assert url[|prefix|..|url| - |suffix|] == mid;
  }

  /** A vendor URL gives back the entry's printed name. */
  lemma VendorUrlRoundTrip(base: string, e: Entry)
    ensures Strip(VendorUrl(base, e), base + VendorDir, ScriptSuffix) == Some(Show(e))
  {
    StripConcat(base + VendorDir, Show(e), ScriptSuffix);
  }

  /** An internal URL gives back the entry's name, under the entry's own directory. */
  lemma InternalUrlRoundTrip(base: string, e: Entry)
    ensures Strip(InternalUrl(base, e), InternalDir(base, e), ScriptSuffix) == Some(e.name)
  {
    StripConcat(InternalDir(base, e), e.name, ScriptSuffix);
  }

  /** Under one base, two vendor entries share a URL exactly when they print alike. */
  lemma VendorUrlInjective(base: string, a: Entry, b: Entry)
    ensures VendorUrl(base, a) == VendorUrl(base, b) <==> Show(a) == Show(b)
  {
    VendorUrlRoundTrip(base, a);
    VendorUrlRoundTrip(base, b);
  }

  /**
    Printing loses the shape of a pair: every vendor pair `[n, p]` loads the
    same script as the bare name `n + "," + p`, though the two entries differ.
   */
  lemma VendorPairCollides(base: string, n: string, p: string)
    ensures Pair(n, p) != Name(n + "," + p)
    ensures VendorUrl(base, Pair(n, p)) == VendorUrl(base, Name(n + "," + p))
  {
  }

  /** Named internal entries all live under the extension's web folder, bare names distinct. */
  lemma InternalNameUrl(base: string, a: string, b: string)
    ensures InternalUrl(base, Name(a)) == InternalUrl(base, Name(b)) <==> a == b
  {
    InternalUrlRoundTrip(base, Name(a));
    InternalUrlRoundTrip(base, Name(b));
  }
}
