# Content-script injector: phase queues and bootstrap sequence

This project models the loading coordinator of the extension's content
script `injectContent.js`. The script injects the page-side scripts of the
extension in three phases: the main drawer script, the vendor scripts listed
in `vendor.json`, and the internal scripts listed in `internal.json`. It
tracks every phase in a queue of pending URLs (`scriptQueues`). The main
phase fires a one-shot "main completed" signal when its queue drains down to
its placeholder entry.

The model has five modules besides `Wrappers` (wrappers.dfy), which holds
the `Option` and `Result` types:

- `Queues` (queues.dfy) models the registry. It contains three pending-URL
  lists that start as `["once"]`, `["once", "primed"]` and
  `["once", "primed"]`, plus a counter of how often the main signal fired.
  - `Registry` is a class whose methods change it in place: `Enqueue` (the
    `push`) and `HandleScriptLoaded` (`indexOf`, `splice`, and the main
    drain rule).
  - Both methods are proved against pure functions on the registry's value:
    `Pushed` and `Loaded`.
  - Arbitrary histories of these operations are replayed to prove that the
    signal fires at most once. The proof assumes no script URL equals the
    sentinel `"once"`; a counterexample shows why that condition is needed.
- `Injector` (injector.dfy) models what `injectScript` decides:
  - which attributes the element gets;
  - whether it is a module, by a substring test proved equal to "occurs
    somewhere";
  - how the registry changes for one injection whose element fires `load`
    or `error`.
- `Manifest` (manifest.dfy) models the manifest entries (a bare name or a
  `[name, path]` pair), the status-200 rule of `fetchManifest`, and the URL
  templates. Round-trip lemmas recover a vendor entry's printed form, and an
internal entry's name under its directory, from its URL.
- `Sequencer` (sequencer.dfy) models the bootstrap sequence as a method that
  runs the steps one after another. It uses two loops: the vendor loop
  tolerates failures, the internal loop aborts on the first one. The
  reference run is given as three functions:
  - `RunTrace`: the steps taken;
  - `RunOutcome`: where the run ends;
  - `RunQueues`: the registry left behind.

  `RunSequence` is proved to produce exactly these.
- `SequenceLaws` (sequence_laws.dfy) proves what a run guarantees:
  - the error policy;
  - the order of the steps;
  - which scripts are injected, and in which order;
  - the final queues.

The host's answers are parameters:
- `loads(url)` says whether the element for `url` fires `load` (true) or
  `error` (false);
- a `Response` is what the network returns for each manifest: a network
  error, or a status code with a body that parsed or did not;
- `base` and `extId` stand for `chrome.runtime.getURL("")` and
  `chrome.runtime.id`.

Every step of the sequence is awaited before the next one starts, so running
the steps one after another with these answers is faithful to the script.

The model follows the code as written in these places:
- The two manifests are fetched one after the other (lines 115-116), not
  concurrently.
- Only the vendor loop catches errors. A failing internal script ends the
  whole sequence through the outer `catch` (lines 137-152), so the internal
  `"primed"` entry is not cleared.
- A bare internal name resolves to `base + "src/web/" + name + ".js"`.
- `push` does not remove duplicates.
- `await mainScriptsLoaded` (line 119) never blocks when the sequence gets
  there: the main script's own load handler has already fired the signal
  (lines 17-20 run inside the handler of lines 50-54). The model proves this
  state and records the step as `MainResolved`.

## Model

| member | source | states |
|---|---|---|
| `Queues.PhaseOf` | injectContent.js:46-48 | a tag has a queue only when it names one of the three phases, and then it is that phase's tag |
| `Queues.PhaseOfTag` | injectContent.js:2-6 | each phase is found under its own tag |
| `Queues.RemoveFirst` | injectContent.js:13-15 | removing a URL that is absent leaves the queue as it was; removing one that is present shortens it by one |
| `Queues.RemoveFirstAt` | injectContent.js:14-15 | splicing out the first index holding the URL is the same as removing its first occurrence |
| `Queues.RemoveFirstMultiset` | injectContent.js:13-15 | a removal takes away exactly one copy of the URL and nothing else |
| `Queues.IndexOf` | injectContent.js:14 | gives -1 exactly when the URL is absent; otherwise the first index that holds it |
| `Queues.Initial` | injectContent.js:2-6 | the registry value when the script loads: main `["once"]`, vendor and internal `["once","primed"]`, no signal fired; the constructor builds exactly this value, and `InitialSignalInvariant` holds of it |
| `Queues.Pushed` | injectContent.js:46-48 | registering appends the URL to its phase's queue only; an unknown tag changes nothing |
| `Queues.Loaded` | injectContent.js:12-21 | a completion touches only its own phase; the signal fires (once, leaving main empty) exactly when the phase is main and the removal leaves exactly `["once"]`; vendor and internal completions, including the `"primed"` clears, never signal |
| `Queues.Registry.constructor` | injectContent.js:2-6 | the registry starts as `["once"]`, `["once","primed"]`, `["once","primed"]` with no signal fired |
| `Queues.Registry.Enqueue` | injectContent.js:46-48 | the in-place push yields exactly `Pushed` of the old registry |
| `Queues.Registry.HandleScriptLoaded` | injectContent.js:12-21 | the in-place `indexOf`/`splice` handler yields exactly `Loaded` of the old registry |
| `Queues.InitialSignalInvariant` | injectContent.js:2-3 | at start the main queue holds the sentinel once and nothing has fired |
| `Queues.StepKeepsSignalInvariant` | injectContent.js:12-21 | no push or completion of a non-sentinel URL breaks "sentinel once and unfired, or sentinel gone and fired once" |
| `Queues.SignalAtMostOnce` | injectContent.js:17-20 | over any history of pushes and completions of non-sentinel URLs the main signal fires at most once |
| `Queues.SentinelUrlRearmsSignal` | injectContent.js:17-20 | pushing a URL equal to `"once"` after the signal lets it fire a second time |
| `Injector.Includes` | injectContent.js:42 | the definition of `includes`: the text matches at the front of the URL or (recursively) in its tail; `IncludesOccurs` proves this means "occurs at some position" |
| `Injector.IsModuleScript` | injectContent.js:42-44 | the definition of the `type="module"` rule: the URL includes `main.js` or `loader.js` |
| `Injector.IncludesOccurs` | injectContent.js:42 | the substring test is true exactly when the text occurs at some position of the URL |
| `Injector.MakeRecord` | injectContent.js:33-44 | the element's `src` is the URL; only a main-phase element gets an id, which is `"injector"`, and gets `data-url`/`data-id`, a missing value becoming `"undefined"`; other phases get none of them |
| `Injector.MakeRecordModule` | injectContent.js:42-44 | an element is a module exactly when its URL contains `main.js` or `loader.js` |
| `Injector.InjectEffect` | injectContent.js:46-59 | the definition of one injection's effect on the registry: a push under a tracked tag, then the completion handler on `load`, nothing more on `error`; `InjectUntracked`, `InjectEffectQueue` and `MainInjectFromInitial` prove what it does |
| `Injector.InjectUntracked` | injectContent.js:31 | an injection under the default `"base"` tag or any other unknown tag leaves the registry unchanged |
| `Injector.InjectEffectQueue` | injectContent.js:46-59 | a vendor or internal injection touches only its own queue and never signals; on `load` the queue ends up with the same contents, on `error` the URL stays appended |
| `Injector.MainInjectFromInitial` | injectContent.js:46-54 | from the start state a loaded main script drains the main queue and fires the signal; one that errors stays pending after the sentinel |
| `Injector.InjectScript` | injectContent.js:31-59 | builds `MakeRecord` of its arguments, reports the host's outcome for the URL, and changes the registry by push-then-complete exactly as `InjectEffect` says |
| `Manifest.FetchManifest` | injectContent.js:74-78 | succeeds exactly on status 200 with a parsed body and returns that body; any other status fails with `BadStatus`, carrying the URL (the thrown message names only the URL; the status is kept by the model); a network error or an unparsable body fails too |
| `Manifest.Show` | injectContent.js:126 | the definition of how `${script}` prints an entry: a name as itself, a pair as its two strings joined by a comma, as a JavaScript array converts to text |
| `Manifest.VendorUrl` | injectContent.js:126 | the definition of the vendor template (base, `src/vendor/`, printed entry, `.js`); `VendorUrlRoundTrip`, `VendorUrlInjective` and `VendorPairCollides` prove what it yields |
| `Manifest.InternalDir` | injectContent.js:138-145 | the definition of the directory an internal entry loads from: `base + "src/web/"` for a string, `path + "/web/"` for a pair |
| `Manifest.InternalUrl` | injectContent.js:138-145 | the definition of an internal URL: the entry's directory, its name, `.js`; `InternalUrlRoundTrip` and `InternalNameUrl` prove what it yields |
| `Manifest.VendorUrlRoundTrip` | injectContent.js:126 | a vendor URL is `base + "src/vendor/" + entry + ".js"`, and the entry's printed form is recovered from it |
| `Manifest.InternalUrlRoundTrip` | injectContent.js:140-145 | an internal URL is its directory (`base + "src/web/"` for a name, `path + "/web/"` for a pair) plus `name + ".js"`, and the name is recovered from it |
| `Manifest.VendorUrlInjective` | injectContent.js:126 | two vendor entries share a URL exactly when they print the same |
| `Manifest.VendorPairCollides` | injectContent.js:126 | every vendor pair `[n, p]` is a different entry from the name `n + "," + p` yet loads the same URL |
| `Manifest.InternalNameUrl` | injectContent.js:140 | distinct bare internal names resolve to distinct URLs |
| `Sequencer.Attempts` | injectContent.js:123-147 | the definition of a loop's steps: one injection step per URL, in order, each recording that URL's outcome, as many steps as URLs |
| `Sequencer.Failures` | injectContent.js:129-131 | the definition of the URLs of a list whose element errors, in order; `FailuresNone` and `FailuresFirst` prove what it holds |
| `Sequencer.Settle` | injectContent.js:123-147 | the definition of the registry after injecting a list of URLs one after the other in a phase; `SettleQueues` proves what it leaves |
| `Sequencer.FailureIndex` | injectContent.js:137-147 | no index exactly when every URL loads; otherwise the first index whose element errors |
| `Sequencer.SettleQueues` | injectContent.js:123-147 | injecting a list of URLs in the vendor or internal phase leaves the other queues and the signal alone, and leaves exactly the URLs that errored pending in its own queue |
| `Sequencer.InjectVendorScripts` | injectContent.js:123-132 | the vendor loop injects every entry's URL in manifest order, whatever fails, and leaves the registry as the vendor URLs settled in turn |
| `Sequencer.InjectInternalScripts` | injectContent.js:137-147 | the internal loop injects entries in manifest order up to and including the first one that errors, reports that index, and leaves the registry as those URLs settled in turn |
| `Sequencer.RunTrace` | injectContent.js:102-153 | the definition of the reference steps: the main injection; then, only after a load, the vendor fetch; only after that succeeds, the internal fetch; after both, the signal, the vendor attempts, the vendor clear, the internal attempts and, when none failed, the internal clear; the `SequenceLaws` trace lemmas prove what it guarantees |
| `Sequencer.RunOutcome` | injectContent.js:102-153 | the definition of where the run ends: the first of main script, vendor manifest, internal manifest and first failing internal script that fails, else completion; `OutcomePolicy` characterises it |
| `Sequencer.RunQueues` | injectContent.js:102-153 | the definition of the registry left behind, stage by stage; `QueuesMainAndVendor`, `QueuesDone` and `QueuesInternalAbort` prove what it holds |
| `Sequencer.RunSequence` | injectContent.js:102-153 | the sequence run in place on the registry yields exactly the reference trace, outcome and final registry |
| `SequenceLaws.OutcomePolicy` | injectContent.js:102-153 | the run aborts at the main script exactly when it errors, at a manifest exactly when that fetch fails (vendor first), and at internal entry `j` exactly when `j` is the first internal failure; it completes exactly when nothing of those fails, whatever the vendor scripts do |
| `SequenceLaws.TraceOrdered` | injectContent.js:107-148 | every run keeps the order: main injection, manifest fetches, main signal, vendor injections, vendor clear, internal injections, internal clear |
| `SequenceLaws.TraceOpening` | injectContent.js:107-119 | the main injection comes first and is the only step exactly when it errors; the vendor manifest is fetched second, and the run ends there exactly when that fetch fails, so the internal manifest is then never requested; the internal manifest is fetched third, and the run ends there exactly when that fetch fails; the signal is awaited fourth |
| `SequenceLaws.TraceElements` | injectContent.js:33-40 | in every run the first step's element is the main one, with `src` the drawer URL, id `"injector"` and the base URL and extension id as data; every later element has no id and no data attributes |
| `SequenceLaws.TraceMilestones` | injectContent.js:119-148 | the signal is awaited and vendor `"primed"` is cleared exactly when the main script loaded and both manifests arrived; internal `"primed"` is cleared exactly when the run completes |
| `SequenceLaws.MainAndVendorInjections` | injectContent.js:107-132 | the main script is the one main-phase injection; vendor scripts are injected only after the gates open, and then all of them, in manifest order |
| `SequenceLaws.InternalInjections` | injectContent.js:135-147 | internal scripts are injected only after the gates open, in manifest order: all of them when the run completes, up to and including the first failing one when it aborts |
| `SequenceLaws.QueuesMainAndVendor` | injectContent.js:107-133 | the signal fires once exactly when the main script loads, leaving main empty, while an erroring one stays pending; before the gates the other queues keep their placeholders; after them the vendor queue holds the sentinel plus exactly the failed vendor URLs |
| `SequenceLaws.QueuesDone` | injectContent.js:133-148 | a completed run leaves the internal queue at exactly `["once"]` |
| `SequenceLaws.InternalAbortStage` | injectContent.js:137-147 | internal injections up to and including the first failure add exactly that failing URL to the two placeholders |
| `SequenceLaws.QueuesInternalAbort` | injectContent.js:137-152 | an abort at internal entry `j` leaves the internal queue holding the sentinel, `"primed"` and that entry's URL |

## Left out

- The DOM: creating the element, attaching it and `script.remove()`, and the busy-wait for `document.head`/`documentElement` (lines 33, 52, 57, 61-69). The host's `load`/`error` answer is the `loads` parameter. The element itself is `MakeRecord` of the recorded call.
- The CSS injector driven by `setInterval` (lines 89-99). It is a timer-driven side path and is not ordered relative to the scripts.
- The network and JSON parsing in `fetchManifest` (lines 75, 77). A response is a parameter; its body is either a parsed list of entries or unparsable. JSON values other than a list of strings and pairs are not modelled.
- The `CustomEvent` mechanism, the `addEventListener` options and the `Date.now()` event id (lines 9, 19, 81-86). They are replaced by the signal counter, and the awaited promise by the `MainResolved` step.
- `chrome.runtime.getURL` and `chrome.runtime.id` are the parameters `base` and `extId`.
- `console.error` logging (lines 130, 151) and `sleep` (lines 24-26).
- Promise scheduling and real concurrency: the steps are awaited one by one, so they are modelled in order.
- Unsettled steps: the oracles always answer. In the source, an element that fires neither `load` nor `error`, or a `fetch` that never settles, stalls the sequence forever, since nothing is cancelled or timed out (lines 32-59, 75). `RunOutcome` and `OutcomePolicy` describe only runs in which every step settles.
- Tags that are names of `Object.prototype` properties (`"constructor"`, `"toString"`, `"__proto__"`). For these, `scriptQueues[queueType]` (line 46) is truthy and line 47 throws inside the promise executor, so the promise never settles. The model treats every tag other than the three phase names as untracked, as the source does for the default `"base"`. So it assumes a tag is never such a property name; no caller passes one.
- Manifest.FetchManifest: the failure reasons are modelled as data that all carry the URL. In the source only the status failure's message names the URL (line 76). A rejected `fetch` (line 75) and a failing `response.json()` (line 77) raise the host's own errors, which the model does not describe.
- The load oracle `loads` is one function of the URL. Two injections of the same URL therefore get the same outcome.
