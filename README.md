# Component detection and application devfile updates, in Dafny

This project models the update logic of the application service's
controllers (`controllers/update.go`).

- **Naming** (`naming.dfy`) covers `getComponentName` and `sanitizeComponentName`.
  - The raw name comes from the git URL: one trailing `/` is dropped, the last `/`-segment is taken, and that segment is cut at its first `.git`.
  - A context other than `""`, `"."` and `"./"` is joined in front with `-`.
  - The sanitiser keeps `[a-zA-Z0-9-]` and falls back to a random noun when nothing is left. It prefixes `comp-` to a digit-leading name, lower-cases it, cuts it to 58 characters and appends `-` and a random 4-character token.
  - The two random sources are inputs (a `NameDraw`).
- **AppDevfile** (`app_devfile.dfy`) covers `updateApplicationDevfileModel`.
  - A component with a git source becomes a project named after the component, with remote `origin`. A project of the same name already present is refused.
  - A component with only a container image becomes the workspace attribute `containerImage/<name>`. A non-empty value already there is refused, and an unreadable value's error is passed on.
  - Anything else is "component source is nil".
  - The function `Attach` states the change. The class `AppDevfileData` and the method `UpdateApplicationDevfileModel` perform it in place, scanning the projects in a loop.
- **ComponentStub** (`component_stub.dfy`) covers `updateComponentStub`.
  - For each detected devfile context, in order, it builds a component stub. The stub takes the query's git source at that context, the first scanned port, and the attributes of the first Kubernetes component: env, port (only while no port was scanned), route, replicas, and cpu/memory/storage limits and requests.
  - It writes each stub into the query's detection map under a sanitised name, and deletes the context from the caller's Dockerfile map.
  - It then writes a `"Dockerfile"` stub for every context left in that map.
  - A missing attribute key is ignored. Any other attribute error, and any parse or component-listing failure, stops the synthesis, and the entries written before it stay written.
  - The functions `DevfilePass`, `DockerfilePass`, `Synthesize` and `Record` state the behaviour. The classes `ComponentDetectionQuery` and `DockerfileContextMap` and the loop methods perform it in place.
- **Types** (`types.dfy`) holds the shared data model:
  - the API types `GitSource`, `ComponentSpec`, `ComponentDetectionDescription` and `Component`;
  - the devfile attribute values (string, number, env list, or anything else);
  - the three-way attribute lookup (found, key not found, other error);
  - the parsed-devfile outcome;
  - the errors.

## Model

| member | source | states |
|---|---|---|
| Naming.ToLower | controllers/update.go:384 | each upper-case ASCII letter becomes its lower-case letter, whose code is 32 higher, and every other character is kept, with the length unchanged |
| Naming.RemoveInvalidChars | controllers/update.go:373-375 | the filtered name holds only `[a-zA-Z0-9-]` and is no longer than the input |
| Naming.RemoveInvalidCharsIdempotent | controllers/update.go:373-375 | filtering an already filtered name changes nothing |
| Naming.RemoveInvalidCharsConcat | controllers/update.go:373-375 | the filter distributes over concatenation |
| Naming.SanitizedBase | controllers/update.go:373-387 | the name before the suffix is non-empty, at most 58 characters, and does not start with a digit; its value is stated by SanitizeKeepsCleanName, SanitizePrefixesDigitLeading, SanitizeFallsBackToNoun and SanitizeSeesOnlyFiltered |
| Naming.SanitizeComponentName | controllers/update.go:372-393 | the result is non-empty, does not start with a digit, is at most 59 characters plus the suffix, and ends in `-` and the suffix |
| Naming.WithSuffix | controllers/update.go:390 | the result is the base, then `-`, then the suffix, with the lengths adding up |
| Naming.MeetsNameRules | controllers/update.go:366-371 | the doc comment's rules, except the letter-start rule the code does not keep; SanitizedNameMeetsRules and GetComponentNameMeetsRules prove every generated name meets them |
| Naming.SanitizedNameMeetsRules | controllers/update.go:366-393 | with a noun of valid characters and a 4-character lower-case alphanumeric token, the name has 1 to 63 characters, all from `[a-z0-9-]`; it does not start with a digit, ends alphanumeric, and is not all digits |
| Naming.SanitizeKeepsCleanName | controllers/update.go:372-393 | a name of `[a-zA-Z0-9-]` that is not digit-leading, of any length, becomes its lower-cased form cut to its first 58 characters, then `-` and the suffix; a lower-case one of at most 58 characters only gains `-` and the suffix |
| Naming.SanitizeLowersExample | controllers/update.go:373-390 | `MyRepo` sanitises to `myrepo-<suffix>` |
| Naming.SanitizeFallsBackToNoun | controllers/update.go:376-379 | a name with no valid character is sanitised exactly as the noun would be |
| Naming.SanitizePrefixesDigitLeading | controllers/update.go:380-390 | a digit-leading name of `[a-zA-Z0-9-]` becomes `comp-` and the name, lower-cased and cut to its first 58 characters, then `-` and the suffix; a lower-case one of at most 53 characters only gains `comp-` and the suffix |
| Naming.SanitizeKeepsLeadingHyphen | controllers/update.go:369-375 | `-x` sanitises to a name starting with `-`, so "starts with an alphabet character" is not guaranteed |
| Naming.SanitizeSeesOnlyFiltered | controllers/update.go:373-387 | two names that filter to the same valid characters sanitise to the same result |
| Naming.SanitizeDropsLeadingSlash | controllers/update.go:373-375 | a leading `/` in front of a clean name is dropped |
| Naming.ContextSanitizeExample | controllers/update.go:373-390 | `/context-git-repo` sanitises to `context-git-repo-<suffix>` |
| Naming.TrimTrailingSlash | controllers/update.go:348-351 | exactly one trailing `/` is removed, and nothing else changes |
| Naming.LastSegment | controllers/update.go:352 | the result is the longest `/`-free suffix of the URL: it follows a `/` or starts the URL |
| Naming.LastSegmentAfterSlash | controllers/update.go:352 | the last segment of `p/seg` is `seg` whatever `p` holds |
| Naming.CutAtFirstGit | controllers/update.go:353 | the result is the prefix up to the first `.git`, or the whole string when there is none |
| Naming.CutAtFirstGitIsFirstOccurrence | controllers/update.go:353 | when the first `.git` starts at k the cut is `s[..k]` |
| Naming.CutAtFirstGitWithoutDot | controllers/update.go:353 | a string without `.` is not cut |
| Naming.CutAtFirstGitHasNoGit | controllers/update.go:353 | what the cut keeps holds no `.git` |
| Naming.RawComponentName | controllers/update.go:345-358 | the raw name from the git URL and the context; RawNameIsRepositorySegment, RawNameOfRepositoryUrl, RawNameWithContext and RawNameIgnoresTrailingSlash state its value |
| Naming.RawNameIsRepositorySegment | controllers/update.go:345-354 | with a URL and a root context, the raw name is a `/`-free piece of the URL that holds no `.git` |
| Naming.RawNameOfRepositoryUrl | controllers/update.go:345-354 | for `p/seg` with a `/`-free `seg` whose first `.git` starts at k, and no `.` before it, the raw name is `seg[..k]` |
| Naming.RawNameWithContext | controllers/update.go:355-358 | a context other than `""`, `"."`, `"./"` is joined to the repository name as `<context>-<repo>` |
| Naming.RawNameIgnoresTrailingSlash | controllers/update.go:348-351 | one trailing `/` on the URL does not change the raw name |
| Naming.GitRepoExample | controllers/update.go:345-354 | `https://host/git-repo.git` with no context gives `git-repo` |
| Naming.TrailingSlashExample | controllers/update.go:348-356 | `https://host/git-repo.git/` with context `./` gives `git-repo` |
| Naming.ContextExample | controllers/update.go:355-358 | context `/context` gives `/context-git-repo` |
| Naming.FirstGitCutExample | controllers/update.go:353 | `https://host/org/my.github.io` gives `my`: the cut is at the first `.git`, not only a trailing one |
| Naming.GetComponentName | controllers/update.go:343-364 | the raw name sanitised with one random draw; GetComponentNameMeetsRules proves it meets the naming rules |
| Naming.GetComponentNameMeetsRules | controllers/update.go:343-364 | with valid random inputs every component name meets the naming rules; an empty URL is named as if the noun were the raw name |
| AppDevfile.Attach | controllers/update.go:38-97 | the new workspace or the error of one update; AttachGitSourced, AttachImageSourced and AttachWithoutSource give each branch as an if-and-only-if, AttachKeepsProjectNamesUnique and AttachSameNameTwiceFails its invariants |
| AppDevfile.AttachGitSourced | controllers/update.go:40-65 | a git source wins over an image; the attach fails with a duplicate error exactly when a project already has the component's name, and otherwise appends exactly one project, named after the component, with `origin` at its URL, leaving the attributes alone |
| AppDevfile.AttachImageSourced | controllers/update.go:66-91 | without a git source and with an image: duplicate error exactly when a non-empty string is at `containerImage/<name>`; the lookup's error exactly when the value there is not a string; success exactly when the key is missing or empty, and then only that key changes, to the image |
| AppDevfile.AttachWithoutSource | controllers/update.go:92-94 | no git source and no image gives the "source is nil" error |
| AppDevfile.AttachKeepsProjectNamesUnique | controllers/update.go:53-65 | if project names were unique they stay unique after a successful attach |
| AppDevfile.AttachSameNameTwiceFails | controllers/update.go:40-88 | attaching a second component of the same name and kind of source fails with a duplicate error |
| AppDevfile.FindProjectNamed | controllers/update.go:57-61 | the loop reports a duplicate exactly when some project has the name |
| AppDevfile.UpdateApplicationDevfileModel | controllers/update.go:38-97 | the devfile object ends in the state `Attach` gives, or keeps its state and returns `Attach`'s error |
| ComponentStub.ReadResource | controllers/update.go:202-216 | one limit or request: a missing or empty string adds nothing, a wrong-kind value or an unparsable string is an error; ResourceEntries and ResourceReadFails state the outcome |
| ComponentStub.ReadResources | controllers/update.go:196-296 | the cpu, memory and storage reads in order, stopping at the first error; ResourceReadFails, ResourcesReadable and ResourceEntries state when it fails and what it lists |
| ComponentStub.ApplyKubernetesAttributes | controllers/update.go:159-296 | only env, port, route, replicas, limits and requests change; the port is the scanned one when non-zero, else the truncated port attribute, else 0 |
| ComponentStub.KubernetesAttributeValues | controllers/update.go:162-296 | on success the env is the env attribute's list (the stub's own when absent), the route is the route string or `""`, the replicas are the replica number truncated toward zero or 0, and the limits and requests are the resource reads on top of the stub's |
| ComponentStub.ExtractionFailsIffSomeKeyAborts | controllers/update.go:162-296 | the extraction fails exactly when some key holds a value of the wrong kind or an unparsable non-empty quantity; missing keys never abort, and the port key counts only while no port was scanned |
| ComponentStub.ResourceReadFails | controllers/update.go:202-245 | one aborting limit or request key makes the whole read fail |
| ComponentStub.ResourcesReadable | controllers/update.go:202-245 | when none of the three keys aborts, the read succeeds |
| ComponentStub.ResourceEntries | controllers/update.go:196-296 | a resource is listed exactly when its key holds a non-empty string, and then under the quantity that string parses to |
| ComponentStub.CpuAndMemoryLimitExample | controllers/update.go:196-245 | cpu `2` and memory `2Gi` give exactly a cpu and a memory limit and no requests |
| ComponentStub.NoAttributesChangeNothing | controllers/update.go:159-195 | an empty attribute map only clears route and replicas |
| ComponentStub.DevfileEntry | controllers/update.go:113-304 | one devfile context's entry or error; DevfileEntryFields, DevfileEntryAttributes and DevfileEntryFails state it field by field |
| ComponentStub.DevfileEntryFields | controllers/update.go:135-160 | devfile found exactly when the context's devfile URL is non-empty (lines 299-304); language and project type come from the devfile; the git source is the query's at this context with both detection URLs; the name, placeholder application and empty image are set; the port is the first scanned port, falling back to the port attribute only when that is 0 |
| ComponentStub.DevfileEntryFails | controllers/update.go:113-296 | a devfile context fails exactly when its devfile does not parse, its components cannot be listed, or its first Kubernetes component holds an aborting key |
| ComponentStub.DevfileEntryAttributes | controllers/update.go:159-296 | a devfile context's stub holds the first Kubernetes component's env list (or none), route (or `""`) and truncated replicas (or 0); each cpu, memory and storage limit and request is listed exactly when its key holds a non-empty string, under that string's parse |
| ComponentStub.DevfilePass | controllers/update.go:113-308 | the devfile loop's writes, deletions and error; DevfilePassIsEntryByEntry and DevfilePassStopsAtError state them |
| ComponentStub.DevfilePassIsEntryByEntry | controllers/update.go:113-308 | the k-th write and deletion belong to the k-th context; an error is the first failing context's, after every earlier entry was written; no error exactly when every context was written |
| ComponentStub.DevfilePassStopsAtError | controllers/update.go:119-132 | once a context fails nothing later is written or deleted |
| ComponentStub.DockerfilePass | controllers/update.go:313-338 | the dockerfile loop's writes; DockerfilePassEntries states them |
| ComponentStub.DockerfilePassEntries | controllers/update.go:313-338 | the dockerfile loop writes one entry per remaining context, in order, under the stub's name |
| ComponentStub.DockerfileEntry | controllers/update.go:316-337 | a dockerfile-only context's entry; DockerfileBuildEntries states it field by field |
| ComponentStub.DockerfileBuildEntries | controllers/update.go:316-337 | a dockerfile-only entry has devfile found false, language and project type `Dockerfile`, and a git source with the Dockerfile link and no devfile URL; the rest of the stub is empty |
| ComponentStub.VisitOrderIsDistinct | controllers/update.go:307-313 | the devfile contexts followed by the remaining Dockerfile contexts are distinct and are exactly the contexts of either map |
| ComponentStub.Synthesize | controllers/update.go:113-338 | both loops for a non-nil query; SynthesisCoversEachContextOnce and WrittenKeysAreSanitizedNames state what it writes |
| ComponentStub.SynthesisCoversEachContextOnce | controllers/update.go:113-338 | on success every context with a devfile or a Dockerfile gets exactly one entry, devfile contexts first, and every devfile context is deleted from the Dockerfile map |
| ComponentStub.WrittenKeysAreSanitizedNames | controllers/update.go:142-337 | every entry is written under its stub's own name, and with valid random inputs that name meets the naming rules |
| ComponentStub.Record | controllers/update.go:299-324 | the detection map after a run of writes; RecordLookup and RecordConcat state it |
| ComponentStub.RecordLookup | controllers/update.go:299-324 | in the detection map a later write under the same name wins; an untouched key keeps its value; a name is present exactly when it was there or was written |
| ComponentStub.RecordConcat | controllers/update.go:299-324 | writing two runs of entries is writing their concatenation |
| ComponentStub.FillFromKubernetesComponent | controllers/update.go:159-297 | the in-order reads produce exactly `ApplyKubernetesAttributes` |
| ComponentStub.BuildDevfileEntry | controllers/update.go:113-304 | one devfile context's entry or error, as the devfile loop's builder gives it |
| ComponentStub.WriteDevfileEntries | controllers/update.go:113-308 | the detection map gets the devfile pass's writes, the processed contexts leave the Dockerfile map, and the error is the pass's |
| ComponentStub.WriteDockerfileEntries | controllers/update.go:313-338 | the detection map gets one entry per remaining Dockerfile context, in visiting order |
| ComponentStub.UpdateComponentStub | controllers/update.go:99-341 | a nil query is refused before any change; otherwise the detection map and the Dockerfile map end as `Synthesize` says, and the error is its error |

## Left out

- Logging through the reconciler's logger is not modelled.
- The devfile parser and the Kubernetes-component listing are outside the model. Each context's parse result is an input `DevfileOutcome`: parse failed, listing failed, or metadata plus components.
- The errors of the devfile accessors `GetProjects`, `AddProjects` and `SetDevfileWorkspaceSpec` are not modelled. These library calls are taken to succeed.
- Quantity semantics are not modelled. `resource.ParseQuantity` is a parameter that returns a quantity or nothing.
- ComponentStub.ApplyKubernetesAttributes: numbers are exact reals truncated toward zero. It does not model float64 rounding, the overflow of the `int` conversion, or the library's lenient conversions between attribute kinds.
- AppDevfile.Attach: the workspace attribute is read with the same strict kind check, so any non-string value at `containerImage/<name>` is the lookup's error; the library's lenient conversions between attribute kinds are not modelled.
- ComponentStub.ReadResources: the limit and request maps, which the source fills in place, are built as values by a function, not by a loop of map updates.
- Naming.ToLower lower-cases ASCII letters only, and lengths count characters. Every character that reaches it is ASCII once the noun is valid, so this matches the byte counts of the source.
- Go map iteration order is given explicitly. The devfile contexts form a sequence of distinct contexts, and the remaining Dockerfile contexts are a second sequence, `dockerOrder`. The n-th context visited uses the n-th random draw.
- The random sources `gofakeit.Noun()` and `util.GetRandomString(4, true)` are inputs. A noun is non-empty, and a token is four lower-case alphanumeric characters. The naming-rule lemmas (SanitizedNameMeetsRules, SanitizeFallsBackToNoun, GetComponentNameMeetsRules, WrittenKeysAreSanitizedNames) also take every character of the noun to be in `[a-zA-Z0-9-]` (ValidNoun): the source does not filter the noun it falls back to, so a noun outside that set would break the charset rule.
- A nil map and an empty map are the same value here.
- Two contexts whose sanitised names collide overwrite each other in the detection map, later writes winning. The model states this (RecordLookup) but does not rule it out, and neither does the source.
- Naming.SanitizedNameMeetsRules leaves out "starts with an alphabet character" from the doc comment, because the code does not guarantee it (SanitizeKeepsLeadingHyphen).
