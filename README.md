# github-webhookify, modelled in Dafny

github-webhookify polls the public activity feed of one GitHub repository. It walks the feed
newest first and turns each push event that comes before the first event whose id is not
above the stored `last-update` value into a partial `push` webhook document in GitHub's shape.
A newer push event after that point is not converted. Some fields of that document are fixed rather than taken from the
event: `created`, `deleted` and `forced` are always false, and the pusher's e-mail is the
placeholder `example@localhost`. Commit authors carry a display name and e-mail but no
username. This project models three parts of the program:

- **the normaliser** (`convertPushEvent` and its helpers). It turns one feed record into a
  partial webhook document: repository identity, sender and pusher, the commits with their URLs,
  the head commit and the compare URL (module `Convert`, with the JavaScript string
  operations it uses in module `Strings`);
- **one polling run** (`checkGitHub`). It reads the stored `last-update` value from the
  key-value store, or 0 when nothing is stored; the program never updates that value itself. It walks the feed page newest first and stops at the
  first event whose id is not above that value. It skips events that are not
  `PushEvent`s and logs the normalised form of the rest (module `Poll`);
- **configuration helpers** (`parseBool`, `getEnv`, and the `DEBUG` / `SENTRY_DEBUG`
  flags that default to `"0"`) over an environment given as a map (module `Env`).

Modules `Wrappers` (Option, Result) and `Strings` are shared helpers.

`Poll.CheckGitHub` is a method with a loop that has the source's `break` and `continue`.
It is proved equal to the specification function `Poll.Emitted`. The properties of the
selection are lemmas about `Poll.Selected`. These include that it equals an independent
description, the push events of the longest prefix of newer events. The normaliser and the
configuration helpers are pure functions. Their properties are lemmas and `ensures` clauses.

Modelling choices:

- `event.repo.name.split("/")[1]!` yields `undefined` at run time when the name has no `/`,
  because the `!` only silences the type checker. The model keeps the transform total:
  `repository.name` is an `Option<string>` that is `None` in that case.
- The key-value store is a class `Poll.KvStore`. `CheckGitHub` has no `modifies` clause,
  so Dafny's frame rule guarantees that a run leaves the stored `last-update` value unchanged.
- The feed page is an input. Each record carries an id that is already a natural number,
  its `type`, and the record read through the push-event shape. `console.log` is the
  method's returned sequence.
- JSON field names such as `html_url` become camel-case Dafny fields (`htmlUrl`).

`checkGitHub` walks the page newest first without reversing it. It stops (`break`) at the
first event that is not newer than the stored value, rather than skipping it. It does not
filter by branch, does not suppress the first run, never writes the store, and sends no cache
token or webhook. `Poll.NewestFirstExample` shows the order: with a stored 101 and ids 103,
102, 101, 100, the run logs the documents of 103 and then 102.

## Model

| member | source | states |
|---|---|---|
| Strings.Prefix | src/convert.ts:64 | `substring(0, n)` keeps exactly the first min(n, length) characters and is a prefix of its input |
| Strings.Split | src/convert.ts:10 | `split` with a one-character separator gives at least one segment, and no segment contains the separator |
| Strings.JoinSplit | src/convert.ts:10 | joining the segments with the separator gives back the original string |
| Strings.SplitJoin | src/convert.ts:10 | splitting a join of separator-free segments gives back exactly those segments |
| Convert.RepositoryPart | src/convert.ts:6-14 | for a full name `owner/name`: id and url copied, `full_name` is the full name, `html_url` is `https://github.com/owner/name`, and `name` is `name` |
| Convert.RepositoryNameMissing | src/convert.ts:10 | the short repository name is missing exactly when the full name contains no `/` |
| Convert.RepositoryNameSecondSegment | src/convert.ts:10 | with several `/`, the short name is the text between the first and second `/`: a prefix of the rest without `/` that is either the whole rest or followed by a `/` |
| Convert.CommitsCorrespond | src/convert.ts:29-53 | same number and order of commits; element i has id = sha, distinct, message and author copied, and url `https://github.com/<repo>/commit/<sha>`, which is under the repository's `html_url` |
| Convert.HeadCommitIsLast | src/convert.ts:66 | `head_commit` is null exactly when there are no commits, and otherwise it is the last converted commit, whose id is the last sha |
| Convert.CompareUrlShape | src/convert.ts:55-64 | the compare URL is the repository page + `/compare/` + the first 12 characters (all, when shorter) of `before` + `...` + the same of `head` |
| Convert.CompareUrlExample | src/convert.ts:64 | for two 40-character hashes on `owner/repo`, the compare URL is `https://github.com/owner/repo/compare/aaaaaaaaaaaa...bbbbbbbbbbbb` |
| Convert.ActorParts | src/convert.ts:18-26 | the sender copies the actor's login, id, avatar and url and links to `https://github.com/<login>`; the pusher (line 68) is the login with the fixed e-mail `example@localhost` |
| Convert.FixedFields | src/convert.ts:55-63 | `ref`, `before` and `after` (= `head`) are copied; `created`, `deleted` and `forced` are false and `base_ref` is null |
| Convert.SourceEventOfConvert | src/convert.ts:51-71 | every field the normaliser reads can be read back from the document, so none of the information it reads is lost (fields it does not read, such as the event id, are not part of its input) |
| Convert.ConvertPushEventInjective | src/convert.ts:51-71 | two records that differ in some field the normaliser reads never give the same document; feed events differing only in fields it does not read (id, `created_at`, a commit's `url`, ...) do give the same document |
| Env.LowerChar | src/env.ts:4 | an ASCII capital becomes the matching small letter; every other character is unchanged |
| Env.ToLower | src/env.ts:4 | lower-casing keeps the length and lower-cases each character in place |
| Env.ToLowerIdempotent | src/env.ts:4 | lower-casing a lower-cased string changes nothing |
| Env.ParseBool | src/env.ts:3-8 | true exactly when the lower-cased value is one of 1, t, y, true; false exactly when it is one of 0, f, n, false; otherwise an `InvalidBoolError` carrying the lower-cased value |
| Env.AcceptedSetsDisjoint | src/env.ts:5-6 | no spelling is accepted as both true and false |
| Env.ParseBoolCaseInsensitive | src/env.ts:4-6 | parsing a value and parsing its lower-cased form give the same result |
| Env.ParseBoolSameLower | src/env.ts:4-6 | two values that lower-case alike parse alike |
| Env.ParseBoolExamples | src/env.ts:3-8 | `TRUE` is true and `F` is false; `yes` and `No` are rejected |
| Env.GetEnv | src/env.ts:12-18 | fails exactly when the key is required and not set, with an error naming the key; otherwise gives the stored value, or nothing when unset; a required lookup that succeeds always has a value |
| Env.ParseFlag | src/env.ts:21 | an unset flag variable reads as false; a set one is parsed by `parseBool` |
| Env.DebugFlagsDefaultFalse | src/env.ts:21-26 | unset `DEBUG` and unset `SENTRY_DEBUG` both read as false |
| Poll.KvStore.Get | src/main.ts:10 | the store's lookup gives a value exactly when the key is stored, and then the stored value |
| Poll.LastId | src/main.ts:10 | the last id is 0 when nothing is stored, else the stored value |
| Poll.Selected | src/main.ts:18-21 | the events a run converts are push events with an id strictly above the last id, drawn from the page, and no more numerous than the page |
| Poll.ConvertAll | src/main.ts:24-25 | each selected event is converted by `convertPushEvent`, one to one and in order |
| Poll.CheckGitHub | src/main.ts:9-27 | the loop, with its `break` and `continue`, logs exactly the conversion of the selected events for the stored last id, in feed order |
| Poll.FreshPrefixLength | src/main.ts:20 | the length of the longest prefix of the page whose ids are all above the last id; the event after it, if any, is not above |
| Poll.Pushes | src/main.ts:21 | an event is among the push events of a sequence exactly when it is in the sequence and has type `PushEvent` |
| Poll.SelectedIsPushesOfFreshPrefix | src/main.ts:18-26 | the selection equals the push events of the longest prefix of newer events |
| Poll.SelectedMembership | src/main.ts:18-21 | an event is logged if and only if it is a push event at a position where it and every event before it are newer than the last id |
| Poll.SelectedIsSubsequence | src/main.ts:18 | the logged events are a subsequence of the page, in feed order (newest first) |
| Poll.StopsAtFirstStale | src/main.ts:20 | the walk stops at the first event with id not above the last id: nothing after it is logged, even with a larger id |
| Poll.FreshEventsContinue | src/main.ts:21 | newer events, push or not, do not stop the walk: after them the selection goes on to the rest of the page |
| Poll.AllFreshLogsAllPushes | src/main.ts:18-26 | when every event is newer than the last id, exactly the page's push events are converted and logged |
| Poll.EmptyStoreLogsAllPushes | src/main.ts:10-26 | with nothing stored and positive ids, nothing is cut off: every push event on the page is logged |
| Poll.NewestFirstExample | src/main.ts:18-21 | with last id 101 and ids 103, 102, 101, 100 on distinct records, exactly 103 and then 102 are selected, and the log is their two documents in that order |

## Left out

- src/sentry.ts: it only configures the error-reporting SDK.
- The Deno KV connection (`Deno.openKv`), the HTTP request for the feed and its parameters, `Deno.cron` scheduling and its retry backoff, the `RUN_IMMEDIATELY` switch and `debugger` (src/main.ts:1-7, 12-17, 29-40). These are I/O and runtime plumbing: the store is the `KvStore` argument, the page is an input and the log is the result.
- How `console.log` formats a document; the log holds the documents themselves.
- The stored `last-update` value is taken as an integer; NaN, infinities and non-number stored values are not modelled (a NaN would make `id <= lastId` always false, so the loop would never stop early).
- `Number(ev.id)`: ids are taken as already-parsed natural numbers, so NaN and non-numeric ids are not modelled.
- The unchecked cast `ev as PushEvent`: a record's push-event reading is given with it, and is only used when its type is `PushEvent`.
- Env.ToLower: models ASCII lower-casing only, not the full Unicode `toLowerCase`.
- Strings.Prefix: counts characters, not UTF-16 code units as JavaScript strings do.
- The evaluation of the default configuration object at import time (src/env.ts:20-28), including the required `WEBHOOK_URL`. Only the flag defaulting rule is modelled, by `Env.ParseFlag`.
- The text of the thrown error messages: the errors carry the lower-cased value or the key instead.
- Feed and webhook fields that the normaliser never reads or writes.
