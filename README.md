# URLBuilder, modelled in Dafny

`URLBuilder` is a small fluent builder for URLs. A builder holds five
fields: the `isHttps` flag (initially true), an optional custom `scheme`,
an optional `host`, an optional `path`, and the `keyValues` dictionary of
query parameters. Chained setters change those fields in place and return
the builder. Two assembly routines then turn the fields into output:

- `toString` writes `scheme://host path?k=v&k=v…`.
- `toUrlComponents` fills a `URLComponents` record with the scheme, host,
  path and one query item per parameter.

Both routines return nothing when the host or the path is unset. Three
`build()` specialisations expose them: as a `String`, as `URLComponents`,
and as a `URL` parsed from the string.

The project has two modules:

- `Query` (`query.dfy`) holds the pure pieces of the query string: the
  predicate saying a key sequence is an iteration order of the dictionary,
  its reversal, `Join` (entries separated by `&`), and an independent
  `Split` used as its inverse.
- `Builder` (`url_builder.dfy`) holds the records, the specification
  functions `ProtocolOnly`, `ModifiedPath`, `Render` (what `toString`
  yields) and `Components` (what `toUrlComponents` yields), the lemmas
  about them, and the class `URLBuilder`. The class has the source's five
  fields plus `order`, the order in which `keyValues` currently enumerates
  its keys.

Swift's `Dictionary` does not specify its iteration order. The model
therefore never fixes one. Every setter that changes `keyValues` picks a
fresh order with `EnumerateKeys`, which takes keys from the remaining set
one by one, each chosen arbitrarily. The class invariant only says that
`order` lists every key exactly once. The assembly methods read that order
and reverse it, as `keyValues.reversed()` does. They change nothing, so
two builds with no mutation in between see the same order and return
equal results: each method's postcondition is a function of the state.

Two consequences of the code are worth stating outright:

- `keyValues` is a plain Swift `Dictionary`, which has no fixed iteration
  order, and the code only reverses whatever order it yields. So with
  parameters `a=1` and `b=2` the string ends in either `?b=2&a=1` or
  `?a=1&b=2` (`TwoParamsExample`).
- `withScheme("ftp")` followed by `withHttp()` still gives the scheme
  `ftp`: `withHttp` clears only `isHttps`, and a set custom scheme wins
  whenever `isHttps` is false (`WithHttp`).

## Model

| member | source | states |
|---|---|---|
| `Query.ReversedIsOrder` | URLBuilder.swift:111 | reversing the dictionary's iteration order again lists every key exactly once and nothing else |
| `Query.JoinSeparators` | URLBuilder.swift:110-116 | joining n > 0 entries adds exactly n - 1 `&` separators to those the entries already contain |
| `Query.JoinEndsWithLast` | URLBuilder.swift:112-113 | the joined query ends with its last entry, so there is no trailing `&` |
| `Query.SplitJoin` | URLBuilder.swift:110-116 | when no entry contains `&`, cutting the joined query at every `&` gives back exactly the entries, in order |
| `Builder.ProtocolOnly` | URLBuilder.swift:69-75 | the effective scheme is the custom scheme when one is set and `isHttps` is false; otherwise it is `https` when `isHttps` is true and `http` when it is false |
| `Builder.Protocol` | URLBuilder.swift:65-67 | the protocol string is the effective scheme followed by exactly `://` |
| `Builder.Entry` | URLBuilder.swift:112-113 | one query entry is the key, then `=`, then the value, with nothing else |
| `Builder.DeletingSlashPrefix` | URLBuilder.swift:102 | one leading `/` is removed if there is one; otherwise the path is unchanged |
| `Builder.ModifiedPath` | URLBuilder.swift:99-103 | with a non-empty host the path is kept as is; with an empty host one leading `/` is dropped, and only that one |
| `Builder.VisitOrder` | URLBuilder.swift:88 | both assembly routines visit exactly as many keys as the dictionary holds, each of them a key of the dictionary |
| `Builder.Render` | URLBuilder.swift:95-98 | the URL string is absent if and only if the host or the path is unset |
| `Builder.Components` | URLBuilder.swift:77-86 | the record is absent if and only if the host or the path is unset; otherwise it carries the effective scheme without `://`, the host, and the unmodified path |
| `Builder.QueryEmptyIff` | URLBuilder.swift:105-116 | the query after `?` is empty exactly when the dictionary is; then the URL string ends in `?` |
| `Builder.QuerySeparatorCount` | URLBuilder.swift:110-116 | a non-empty dictionary yields a query with exactly one `&` fewer than it has entries, beyond the `&`s inside the keys and values |
| `Builder.QuerySplitsIntoEntries` | URLBuilder.swift:110-116 | when no key or value contains `&`, the query cuts into one `key=value` per dictionary entry, in reversed iteration order |
| `Builder.ItemsCoverMap` | URLBuilder.swift:87-90 | there is one query item per dictionary entry: each names a key with that key's value, and no key appears twice |
| `Builder.StringMatchesComponents` | URLBuilder.swift:77-118 | the string and the record are present together; the string is the record written out, with its query items in the same order |
| `Builder.AppendQuery` | URLBuilder.swift:110-116 | the counting loop that appends `key=value`, with `&` unless `keyIndex` has reached the dictionary's size, writes exactly the entries joined by `&` |
| `Builder.TwoParamsExample` | URLBuilder.swift:105-116 | host `example.com`, path `/search` and parameters `a=1`, `b=2` give `https://example.com/search?b=2&a=1` or `…?a=1&b=2`, whichever order the dictionary uses |
| `Builder.EmptyHostExample` | URLBuilder.swift:99-108 | an empty host and path `/p` give `https://p?` |
| `Builder.EnumerateKeys` | URLBuilder.swift:24 | the dictionary enumerates each of its keys exactly once, in an order the model leaves open |
| `Builder.URLBuilder.constructor` | URLBuilder.swift:20-24 | a fresh builder has `isHttps` set, no scheme, host or path, and no parameters, so its effective scheme is `https` |
| `Builder.URLBuilder.WithScheme` | URLBuilder.swift:28-32 | sets the custom scheme and clears `isHttps`, so the effective scheme becomes that scheme; host, path and parameters are unchanged |
| `Builder.URLBuilder.WithHttp` | URLBuilder.swift:35-38 | clears `isHttps` only; the effective scheme becomes an earlier custom scheme if one was set, else `http` |
| `Builder.URLBuilder.WithHost` | URLBuilder.swift:41-44 | sets the host; nothing else changes |
| `Builder.URLBuilder.WithPath` | URLBuilder.swift:47-50 | sets the path; nothing else changes |
| `Builder.URLBuilder.WithParam` | URLBuilder.swift:53-56 | upserts: the key maps to the new value, every other key keeps its old value, and no key is lost or added besides it |
| `Builder.URLBuilder.WithParams` | URLBuilder.swift:59-62 | replaces the whole dictionary with the given one, so earlier entries are gone |
| `Builder.URLBuilder.ToUrlComponents` | URLBuilder.swift:77-93 | returns exactly `Components` of the current state |
| `Builder.URLBuilder.ToString` | URLBuilder.swift:95-118 | returns exactly `Render` of the current state |
| `Builder.URLBuilder.BuildURL` | URLBuilder.swift:121-127 | absent when the string form is absent or does not parse as a URL; otherwise the parsed string |
| `Builder.URLBuilder.BuildComponents` | URLBuilder.swift:130-134 | returns exactly what `toUrlComponents` returns |
| `Builder.URLBuilder.BuildString` | URLBuilder.swift:136-140 | returns exactly what `toString` returns |

## Left out

- `URL(string:)` in the `URL` `build()` is Foundation's parser, whose rules are not visible. `BuildURL` takes the parser's verdict as a parameter `parses`, and stands for the parsed `URL` by the string it was parsed from.
- Percent-encoding and serialisation inside `URLComponents` and `URLQueryItem` are Foundation's. The model keeps only the record's fields.
- `Components`, `URLBuilder.ToUrlComponents` and `URLBuilder.BuildComponents` do not model the exception Foundation raises when `URLComponents.scheme` is set to an invalid scheme string (URLBuilder.swift:83). After `withScheme("a b")` the source traps in the `URLComponents` `build()`, while the model returns a record carrying `a b` as its scheme.
- Strings are modelled as sequences of code points. Swift compares `String`s, and so dictionary keys, by Unicode canonical equivalence, and `hasPrefix`/`deletingPrefix` work on grapheme clusters. So `WithParam` and the dictionary keep `"\u{E9}"` and `"e\u{301}"` as two keys where Swift keeps one, and `DeletingSlashPrefix` drops a `/` that starts a longer grapheme cluster, which Swift would keep.
- `String.deletingPrefix` is an extension defined outside `URLBuilder.swift`; it is modelled by assumption: `DeletingSlashPrefix` removes the prefix when present and otherwise returns the string unchanged.
- `String(format:)` with `%@` arguments is modelled as plain concatenation, `key + "=" + value`, followed by `&` where the format has one. Locale and format machinery are not modelled.
- Swift's concrete hash-based iteration order is not modelled. The model allows any order after each change to `keyValues`. This includes reordering when a value is only updated, which may be more freedom than the real dictionary takes.
- `keyIndex` is a word-sized `UInt` in the source. The model uses an unbounded integer, since a dictionary cannot hold as many entries as a word can count.
- The `URLBuildableType` marker protocol, the generic parameter `T` and `import UIKit` carry no behaviour. The three `build()` specialisations are three methods of one class.
- Object identity for chaining is kept: every setter returns the builder itself. `@discardableResult` is not modelled.
- `AppendQuery` is the loop of `toString` as a separate method over the dictionary and the visit order. Its proof then does not carry the rest of the builder's state. `toString` calls it at the point where the loop stands.
