# IP lookup engine — Dafny model

This project models the core of an IP address lookup tool: the class `IPLookup` in `app.py`. It has two parts.

- **Resolver** (`get_ip_info`, module `Resolver`).
  - It asks ARIN's RDAP service about an address, using the IP query path of section 3.1.1 of RFC 9082.
  - Only when ARIN answers 302 or 404 does it try APNIC, RIPE, LACNIC and AFRINIC, in that order, stopping at the first 200.
  - It returns one of three things:
    - the normalized record of the registry that answered;
    - the fixed message `Unable to fetch information for IP <ip>`;
    - the message of a transport exception.
- **Normalizer** (`parse_data`, module `Normalizer`).
  - It maps an RDAP IP-network object (section 5.4 of RFC 9083) onto a fixed-shape record: network, dates, description, links and entities.
  - Every field is read once, with a default: a placeholder (`*not provided*` or `N/A`), `None` or `[]`. Only the top-level dates, the entities list, and each entity's four contact fields, two dates and remark are overwritten later: by the events loops (top-level and per entity), the entities loop, the jCard loop and the entity's `remarks` check.
  - The jCard format is section 3.3 of RFC 7095, with the FN, ADR, TEL and EMAIL properties of RFC 6350.

The module `PyJson` models the Python values `json.loads` produces and the Python operations the code applies to them:

- `d.get`, `key in d`, `x[key]`, `x[i]`, `for v in x`, truthiness, `filter(None, …)`, `str.split`, `str.upper` and `str.join`.
- A dict is its member list in document order. Lookup finds the last duplicate key, as `json.loads` does.
- Every access that raises in Python gives `Raise(KeyError | IndexError | TypeError | AttributeError)`. Nothing is defaulted that the code does not default.
- A Python `for` loop whose body may raise is the function `Fold`. Generic lemmas about it cover:
  - the first exception stops the loop (`FoldStops`, `FoldCompletes`);
  - the last match wins (`FoldLastWins`);
  - matches are appended in order (`FoldAppends`);
  - other state is untouched (`FoldKeeps`);
  - the output is one entry per input (`FoldMaps`).

The loops of the source are methods with `for`/`while` loops. Each is proved equal to the function that specifies it:

- `CollectDates` is the events loop, specified by a `Fold`.
- `DecodeCard` is the jCard loop, specified by a `Fold`.
- `ParseData` contains the entities loop, specified by a `Fold`.
- `WalkFallbacks` is the fallback loop with `break`, specified by `Walk`. `GetIpInfo` is proved equal to `Resolve`, the reference definition of the whole lookup.

The lemmas then state what the source promises about those specifications.

The HTTP session is the parameter `get: string -> Reply`: for each URL it gives a response (status and decoded body) or a transport failure with its message. Python's `str()` of a non-string value, used by the f-strings for the address range and CIDR blocks, is the parameter `show`.

Three behaviours of the code are worth stating outright:

- **The normalizer is not total.** The code has unguarded accesses that raise, and the model raises there too:
  - a `port43` with no dot (`SourceRegistryNeedsDot`);
  - an IPv6 `cidr0_cidrs` entry (`CidrBlocks`);
  - an empty `remarks` list (`EmptyRemarksRaise`);
  - an event without `eventAction`;
  - a `registration` or `last changed` event without `eventDate`;
  - a jCard item without a property name;
  - an FN, EMAIL, TEL or ADR item without a value, or an ADR value that is not iterable or has a truthy non-string component. Items of other properties are ignored, with or without a value.
- **Escaping exceptions.** `get_ip_info` catches only transport exceptions. An exception from `parse_data` escapes it and is modelled as the `Raised` outcome.
- **The answering registry is not returned.** `get_ip_info` returns only `parse_data`'s record. The model records the probed URLs in a ghost sequence.

## Model

| member | source | states |
|---|---|---|
| PyJson.LookupFindsLast | app.py:46-53 | `key in d` holds exactly when some member has the key; `d[key]` is the value of the last member with that key |
| PyJson.SplitPieces | app.py:47 | `split('.')` yields at least two pieces exactly when the string has a dot, and no piece contains a dot |
| PyJson.SplitFirst | app.py:47 | the first piece of a split is everything before the first separator |
| PyJson.SplitAfter | app.py:47 | splitting past a separator-free prefix and its separator continues with the split of the rest |
| PyJson.KeepTruthyMembers | app.py:105 | `filter(None, …)` keeps exactly the truthy elements |
| PyJson.KeepTruthySplits | app.py:105 | `filter(None, …)` keeps order: it distributes over concatenation |
| PyJson.FoldStops | app.py:97-105 | once an iteration of a loop raises, the loop raises that exception whatever follows |
| PyJson.FoldCompletes | app.py:71-75 | a loop whose body raises exactly on "bad" elements completes exactly when no element is bad |
| PyJson.FoldLastWins | app.py:71-75 | a field the body overwrites on matching elements ends as the value of the last match, or its initial value when none matches |
| PyJson.FoldAppends | app.py:100-103 | a list the body appends to on matching elements ends as its initial value plus every match's value, in order |
| PyJson.FoldKeeps | app.py:97-105 | a part of the state that no iteration touches is unchanged by the loop |
| PyJson.FoldMaps | app.py:79-117 | a loop appending one result per element completes exactly when every element succeeds, and yields the per-element results in order |
| Normalizer.RenderCidrs | app.py:49 | the CIDR list comprehension succeeds exactly when every entry renders, and yields one rendering per entry in order |
| Normalizer.CidrBlocks | app.py:49 | `cidr` renders exactly when every entry is a dict with `v4prefix` and `length`, and is then the `prefix/length` blocks joined with `", "` |
| Normalizer.SourceRegistryNeedsDot | app.py:47 | the registry label is found exactly when `port43` is a string containing a dot; otherwise the code raises |
| Normalizer.SourceRegistryOfHost | app.py:47 | for a host `first.registry…` the label is `registry` upper-cased (`whois.arin.net` gives `ARIN`) |
| Normalizer.Skeleton | app.py:44-67 | the initial record has dates `None`/`None` and no entities |
| Normalizer.CollectDates | app.py:70-75 | the events loop, run step by step, computes the events specification, including the exception of the first unreadable event |
| Normalizer.EventsLastWins | app.py:70-75 | the events loop completes exactly when every event is readable; each date is that of the last event with its action, others are ignored |
| Normalizer.DecodeCard | app.py:95-105 | the jCard loop, run step by step, computes the jCard specification, including the exception of the first unreadable item |
| Normalizer.CardDecoding | app.py:97-105 | the jCard loop completes exactly when every item is readable; last FN and last ADR win, every EMAIL and TEL is appended in order, nothing else changes |
| Normalizer.AddressComponents | app.py:105 | an ADR value of strings joins to its non-empty components, in order, separated by `", "` |
| Normalizer.UnknownPropertiesIgnored | app.py:97-105 | a card whose items are all of unknown properties leaves the entity unchanged |
| Normalizer.BuildEntity | app.py:79-115 | building one entity step by step computes the entity specification, including its exceptions |
| Normalizer.CardStageKeeps | app.py:95-105 | the jCard stage of an entity writes only the four contact fields |
| Normalizer.CardStageFields | app.py:95-105 | without `vcardArray` the jCard stage changes nothing; with one it applies the jCard rules to the entity it starts from |
| Normalizer.EntityHeader | app.py:80-93 | `kind` equals `handle`; `roles` and `self` come from the entity or their defaults; `port43_whois` is always the placeholder |
| Normalizer.EntityContact | app.py:82-105 | without `vcardArray` the contact fields keep their placeholders; with one they follow the jCard rules |
| Normalizer.EntityDates | app.py:88-115 | entity dates are those of the last matching events with `*not provided*` as default; the remark is the first line of the first remark |
| Normalizer.EntitiesPointwise | app.py:79-117 | the entities loop completes exactly when every entity builds, and yields one entity per source entity, in order, each built from that entity alone |
| Normalizer.ParseData | app.py:43-119 | `parse_data`, run step by step, computes the normalization specification, including its exceptions |
| Normalizer.NormalizeNetwork | app.py:44-65 | `range` equals `net_range` and is `"<start> - <end>"` with `N/A` defaults; `parent`, `origin_as` and `related` are placeholders; the other fields come from the document or their defaults |
| Normalizer.NormalizeDates | app.py:56-75 | top-level dates default to `None` and are those of the last `registration` and `last changed` events |
| Normalizer.NormalizeEntities | app.py:66-117 | `entities` is `[]` without the key, and otherwise one built entity per source entity, in order |
| Normalizer.SparseDocument | app.py:44-67 | a document without optional keys normalizes to the all-placeholder record |
| Normalizer.RangeOnlyExample | app.py:46-66 | a document with only `startAddress` and `endAddress` gives range `8.8.8.0 - 8.8.8.255`, cidr `N/A`, no dates and no entities |
| Normalizer.EmptyRemarksRaise | app.py:60 | an empty `remarks` list is not defaulted: normalization raises IndexError |
| Normalizer.CardExample | app.py:95-103 | a card with two EMAIL items and one TEL item yields both addresses in order and the one number |
| Resolver.WalkStops | app.py:29-32 | the fallback walk asks a prefix of the servers in order; every reply before the last was a non-200 response; it stops at a transport failure, the first 200, or the end of the list |
| Resolver.ResolveProbes | app.py:19-32 | ARIN is asked first; the fallback registries are asked, in order, only after ARIN's 302 or 404; the walk stops at a transport failure, the first 200, after ARIN's other answers, or after AFRINIC |
| Resolver.NoFallbackAfterOtherStatus | app.py:21-35 | an ARIN answer other than 200, 302 or 404 gives the fixed error, and no other registry is asked |
| Resolver.EveryRegistryMisses | app.py:21-35 | when ARIN answers 302 or 404 and every fallback registry answers with a status other than 200, whatever the bodies, all five are asked, in order, and the result is the fixed error |
| Resolver.FoundAtFirstAnswer | app.py:19-38 | a record is only ever found at the first registry in probing order that answered 200 (ARIN, or a fallback after ARIN's 302 or 404, all earlier ones having answered another status), and it is `parse_data` of that registry's body |
| Resolver.WalkFallbacks | app.py:29-32 | the fallback loop with its `break` asks exactly the URLs of the fallback walk and ends with the reply of the last one |
| Resolver.ProbeRegistries | app.py:19-32 | ARIN's request plus, after a 302 or 404, the fallback loop ask exactly the URLs the lookup specifies, ending with the deciding reply |
| Resolver.GetIpInfo | app.py:16-41 | the lookup, run step by step, returns exactly the specified result and asks exactly the specified URLs |

## Left out

- The Flask application, its routes, template rendering and `app.run` (app.py:6, 121-136), including the "No IP address provided" check: web transport, not lookup logic.
- The `requests.Session` set-up and its headers (app.py:10-14): network configuration. The GET calls themselves are the `get` parameter.
- `response.json()` (app.py:37): the reply already carries the decoded body. A body that fails to decode is not modelled.
- The text of `str(e)` for a transport exception (app.py:41): it is the reply's opaque message.
- `str()` of non-string values in the f-strings (app.py:46, 48, 49): it is Python's own rendering, supplied as the `show` parameter.
- Floating-point JSON numbers: numbers are integers only.
- The unused `datetime` import (app.py:4).
- Idempotence of `parse_data`: it holds because `Normalize` is a function of its input alone, so no lemma states it.
- PyJson.Upper: upper-cases ASCII letters only; Python's Unicode case mapping is not modelled.
