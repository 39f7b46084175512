# Batch-and-render pipeline of infradb_api

This project models the deterministic part of the `infradb_api` client (`Infradb_api.py`).
That client loads node records, parsed from a YAML list, into a GraphQL backend.
`Session.upsert_node` cuts the record list into slices of 10000 with `Session._trunk`.
It renders every record of a slice into an object literal through `DataItem_Template`.
It prepends each literal to an accumulator, `DataList`.
Then it posts one `upsert_node` mutation per slice, rendered by `NODE_UPSERT_TEMPLATE`, with credentials from `ACCOUNT_Template`.

Modules:

- `Wrappers`: `Option` and `Result`.
- `Seqs`: `Flatten`, `Reverse`, and `Collect`, which runs a fallible step over a sequence in order and stops at the first failure. That is how an exception escapes a Python `for` loop after the earlier iterations have taken effect.
- `Chunking`: `_trunk`, as a recursive function `Trunk` and as the stepped-range loop `TrunkSlices` proved equal to it.
- `Templates`: the three templates as literal text. Each one has a partner that reads the text back (`SplitAccount`, `ParseItem`, `ExtractDataList`).
- `InfradbApi`: key lookups on a parsed node, the `DataList` loop, the specification `Load` of everything `upsert_node` sends, and the `Session` class. The class keeps a log `posted` of every request it issues.

Modelling choices:

- A parsed YAML mapping is a `map<string, string>`. Every scalar is taken as already turned into text.
- A missing required key is `Err(key)`: the `KeyError` that Python raises at the first absent key. The lookups run in the source's order: `xpath`, `type`, `listindex`, `owner`.
- `yaml.load` is replaced by its result, a `YamlDocument`: either the parsed list or a `YAMLError`.
- Jinja2 rendering is literal concatenation. The templates do not autoescape, so values go in verbatim.
- Jinja2 by default drops the single newline at the end of a template source. So the modelled upsert query starts with a newline and ends with the closing `}`.
- `_post_graphql` is modelled as appending a `Request(url, account, query)` to `posted`. Here `account` is the `username:password` text before base64 encoding.
- The generator `_trunk` runs to completion before the send loop starts. Nothing in the generator can fail or has an effect, so this gives the same sends.

Details of the code the model keeps:

- The record literal has a space, a newline and 28 spaces after the `type` field. There is no space before `value:`.
- The batch size is fixed at 10000 in `upsert_node`.
- A `KeyError` during rendering is not caught. It escapes `upsert_node` after the earlier slices have been posted.

## Model

| member | source | states |
|---|---|---|
| `Chunking.Trunk` | Infradb_api.py:66-68 | a negative step gives no slices; every slice is non-empty and holds at most `n` elements |
| `Chunking.TrunkSlices` | Infradb_api.py:66-68 | the stepped `range` loop yields exactly the slices of `Trunk`: none for a negative step, `xs[i:i+n]` cut at the end otherwise |
| `Chunking.TrunkFlatten` | Infradb_api.py:66-68 | for `n > 0`, concatenating the slices in order gives back the list exactly, and there are no slices exactly when the list is empty |
| `Chunking.TrunkSizes` | Infradb_api.py:67-68 | there are ceil(len/n) slices; each but the last has exactly `n` elements, and the last has between 1 and `n` |
| `Chunking.TrunkSliceAt` | Infradb_api.py:67-68 | slice `k` is `xs[k*n : min((k+1)*n, len)]` and starts inside the list, so slices are disjoint and in input order |
| `Templates.Account` | Infradb_api.py:9 | the account text is the user name, then one colon, then the password, nothing else |
| `Templates.AccountRoundTrip` | Infradb_api.py:9 | the account text is `username + ":" + password`; a user name without a colon and the password are recovered from it |
| `Templates.AccountColonCollision` | Infradb_api.py:9 | a colon in the user name lets two different credentials render to the same account text |
| `Templates.RenderItem` | Infradb_api.py:22-23 | a record literal opens with `{ xpath: "`, ends with `"}`, and carries the `xpath` value right after the opening text |
| `Templates.RenderItemRoundTrip` | Infradb_api.py:22-23 | every field is copied verbatim into its place in the record literal: when no value has a double quote, reading the literal back gives the six values |
| `Templates.RenderItemQuoteCollision` | Infradb_api.py:22-23 | values are not escaped, so a double quote in a field can make two different records render to the same literal |
| `Templates.UpsertQuery` | Infradb_api.py:11-20 | the query is the fixed text up to `objects:[`, the batch text unchanged, then the fixed text from `], on_conflict` to the final brace |
| `Templates.UpsertQueryRoundTrip` | Infradb_api.py:11-20 | the batch text sits verbatim between `objects:[` and `], on_conflict` and is recovered from the query |
| `InfradbApi.ItemOf` | Infradb_api.py:78-83 | a node renders exactly when `xpath`, `type`, `listindex` and `owner` are all present; the values are the node's, `attr` and `value` are `""` when absent; otherwise the error names the first absent required key, in lookup order |
| `InfradbApi.RenderNode` | Infradb_api.py:78-85 | a node renders exactly when the four required keys are present; a failure names one of them that is absent |
| `InfradbApi.RenderNodeRoundTrip` | Infradb_api.py:78-85 | a node with the required keys renders, and when none of the six rendered values holds a double quote, its literal reads back to its values with `""` for an absent `attr` or `value` |
| `InfradbApi.DataList` | Infradb_api.py:76-86 | an empty slice gives `""`; a failure is the KeyError of one of the four required keys |
| `InfradbApi.BuildDataList` | Infradb_api.py:76-86 | the prepending loop ends with the slice's literals concatenated last-first, or with the KeyError of the first node that fails |
| `InfradbApi.DataListOk` | Infradb_api.py:76-86 | a slice's `DataList` is built exactly when every node in it renders |
| `InfradbApi.DataListPrepend` | Infradb_api.py:76-86 | appending a rendering node to a rendering slice puts its literal in front of the slice's text; with `""` for the empty slice, `[r1..rk]` gives `render(rk) + ... + render(r1)` |
| `InfradbApi.DataListOfTwo` | Infradb_api.py:76-86 | two rendering records give `render(r2) + render(r1)`, the second record first |
| `InfradbApi.DataListFirstMissing` | Infradb_api.py:77-83 | a slice with a failing node gives the KeyError of the first failing node |
| `InfradbApi.UpsertFor` | Infradb_api.py:76-87 | a slice yields a query exactly when its `DataList` is built, the query `_upsert_item` renders (line 62) holds that text between `objects:[` and `], on_conflict`, and a failure is the slice's KeyError |
| `InfradbApi.Load` | Infradb_api.py:74-87 | the queries sent are those of the leading slices, one per slice in slice order; all slices are sent when nothing fails, and fewer when something does |
| `InfradbApi.LoadAllRender` | Infradb_api.py:74-87 | when every record renders, there are ceil(len/10000) upserts and no error; upsert `k` is the query for records `k*10000` up to `min((k+1)*10000, len)` |
| `InfradbApi.LoadFirstMissing` | Infradb_api.py:74-88 | when record `j` is the first to fail, exactly the j/10000 slices wholly before it are sent, each as its own upsert and in order, and then its KeyError escapes |
| `InfradbApi.Session.constructor` | Infradb_api.py:41-44 | the session holds the given username, password and url and has posted nothing |
| `InfradbApi.Session.PostGraphql` | Infradb_api.py:46-47 | one request is posted, to the session's url, carrying the account text `username:password` and the query unchanged |
| `InfradbApi.Session.UpsertItem` | Infradb_api.py:61-64 | one request is posted, carrying the upsert template around the given batch text |
| `InfradbApi.Session.UpsertNode` | Infradb_api.py:70-89 | a YAML error posts nothing and is logged, not raised; otherwise the posts are exactly the queries of `Load`, one per slice in slice order, and a KeyError is raised exactly when `Load` stops at one |

## Left out

- HTTP transport: `requests.post`, the headers dictionary, `raise_for_status` and its `HTTPError`. Network I/O is outside the model, so every post is taken to succeed.
- Response handling and `query_nodes`: it only passes its text to `_post_graphql` and parses the JSON reply.
- Base64 encoding of the account text: it is a library call. The model records the plain `username:password` text that is encoded.
- `open` and `yaml.load`: these are file I/O and a foreign parser. Their result enters as a `YamlDocument`. An empty document (`None`) and a top level that is not a list of mappings are not modelled. Recent PyYAML versions also refuse `yaml.load` without a `Loader` argument; that is not modelled either.
- Stringification of non-string YAML scalars, such as an integer `listindex` or a `null` value: all values are taken to be text already.
- Logging setup and all `LOGGER` calls: they have no behaviour to verify.
- `Chunking.TrunkSlices`: a zero step (`range` raises `ValueError`) is excluded by its precondition instead of being modelled as an error. The only caller passes 10000.
- Laziness of the `_trunk` generator: slices are computed before sending. Nothing observable changes, because the generator neither fails nor has effects.
- The commented-out `__main__` block: it is dead code.
