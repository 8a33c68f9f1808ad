# ai-gradio provider dispatch, modelled in Dafny

The `ai_gradio.providers` package maps names of the form `"provider:model"`
to the UI builder of that provider. It has two parts, and this project models
both:

- **The patched loader** (`custom_load`). A name without a colon goes to the
  host library's original loader. A name with a colon is split at every
  colon and unpacked into `provider` and `model`. That unpacking fails with
  `ValueError` unless the name has exactly one colon. The key
  `f"{provider}:{model}"` is then looked up in `src`. A missing key raises
  `ValueError` listing the available keys. A present key has its builder
  called with `name=model`.
- **The registry**, built once at import time. The package runs one `try`
  block per optional provider module (21 of them). A block whose import
  succeeds merges `{"<prefix>:<m>": builder for m in models}` into the
  process-wide dict. A block whose import fails adds nothing. If the dict is
  still empty at the end, `ImportError` is raised.

Files:

- `py_str.dfy` (module `PyStr`): the Python `str` behaviour the loader relies
  on. This covers `sep in s`, `s.split(sep)` with an explicit one-character
  separator (it cuts at every occurrence and keeps empty pieces), and
  `sep.join` as the inverse of `split`.
- `providers.dfy` (module `Providers`): `CustomLoad` as a function to a
  `Dispatch` outcome (`Fallback`, `UnpackError`, `NotFound`, `Invoke`).
  `BuildRegistry` is a method whose loop updates the dict block by block; it
  is specified by the left fold `RegistryOf`. The file also holds the lemmas
  that tie the two parts together.
- `provider_table.dfy` (module `ProviderTable`): the package's 21 blocks in
  source order (`SourceBlocks`, lines 25-369), each with its module, prefix
  and representative models. It
  also holds `LoadProviders` (what importing the package does) and the
  results above applied to this table.

Builders are opaque: `Builder(moduleName)` stands for the `registry`
callable of that provider module. Whether a module can be imported is an
input: `installed`, the set of importable module names.

Unlike the other blocks, the LangChain block prints a message when its import
fails instead of passing silently (lines 351-352). Either way the registry is
left unchanged, and the model treats it exactly like the other blocks.

## Model

| member | source | states |
|---|---|---|
| `PyStr.Occurrences` | ai_gradio/providers/__init__.py:5 | the colon count is zero exactly when `':' in name` is false, and never exceeds the length |
| `PyStr.Split` | ai_gradio/providers/__init__.py:6 | `name.split(':')` gives one more piece than there are colons, no piece contains a colon, and joining the pieces with `':'` gives back the name |
| `PyStr.SplitJoin` | ai_gradio/providers/__init__.py:6-8 | splitting pieces that were joined with the separator returns exactly those pieces, when none contains the separator |
| `Providers.CustomLoad` | ai_gradio/providers/__init__.py:3-16 | fallback with the unchanged name iff there is no colon; unpack error iff there are two or more colons, with colons+1 values; not-found iff one colon and the name is not a key, reporting the name and every key; otherwise the stored builder is called with the part after the colon |
| `Providers.FallbackForwardsSource` | ai_gradio/providers/__init__.py:15-16 | a name without a colon is handed to the original loader unchanged, together with the same `src`, before any lookup |
| `Providers.UnpackFailsBeforeLookup` | ai_gradio/providers/__init__.py:6 | a name with two or more colons fails in the unpacking with the same outcome for every `src`, so no lookup happens |
| `Providers.OneColonIsModelKey` | ai_gradio/providers/__init__.py:6-8 | a name with exactly one colon splits into two colon-free parts whose rebuilt key is the name itself |
| `Providers.DispatchModelKey` | ai_gradio/providers/__init__.py:8-13 | for a key built from a colon-free provider and model, dispatch is `NotFound` when the key is absent, and otherwise calls exactly `src[key]` with the model part |
| `Providers.ModelKeyInjective` | ai_gradio/providers/__init__.py:27 | keys built from colon-free prefixes determine their prefix and model, so different prefixes never produce the same key |
| `Providers.ModelKeyOneColon` | ai_gradio/providers/__init__.py:6-8 | a key `f"{provider}:{model}"` (`ModelKey`) built from a colon-free provider and model has exactly one colon, and splitting it at `':'` gives back exactly `[provider, model]` |
| `Providers.BlockKeyParts` | ai_gradio/providers/__init__.py:27-52 | every key of a block's dict comprehension (`BlockKeys`, which holds `"<prefix>:<m>"` for every listed `m`) is its prefix, a colon and one of its listed models; the OpenAI block cited stands for all 21 comprehensions |
| `Providers.BlockDispatch` | ai_gradio/providers/__init__.py:27-52 | for a colon-free prefix and models, every key of a block's dict (`BlockEntries`) splits back into the prefix and a listed model, and the loader given that dict calls the block's builder with that model; the OpenAI block cited stands for all 21 comprehensions |
| `Providers.RegistryOf` | ai_gradio/providers/__init__.py:22-371 | the dict after the successive `registry.update` calls maps every key to the builder of a module whose import succeeded |
| `Providers.BuildRegistry` | ai_gradio/providers/__init__.py:22-393 | the loop leaves the fold of all blocks over the installed modules; construction fails with ImportError iff no importable block lists a model, and a built registry is non-empty |
| `Providers.RegistryKeys` | ai_gradio/providers/__init__.py:25-371 | a name is a registry key iff some block whose import succeeded produces it |
| `Providers.RegistryEmptyIff` | ai_gradio/providers/__init__.py:373-393 | the registry is empty iff every importable block has an empty model list |
| `Providers.RegistryLookup` | ai_gradio/providers/__init__.py:25-371 | with distinct colon-free prefixes, every model of an imported block is registered under `"<prefix>:<model>"` with that block's own builder: the entry its comprehension (`BlockEntries`) made is not overwritten by a later `update` |
| `Providers.RegistryDispatch` | ai_gradio/providers/__init__.py:3-13 | with distinct colon-free prefixes, the loader given the registry calls the builder of the imported block that lists a model, with that model, for the key `"<prefix>:<model>"` |
| `Providers.RegistryRoutesHome` | ai_gradio/providers/__init__.py:3-13 | every registry key has exactly one colon, comes from some block and model, and dispatches to `Invoke` of that block's builder with that model |
| `Providers.RegistryAppend` | ai_gradio/providers/__init__.py:25-371 | running two groups of blocks one after the other gives the merge of their registries, with the later group winning on a shared key (`dict.update`) |
| `Providers.FailedImportAddsNothing` | ai_gradio/providers/__init__.py:351-352 | a block whose import fails gives the same registry as a table without that block |
| `Providers.BlockOrderIrrelevant` | ai_gradio/providers/__init__.py:25-371 | with distinct colon-free prefixes, swapping two groups of blocks does not change the registry |
| `ProviderTable.DistinctPrefixes` | ai_gradio/providers/__init__.py:27-357 | the 21 blocks of the table use 21 different prefixes |
| `ProviderTable.SourceBlocksWellFormed` | ai_gradio/providers/__init__.py:25-369 | the table has distinct colon-free prefixes and colon-free model names, so every general result above applies to it |
| `ProviderTable.SourceRegistryEmptyIff` | ai_gradio/providers/__init__.py:373-393 | the package's registry is empty exactly when none of its 21 provider modules can be imported |
| `ProviderTable.LoadProviders` | ai_gradio/providers/__init__.py:22-393 | importing the package raises ImportError iff no provider module is installed; otherwise every registry key has one colon and dispatches to the builder stored under it |
| `ProviderTable.SharedModelNameRoutesByPrefix` | ai_gradio/providers/__init__.py:279-281 | `gpt-4o` is listed by both the OpenAI block (line 29) and the browser-use block (line 281), and `openai:gpt-4o` and `browser:gpt-4o` each reach their own provider's builder |

## Left out

- The monkey-patch `original_load = gr.load; gr.load = custom_load` (lines 18-20) changes a global of the host library. The original loader appears only as the `Fallback` outcome, which carries the `name` and `src` it is called with.
- The provider modules and Python's import machinery are not part of this model. An import's success is the input `installed`, and each builder is the opaque `Builder(moduleName)`.
- `**kwargs`, and what a builder returns (a UI component), are opaque and not modelled.
- The text of error messages, the `print` in the LangChain block and the install hints (lines 374-392) are output only. The model keeps the fact that an error is raised, plus its kind: `UnpackError` and `NotFound` are `ValueError`, and `NoProvidersInstalled` is `ImportError`.
- Providers.CustomLoad: the keys listed in the `NotFound` error are a set, so the dict's insertion order is not modelled.
- ProviderTable: each block lists only the first two models of its source list. The general results hold for any list of colon-free names under a colon-free prefix. Full lists are left out because the proofs about their string literals take too long to verify.
