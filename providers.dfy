/**
 * The provider package's entry point: a dispatcher that routes
 * `"provider:model"` names to the UI builder of that provider, and the
 * process-wide registry of such names, assembled from whichever optional
 * provider modules can be imported.
 */
module Providers {
  import opened PyStr

  /** The separator between provider prefix and model name. */
  const Colon: char := ':'

  /**
   * A provider module's builder callable (the attribute `registry` of the
   * module). Builders are opaque; the model only tracks which module one
   * comes from.
   */
  datatype Builder = Builder(moduleName: string)

  /** Every way a call of the patched loader can end. */
  datatype Dispatch<B> =
    | Fallback(name: string, src: map<string, B>)     // original loader called with (name, src)
    | UnpackError(pieces: nat)                        // ValueError: the split did not give two values
    | NotFound(key: string, available: set<string>)   // ValueError: key is not registered
    | Invoke(key: string, builder: B, model: string)  // builder called with name=model

  /** The registry key of a model under a provider: `f"{provider}:{model}"`. */
  function ModelKey(provider: string, model: string): (key: string)
    ensures |key| == |provider| + 1 + |model|
    ensures key[..|provider|] == provider && key[|provider|] == Colon && key[|provider| + 1..] == model
  {
    provider + [Colon] + model
  }

  /** `model` is what follows the only colon of `name`. */
  predicate ModelPartOf(name: string, model: string)
  {
    && Colon !in model
    && |model| < |name|
    && name[..|name| - |model|] + model == name
    && name[|name| - |model| - 1] == Colon
  }

  /**
   * The patched loader. A name without a colon goes to the original loader
   * with the source untouched. Otherwise the name is split at every colon
   * and unpacked into provider and model, which only succeeds for exactly one
   * colon; the rebuilt key is looked up in `src`, and its builder is called
   * with the model part alone as `name`.
   */
  function CustomLoad<B>(name: string, src: map<string, B>): (r: Dispatch<B>)
    ensures r.Fallback? <==> Colon !in name
    ensures r.Fallback? ==> r.name == name && r.src == src
    ensures r.UnpackError? <==> Occurrences(name, Colon) >= 2
    ensures r.UnpackError? ==> r.pieces == Occurrences(name, Colon) + 1
    ensures r.NotFound? <==> Occurrences(name, Colon) == 1 && name !in src
    ensures r.NotFound? ==> r.key == name && r.available == src.Keys
    ensures r.Invoke? <==> Occurrences(name, Colon) == 1 && name in src
    ensures r.Invoke? ==> r.key == name && r.builder == src[name] && ModelPartOf(name, r.model)
  {
    if Colon !in name then Fallback(name, src)
    else
      var pieces := Split(name, Colon);
      if |pieces| != 2 then UnpackError(|pieces|)
      else
        var provider, model := pieces[0], pieces[1];
        var modelKey := ModelKey(provider, model);
        assert modelKey == name by {
          assert pieces[1..] == [model];
          assert Join(pieces[1..], Colon) == model;
        }
        if modelKey !in src then NotFound(modelKey, src.Keys)
        else Invoke(modelKey, src[modelKey], model)
  }

  /**
   * A name with no colon is handed to the original loader unchanged, together
   * with the very `src` the patched loader received; no lookup happens first.
   */
  lemma FallbackForwardsSource<B>(name: string, src: map<string, B>)
    requires Colon !in name
    ensures CustomLoad(name, src) == Fallback(name, src)
  {
  }

  /**
   * A name with two or more colons fails in the unpacking, before any lookup:
   * the outcome is the same whatever the source holds.
   */
  lemma UnpackFailsBeforeLookup<B>(name: string, src: map<string, B>, other: map<string, B>)
    requires Occurrences(name, Colon) >= 2
    ensures CustomLoad(name, src) == CustomLoad(name, other)
    ensures CustomLoad(name, src) == UnpackError(Occurrences(name, Colon) + 1)
  {
  }

  /**
   * Every name with exactly one colon is a rebuilt key: it is the key of its
   * own two colon-free parts.
   */
  lemma {:induction false} OneColonIsModelKey(name: string)
    requires Occurrences(name, Colon) == 1
    ensures var pieces := Split(name, Colon);
            |pieces| == 2 && ModelKey(pieces[0], pieces[1]) == name
            && Colon !in pieces[0] && Colon !in pieces[1]
  {
    var pieces := Split(name, Colon);
    assert pieces[1..] == [pieces[1]];
    assert Join(pieces[1..], Colon) == pieces[1];
  }

  /**
   * Dispatch of a key built from a colon-free provider and model: the lookup
   * decides between the error and a call of exactly the stored builder, with
   * the model part as its name.
   */
  lemma {:induction false} DispatchModelKey<B>(provider: string, model: string, src: map<string, B>)
    requires Colon !in provider && Colon !in model
    ensures var key := ModelKey(provider, model);
            CustomLoad(key, src)
            == if key in src then Invoke(key, src[key], model) else NotFound(key, src.Keys)
  {
    var key := ModelKey(provider, model);
    SplitJoin([provider, model], Colon);
    assert Join([provider, model], Colon) == key by {
      assert [provider, model][1..] == [model];
    }
  }

  // ---------------------------------------------------------------------
  // Registry construction
  // ---------------------------------------------------------------------

  /**
   * One optional provider block: `from .<moduleName> import registry`, and on
   * success one entry `"<prefix>:<model>"` for each listed model, all mapped
   * to that module's builder.
   */
  datatype ProviderBlock = ProviderBlock(moduleName: string, prefix: string, models: seq<string>)

  /** How construction of the registry ends. */
  datatype Construction =
    | Built(registry: map<string, Builder>)
    | NoProvidersInstalled   // ImportError: not one provider contributed an entry

  /** The keys a block's dict comprehension produces. */
  function BlockKeys(block: ProviderBlock): (keys: set<string>)
    ensures forall m <- block.models :: ModelKey(block.prefix, m) in keys
  {
    set m <- block.models :: ModelKey(block.prefix, m)
  }

  /** Every key of a block is its prefix, a colon and one of its listed models. */
  lemma BlockKeyParts(block: ProviderBlock, k: string)
    requires k in BlockKeys(block)
    ensures |k| > |block.prefix| && k[..|block.prefix|] == block.prefix && k[|block.prefix|] == Colon
    ensures k[|block.prefix| + 1..] in block.models
  {
    var m :| m in block.models && k == ModelKey(block.prefix, m);
  }

  /** The dict comprehension of one block: each of its keys mapped to its builder. */
  function BlockEntries(block: ProviderBlock): (entries: map<string, Builder>)
    ensures forall m <- block.models :: ModelKey(block.prefix, m) in entries
    ensures forall k <- entries :: k in BlockKeys(block) && entries[k] == Builder(block.moduleName)
  {
    map k <- BlockKeys(block) :: Builder(block.moduleName)
  }

  /**
   * With a colon-free prefix and colon-free models, the loader's split of a
   * block key gives back the prefix and a listed model, and the loader given
   * the block's dict routes the key to the block's builder with that model.
   */
  lemma BlockDispatch(block: ProviderBlock, k: string)
    requires Colon !in block.prefix && SeparatorFree(block.models, Colon)
    requires k in BlockEntries(block)
    ensures var pieces := Split(k, Colon);
            && |pieces| == 2 && pieces[0] == block.prefix && pieces[1] in block.models
            && CustomLoad(k, BlockEntries(block)) == Invoke(k, Builder(block.moduleName), pieces[1])
  {
    var m :| m in block.models && k == ModelKey(block.prefix, m);
    ModelKeyOneColon(block.prefix, m);
    DispatchModelKey(block.prefix, m, BlockEntries(block));
  }

  /**
   * The registry after running the blocks in order against the set of
   * importable modules: a block whose import fails contributes nothing, a
   * block whose import succeeds is merged in with `dict.update` (its entries
   * win over earlier ones).
   */
  function RegistryOf(blocks: seq<ProviderBlock>, installed: set<string>): (registry: map<string, Builder>)
    ensures forall k <- registry :: registry[k].moduleName in installed
    decreases |blocks|
  {
    if blocks == [] then map[]
    else
      var before := RegistryOf(blocks[..|blocks| - 1], installed);
      var last := blocks[|blocks| - 1];
      if last.moduleName in installed then before + BlockEntries(last) else before
  }

  /** The shape every table of blocks in the package has. */
  predicate WellFormed(blocks: seq<ProviderBlock>)
  {
    && (forall i :: 0 <= i < |blocks| ==> Colon !in blocks[i].prefix)
    && (forall i :: 0 <= i < |blocks| ==> SeparatorFree(blocks[i].models, Colon))
    && (forall i, j :: 0 <= i < j < |blocks| ==> blocks[i].prefix != blocks[j].prefix)
  }

  /**
   * Module-level construction: start from an empty dict, run every block in
   * order, and raise ImportError if the dict is still empty at the end.
   */
  method BuildRegistry(blocks: seq<ProviderBlock>, installed: set<string>) returns (result: Construction)
    ensures result.NoProvidersInstalled? <==>
              forall i :: 0 <= i < |blocks| && blocks[i].moduleName in installed ==> blocks[i].models == []
    ensures result.Built? ==> result.registry == RegistryOf(blocks, installed) && result.registry != map[]
  {
    var registry: map<string, Builder> := map[];
    var i := 0;
    while i < |blocks|
      invariant 0 <= i <= |blocks|
      invariant registry == RegistryOf(blocks[..i], installed)
    {
      var block := blocks[i];
      if block.moduleName in installed {
        registry := registry + BlockEntries(block);
      }
      assert blocks[..i + 1][..i] == blocks[..i];
      i := i + 1;
    }
    assert blocks[..i] == blocks;
    RegistryEmptyIff(blocks, installed);
    if registry == map[] {
      result := NoProvidersInstalled;
    } else {
      result := Built(registry);
    }
  }

  /**
   * The registry's keys are exactly the keys of the blocks whose import
   * succeeded.
   */
  lemma {:induction false} RegistryKeys(blocks: seq<ProviderBlock>, installed: set<string>, k: string)
    ensures k in RegistryOf(blocks, installed) <==>
              exists i :: 0 <= i < |blocks| && blocks[i].moduleName in installed && k in BlockKeys(blocks[i])
    decreases |blocks|
  {
    if blocks != [] {
      var init := blocks[..|blocks| - 1];
      RegistryKeys(init, installed, k);
      if k in RegistryOf(blocks, installed) {
        if k !in RegistryOf(init, installed) {
          var n := |blocks| - 1;
          assert blocks[n].moduleName in installed && k in BlockKeys(blocks[n]);
        } else {
          var i :| 0 <= i < |init| && init[i].moduleName in installed && k in BlockKeys(init[i]);
          assert blocks[i] == init[i];
        }
      } else {
        forall i | 0 <= i < |blocks| && blocks[i].moduleName in installed
          ensures k !in BlockKeys(blocks[i])
        {
          if i < |init| { assert init[i] == blocks[i]; }
        }
      }
    }
  }

  /** Construction ends empty exactly when no importable block lists a model. */
  lemma {:induction false} RegistryEmptyIff(blocks: seq<ProviderBlock>, installed: set<string>)
    ensures RegistryOf(blocks, installed) == map[] <==>
              forall i :: 0 <= i < |blocks| && blocks[i].moduleName in installed ==> blocks[i].models == []
  {
    var reg := RegistryOf(blocks, installed);
    if reg == map[] {
      forall i | 0 <= i < |blocks| && blocks[i].moduleName in installed ensures blocks[i].models == [] {
        if blocks[i].models != [] {
          var k := ModelKey(blocks[i].prefix, blocks[i].models[0]);
          assert k in BlockKeys(blocks[i]);
          RegistryKeys(blocks, installed, k);
        }
      }
    } else {
      var k :| k in reg;
      RegistryKeys(blocks, installed, k);
    }
  }

  /** A colon-free prefix is recovered from the key: different prefixes never share a key. */
  lemma ModelKeyInjective(p1: string, m1: string, p2: string, m2: string)
    requires Colon !in p1 && Colon !in p2
    requires ModelKey(p1, m1) == ModelKey(p2, m2)
    ensures p1 == p2 && m1 == m2
  {
    var k := ModelKey(p1, m1);
    assert |p1| == |p2| by {
      assert k[|p1|] == Colon && k[|p2|] == Colon;
    }
    assert p1 == k[..|p1|] == p2;
    assert m1 == k[|p1| + 1..] == m2;
  }

  /**
   * A key of a colon-free provider and model holds exactly one colon, and the
   * loader's split of it gives back the provider and the model.
   */
  lemma ModelKeyOneColon(provider: string, model: string)
    requires Colon !in provider && Colon !in model
    ensures Occurrences(ModelKey(provider, model), Colon) == 1
    ensures Split(ModelKey(provider, model), Colon) == [provider, model]
  {
    assert [provider, model][1..] == [model];
    SplitJoin([provider, model], Colon);
  }

  /**
   * In a well-formed table, a model listed by a block whose import succeeded
   * is registered under `"<prefix>:<model>"` with that block's builder, even
   * if other blocks list a model of the same name.
   */
  lemma {:induction false} RegistryLookup(blocks: seq<ProviderBlock>, installed: set<string>, i: nat, m: string)
    requires WellFormed(blocks)
    requires i < |blocks| && blocks[i].moduleName in installed && m in blocks[i].models
    ensures var k := ModelKey(blocks[i].prefix, m);
            k in RegistryOf(blocks, installed) && RegistryOf(blocks, installed)[k] == Builder(blocks[i].moduleName)
    decreases |blocks|
  {
    var k := ModelKey(blocks[i].prefix, m);
    var n := |blocks| - 1;
    var init := blocks[..n];
    assert k in BlockKeys(blocks[i]);
    if i < n {
      assert init[i] == blocks[i];
      assert WellFormed(init) by {
        forall j | 0 <= j < |init| ensures init[j] == blocks[j] { }
      }
      RegistryLookup(init, installed, i, m);
    }
  }

  /**
   * In a well-formed table, the loader given the registry routes the key of a
   * model listed by an imported block to that block's builder, called with
   * the model.
   */
  lemma RegistryDispatch(blocks: seq<ProviderBlock>, installed: set<string>, i: nat, m: string)
    requires WellFormed(blocks)
    requires i < |blocks| && blocks[i].moduleName in installed && m in blocks[i].models
    ensures var k := ModelKey(blocks[i].prefix, m);
            CustomLoad(k, RegistryOf(blocks, installed)) == Invoke(k, Builder(blocks[i].moduleName), m)
  {
    RegistryLookup(blocks, installed, i, m);
    DispatchModelKey(blocks[i].prefix, m, RegistryOf(blocks, installed));
  }

  /**
   * Every registry key holds exactly one colon and dispatches back to the
   * builder stored under it, called with the model part of the key.
   */
  lemma RegistryRoutesHome(blocks: seq<ProviderBlock>, installed: set<string>, k: string)
    requires WellFormed(blocks)
    requires k in RegistryOf(blocks, installed)
    ensures Occurrences(k, Colon) == 1
    ensures exists i, m :: 0 <= i < |blocks| && m in blocks[i].models && k == ModelKey(blocks[i].prefix, m)
                           && RegistryOf(blocks, installed)[k] == Builder(blocks[i].moduleName)
                           && CustomLoad(k, RegistryOf(blocks, installed)) == Invoke(k, Builder(blocks[i].moduleName), m)
  {
    var reg := RegistryOf(blocks, installed);
    RegistryKeys(blocks, installed, k);
    var i :| 0 <= i < |blocks| && blocks[i].moduleName in installed && k in BlockKeys(blocks[i]);
    var m :| m in blocks[i].models && k == ModelKey(blocks[i].prefix, m);
    assert Colon !in m;
    ModelKeyOneColon(blocks[i].prefix, m);
    RegistryLookup(blocks, installed, i, m);
    DispatchModelKey(blocks[i].prefix, m, reg);
  }

  /** Running blocks one group after another merges their registries, the later group winning. */
  lemma {:induction false} RegistryAppend(xs: seq<ProviderBlock>, ys: seq<ProviderBlock>, installed: set<string>)
    ensures RegistryOf(xs + ys, installed) == RegistryOf(xs, installed) + RegistryOf(ys, installed)
    decreases |ys|
  {
    if ys == [] {
      assert xs + ys == xs;
      assert RegistryOf(xs, installed) + map[] == RegistryOf(xs, installed);
    } else {
      var n := |ys| - 1;
      assert (xs + ys)[..|xs + ys| - 1] == xs + ys[..n];
      RegistryAppend(xs, ys[..n], installed);
    }
  }

  /**
   * A block whose import fails leaves the registry as if the block were not
   * in the table at all.
   */
  lemma FailedImportAddsNothing(blocks: seq<ProviderBlock>, installed: set<string>, i: nat)
    requires i < |blocks| && blocks[i].moduleName !in installed
    ensures RegistryOf(blocks, installed) == RegistryOf(blocks[..i] + blocks[i + 1..], installed)
  {
    var before, after := blocks[..i], blocks[i + 1..];
    assert blocks == (before + [blocks[i]]) + after;
    assert (before + [blocks[i]])[..i] == before;
    RegistryAppend(before + [blocks[i]], after, installed);
    RegistryAppend(before, after, installed);
  }

  /**
   * With distinct colon-free prefixes no two blocks produce the same key, so
   * the order in which two groups of blocks run does not change the registry.
   */
  lemma BlockOrderIrrelevant(xs: seq<ProviderBlock>, ys: seq<ProviderBlock>, installed: set<string>)
    requires WellFormed(xs + ys)
    ensures RegistryOf(xs + ys, installed) == RegistryOf(ys + xs, installed)
  {
    var a, b := RegistryOf(xs, installed), RegistryOf(ys, installed);
    forall k | k in a && k in b ensures false {
      RegistryKeys(xs, installed, k);
      RegistryKeys(ys, installed, k);
      var i :| 0 <= i < |xs| && xs[i].moduleName in installed && k in BlockKeys(xs[i]);
      var j :| 0 <= j < |ys| && ys[j].moduleName in installed && k in BlockKeys(ys[j]);
      var mi :| mi in xs[i].models && k == ModelKey(xs[i].prefix, mi);
      var mj :| mj in ys[j].models && k == ModelKey(ys[j].prefix, mj);
      assert (xs + ys)[i] == xs[i] && (xs + ys)[|xs| + j] == ys[j];
      ModelKeyInjective(xs[i].prefix, mi, ys[j].prefix, mj);
    }
    RegistryAppend(xs, ys, installed);
    RegistryAppend(ys, xs, installed);
    assert a + b == b + a;
  }
}
