/**
  The registry of industry recipes: every artifact of a resource is merged into
  one entry, and disagreement becomes ambiguity. The result depends on the set of
  artifacts alone, whatever their order and however often one of them occurs.
 */
module IndustryRegistry {
  import opened Prelude

  type Name = string
  type Params = string
  type Digest = string

  datatype Recipe = Recipe(content: string, digest: Digest)

  /** A variant keeps its recipe until two artifacts disagree on it. */
  datatype Variant = Known(recipe: Recipe) | Ambiguous(digests: set<Digest>)

  datatype Resource = Resource(
    name: Name, parameters: seq<string>, ambiguous: bool, variants: map<Params, Variant>)

  const MAX_VARIANTS := 128

  function Digests(v: Variant): set<Digest> {
    match v
    case Known(r) => {r.digest}
    case Ambiguous(ds) => ds
  }

  function MergeVariant(a: Variant, b: Variant): Variant {
    if a == b then a else Ambiguous(Digests(a) + Digests(b))
  }

  function MergeVariants(a: map<Params, Variant>, b: map<Params, Variant>): map<Params, Variant> {
    map k | k in a.Keys + b.Keys ::
      if k in a && k in b then MergeVariant(a[k], b[k]) else if k in a then a[k] else b[k]
  }

  function Merge(a: Resource, b: Resource): Resource {
    Resource(a.name, if a.parameters == b.parameters then a.parameters else [],
             a.ambiguous || b.ambiguous || a.parameters != b.parameters,
             MergeVariants(a.variants, b.variants))
  }

  // ---------------------------------------------------------------- what a set of artifacts says

  /** The variants that the artifacts have for these parameters. */
  ghost function At(s: set<Resource>, k: Params): set<Variant> {
    set x | x in s && k in x.variants :: x.variants[k]
  }

  ghost function AllDigests(vs: set<Variant>): set<Digest> {
    set v, d | v in vs && d in Digests(v) :: d
  }

  /** One recipe if all agree on it, otherwise all digests that occur. */
  ghost predicate JoinsVariant(vs: set<Variant>, v: Variant) {
    if exists r :: vs == {Known(r)} then vs == {v} else v == Ambiguous(AllDigests(vs))
  }

  ghost predicate SameParameters(s: set<Resource>) {
    forall x, y :: x in s && y in s ==> x.parameters == y.parameters
  }

  /** What the entry of a resource has to be, read off the set of its artifacts. */
  ghost predicate Joins(s: set<Resource>, r: Resource) {
    && s != {} && (forall x :: x in s ==> x.name == r.name)
    && (if SameParameters(s) then forall x :: x in s ==> r.parameters == x.parameters else r.parameters == [])
    && (r.ambiguous <==> !SameParameters(s) || exists x :: x in s && x.ambiguous)
    && (forall k {:trigger k in r.variants} :: k in r.variants <==> exists x :: x in s && k in x.variants)
    && (forall k {:trigger At(s, k)} :: k in r.variants ==> JoinsVariant(At(s, k), r.variants[k]))
  }

  lemma JoinsAreUnique(s: set<Resource>, a: Resource, b: Resource)
    requires Joins(s, a) && Joins(s, b)
    ensures a == b
  {
    var x :| x in s;
    assert a.name == x.name == b.name;
    forall k ensures (k in a.variants <==> k in b.variants) && (k in a.variants ==> a.variants[k] == b.variants[k]) {
      if k in a.variants {
        assert JoinsVariant(At(s, k), a.variants[k]) && JoinsVariant(At(s, k), b.variants[k]);
      }
    }
    assert a.variants == b.variants;
  }

  lemma DigestsOfOne(v: Variant)
    ensures AllDigests({v}) == Digests(v)
  {
    assert v in {v};
  }

  lemma OneArtifactJoins(r: Resource)
    ensures Joins({r}, r)
  {
    forall k | k in r.variants ensures JoinsVariant(At({r}, k), r.variants[k]) {
      assert r in {r} && At({r}, k) == {r.variants[k]};
      DigestsOfOne(r.variants[k]);
      assert r.variants[k].Known? ==> At({r}, k) == {Known(r.variants[k].recipe)};
      assert r.variants[k].Ambiguous? ==> forall x :: At({r}, k) != {Known(x)} by {
        if r.variants[k].Ambiguous? {
          forall x ensures At({r}, k) != {Known(x)} { assert r.variants[k] in At({r}, k); }
        }
      }
    }
    assert r in {r};
  }

  /** Merging one more variant into a join. */
  lemma MergeVariantJoins(vs: set<Variant>, v: Variant, w: Variant)
    requires vs != {} && JoinsVariant(vs, v)
    ensures JoinsVariant(vs + {w}, MergeVariant(v, w))
  {
    var more := vs + {w};
    assert AllDigests(more) == AllDigests(vs) + Digests(w);
    if r :| vs == {Known(r)} {
      assert v in vs && v == Known(r);
      DigestsOfOne(v);
      if v == w {
        assert more == {Known(r)};
      } else {
        assert v in more && w in more;
        assert forall x :: more != {Known(x)};
      }
    } else {
      assert v == Ambiguous(AllDigests(vs));
      var y :| y in vs;
      assert y in more && w in more;
      assert forall x :: more == {Known(x)} ==> vs == {Known(x)};
    }
  }

  lemma MergeParametersJoin(s: set<Resource>, a: Resource, b: Resource)
    requires Joins(s, a)
    ensures SameParameters(s + {b}) <==> SameParameters(s) && a.parameters == b.parameters
  {
    var x :| x in s;
    if SameParameters(s + {b}) {
      assert x in s + {b} && b in s + {b};
    }
    if SameParameters(s) && a.parameters == b.parameters {
      forall y, z | y in s + {b} && z in s + {b} ensures y.parameters == z.parameters {
        assert y in s ==> a.parameters == y.parameters;
        assert z in s ==> a.parameters == z.parameters;
      }
    }
  }

  /** A variant that the new artifact has too. */
  lemma SharedVariantJoins(s: set<Resource>, a: Resource, b: Resource, k: Params)
    requires Joins(s, a) && k in a.variants && k in b.variants
    ensures JoinsVariant(At(s + {b}, k), MergeVariant(a.variants[k], b.variants[k]))
  {
    assert JoinsVariant(At(s, k), a.variants[k]);
    var x :| x in s && k in x.variants;
    assert x.variants[k] in At(s, k);
    assert At(s + {b}, k) == At(s, k) + {b.variants[k]};
    MergeVariantJoins(At(s, k), a.variants[k], b.variants[k]);
  }

  /** A variant that only the new artifact has. */
  lemma NewVariantJoins(s: set<Resource>, a: Resource, b: Resource, k: Params)
    requires Joins(s, a) && k !in a.variants && k in b.variants
    ensures JoinsVariant(At(s + {b}, k), b.variants[k])
  {
    OneArtifactJoins(b);
    assert b in s + {b} && forall x :: x in s ==> k !in x.variants;
    assert At(s + {b}, k) == {b.variants[k]} && At({b}, k) == {b.variants[k]};
    assert JoinsVariant(At({b}, k), b.variants[k]);
  }

  lemma MergeVariantsJoin(s: set<Resource>, a: Resource, b: Resource, k: Params)
    requires Joins(s, a) && k in Merge(a, b).variants
    ensures JoinsVariant(At(s + {b}, k), Merge(a, b).variants[k])
  {
    if k !in a.variants {
      NewVariantJoins(s, a, b, k);
    } else if k in b.variants {
      SharedVariantJoins(s, a, b, k);
    } else {
      assert JoinsVariant(At(s, k), a.variants[k]);
      assert At(s + {b}, k) == At(s, k);
    }
  }

  /** Merging one more artifact into the entry of a set of artifacts. */
  lemma MergeJoins(s: set<Resource>, a: Resource, b: Resource)
    requires Joins(s, a) && b.name == a.name
    ensures Joins(s + {b}, Merge(a, b))
  {
    var more, m := s + {b}, Merge(a, b);
    MergeParametersJoin(s, a, b);
    assert b in more && forall x :: x in s ==> x in more;
    if SameParameters(more) {
      forall x | x in more ensures m.parameters == x.parameters { assert x in s ==> a.parameters == x.parameters; }
    }
    forall k ensures k in m.variants <==> exists x :: x in more && k in x.variants {
      assert k in a.variants <==> exists x :: x in s && k in x.variants;
    }
    forall k | k in m.variants ensures JoinsVariant(At(more, k), m.variants[k]) {
      MergeVariantsJoin(s, a, b, k);
    }
  }

  // ---------------------------------------------------------------- the laws of merging

  lemma MergeIsCommutative(a: Resource, b: Resource)
    requires a.name == b.name
    ensures Merge(a, b) == Merge(b, a)
  {
    OneArtifactJoins(a);
    OneArtifactJoins(b);
    MergeJoins({a}, a, b);
    MergeJoins({b}, b, a);
    assert {a} + {b} == {b} + {a};
    JoinsAreUnique({a} + {b}, Merge(a, b), Merge(b, a));
  }

  lemma ThreeJoin(a: Resource, b: Resource, c: Resource, s: set<Resource>)
    requires a.name == b.name == c.name && s == {a, b, c}
    ensures Joins(s, Merge(Merge(a, b), c))
  {
    OneArtifactJoins(a);
    MergeJoins({a}, a, b);
    MergeJoins({a} + {b}, Merge(a, b), c);
    assert {a} + {b} + {c} == s;
  }

  lemma MergeIsAssociative(a: Resource, b: Resource, c: Resource)
    requires a.name == b.name == c.name
    ensures Merge(Merge(a, b), c) == Merge(a, Merge(b, c))
  {
    MergeIsCommutative(a, Merge(b, c));
    ThreeJoin(a, b, c, {a, b, c});
    ThreeJoin(b, c, a, {a, b, c});
    JoinsAreUnique({a, b, c}, Merge(Merge(a, b), c), Merge(Merge(b, c), a));
  }

  lemma MergeIsIdempotent(a: Resource)
    ensures Merge(a, a) == a
  {
    OneArtifactJoins(a);
    MergeJoins({a}, a, a);
    assert {a} + {a} == {a};
    JoinsAreUnique({a}, Merge(a, a), a);
  }

  // ---------------------------------------------------------------- the registry

  type Registry = map<Name, Resource>

  datatype RegistryError = TooManyVariants(name: Name)

  ghost function Named(s: set<Resource>, n: Name): set<Resource> { set x | x in s && x.name == n }

  /** A registry of a set of artifacts. */
  ghost predicate Describes(s: set<Resource>, registry: Registry) {
    && (forall n {:trigger n in registry} :: n in registry <==> exists x :: x in s && x.name == n)
    && (forall n {:trigger registry[n]} :: n in registry ==> Joins(Named(s, n), registry[n]))
  }

  /** All parameter variants that occur for a resource. */
  ghost function VariantsOf(s: set<Resource>, n: Name): set<Params> {
    set x, k | x in s && x.name == n && k in x.variants :: k
  }

  ghost predicate WithinLimit(s: set<Resource>) { forall n :: |VariantsOf(s, n)| <= MAX_VARIANTS }

  lemma RegistryIsUnique(s: set<Resource>, a: Registry, b: Registry)
    requires Describes(s, a) && Describes(s, b)
    ensures a == b
  {
    forall n ensures (n in a <==> n in b) && (n in a ==> a[n] == b[n]) {
      if n in a {
        assert exists x :: x in s && x.name == n;
        assert n in b;
        JoinsAreUnique(Named(s, n), a[n], b[n]);
      }
    }
  }

  function Added(registry: Registry, r: Resource): Registry {
    registry[r.name := if r.name in registry then Merge(registry[r.name], r) else r]
  }

  lemma NamedGrows(s: set<Resource>, r: Resource, n: Name)
    ensures Named(s + {r}, n) == if n == r.name then Named(s, n) + {r} else Named(s, n)
  {
  }

  lemma OtherEntryStays(s: set<Resource>, registry: Registry, r: Resource, n: Name)
    requires n in registry && n != r.name && Joins(Named(s, n), registry[n])
    ensures Added(registry, r)[n] == registry[n] && Joins(Named(s + {r}, n), registry[n])
  {
    NamedGrows(s, r, n);
  }

  lemma EntryAfter(s: set<Resource>, registry: Registry, r: Resource, n: Name)
    requires Describes(s, registry) && n in Added(registry, r)
    ensures Joins(Named(s + {r}, n), Added(registry, r)[n])
  {
    if n != r.name {
      assert n in registry;
      OtherEntryStays(s, registry, r, n);
    } else if n in registry {
      NamedGrows(s, r, n);
      var x :| x in Named(s, n);
      assert registry[n].name == x.name;
      MergeJoins(Named(s, n), registry[n], r);
    } else {
      NamedGrows(s, r, n);
      assert Named(s, n) == {} && Named(s + {r}, n) == {r};
      OneArtifactJoins(r);
    }
  }

  lemma AddArtifact(s: set<Resource>, registry: Registry, r: Resource)
    requires Describes(s, registry)
    ensures Describes(s + {r}, Added(registry, r))
  {
    var more, after := s + {r}, Added(registry, r);
    assert r in more;
    forall n ensures n in after <==> exists x :: x in more && x.name == n {
      if n in registry {
        var x :| x in s && x.name == n;
        assert x in more;
      }
    }
    forall n | n in after ensures Joins(Named(more, n), after[n]) { EntryAfter(s, registry, r, n); }
  }

  lemma JoinHasVariants(s: set<Resource>, n: Name, r: Resource)
    requires Joins(Named(s, n), r)
    ensures r.variants.Keys == VariantsOf(s, n)
  {
    forall k ensures k in r.variants <==> k in VariantsOf(s, n) {
      if k in r.variants {
        var x :| x in Named(s, n) && k in x.variants;
      }
    }
  }

  lemma MoreVariants(s: set<Resource>, t: set<Resource>, n: Name)
    requires s <= t
    ensures |VariantsOf(s, n)| <= |VariantsOf(t, n)|
  {
    var a, b := VariantsOf(s, n), VariantsOf(t, n);
    assert a <= b && b == a + (b - a);
  }

  /** The first n artifacts. */
  ghost function Seen(artifacts: seq<Resource>, n: nat): set<Resource>
    requires n <= |artifacts|
  {
    Elements(artifacts[..n])
  }

  lemma SeenGrows(artifacts: seq<Resource>, n: nat)
    requires n < |artifacts|
    ensures Seen(artifacts, n + 1) == Seen(artifacts, n) + {artifacts[n]} && Seen(artifacts, n + 1) <= Elements(artifacts)
  {
    assert artifacts[..n + 1] == artifacts[..n] + [artifacts[n]];
    ElementsGrow(artifacts[..n], artifacts[n]);
  }

  lemma LimitExtends(s: set<Resource>, r: Resource, entry: Resource)
    requires WithinLimit(s) && Joins(Named(s + {r}, r.name), entry) && |entry.variants| <= MAX_VARIANTS
    ensures WithinLimit(s + {r})
  {
    forall n ensures |VariantsOf(s + {r}, n)| <= MAX_VARIANTS {
      if n == r.name {
        JoinHasVariants(s + {r}, n, entry);
        assert |entry.variants| == |entry.variants.Keys|;
      } else {
        assert VariantsOf(s + {r}, n) == VariantsOf(s, n);
      }
    }
  }

  lemma LimitBroken(s: set<Resource>, t: set<Resource>, n: Name, entry: Resource)
    requires s <= t && Joins(Named(s, n), entry) && |entry.variants| > MAX_VARIANTS
    ensures !WithinLimit(t)
  {
    JoinHasVariants(s, n, entry);
    assert |entry.variants| == |entry.variants.Keys|;
    MoreVariants(s, t, n);
  }

  /** Merge one artifact into the registry, or refuse it for its variants. */
  method MergeArtifact(registry: Registry, x: Resource, ghost before: set<Resource>, ghost all: set<Resource>)
    returns (after: Registry, ok: bool)
    requires Describes(before, registry) && WithinLimit(before) && before + {x} <= all
    ensures Describes(before + {x}, after)
    ensures if ok then WithinLimit(before + {x}) else !WithinLimit(all)
  {
    AddArtifact(before, registry, x);
    var entry := x;
    if x.name in registry { entry := Merge(registry[x.name], x); }
    after := registry[x.name := entry];
    ok := |entry.variants| <= MAX_VARIANTS;
    assert after[x.name] == entry;
    if ok {
      LimitExtends(before, x, entry);
    } else {
      LimitBroken(before + {x}, all, x.name, entry);
    }
  }

  /** Merge all artifacts, in whatever order they are found. */
  method BuildRegistry(artifacts: seq<Resource>) returns (r: Result<Registry, RegistryError>)
    ensures r.Ok? <==> WithinLimit(Elements(artifacts))
    ensures r.Ok? ==> Describes(Elements(artifacts), r.value)
  {
    var registry: Registry := map[];
    for i := 0 to |artifacts|
      invariant Describes(Seen(artifacts, i), registry) && WithinLimit(Seen(artifacts, i))
    {
      SeenGrows(artifacts, i);
      var ok: bool;
      registry, ok := MergeArtifact(registry, artifacts[i], Seen(artifacts, i), Elements(artifacts));
      if !ok { return Err(TooManyVariants(artifacts[i].name)); }
    }
    assert artifacts[..|artifacts|] == artifacts;
    r := Ok(registry);
  }

  /** Any order and repetition of the same artifacts gives the same registry. */
  lemma OrderDoesNotMatter(a: seq<Resource>, b: seq<Resource>, x: Registry, y: Registry)
    requires Elements(a) == Elements(b) && Describes(Elements(a), x) && Describes(Elements(b), y)
    ensures x == y
  {
    RegistryIsUnique(Elements(a), x, y);
  }
}
