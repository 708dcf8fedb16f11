/**
 * JSONPathUtils: applying a compiled path to a JSON value by walking its tokens
 * left to right, and the lazily created default provider.
 */
module PathUtils {
  import opened Common
  import opened JsonLibrary

  /** The IllegalArgumentExceptions read throws, and a filter that throws. */
  datatype ReadError = NullProvider | NullPath | NotAContainer | FilterFailed(message: string)

  /** The filter a token contributes: none for a null token or a token whose filter is null. */
  function TokenFilter(token: Option<PathToken>): seq<PathFilter> {
    match token
    case Some(PathToken(Some(f))) => [f]
    case _ => []
  }

  /** The filters that read applies, in token order. */
  function Filters(tokens: seq<Option<PathToken>>): seq<PathFilter> {
    if tokens == [] then [] else TokenFilter(tokens[0]) + Filters(tokens[1..])
  }

  /** Some filter of `fs` is an array filter. */
  predicate AnyArrayFilter(fs: seq<PathFilter>) {
    exists i :: 0 <= i < |fs| && fs[i].isArrayFilter
  }

  /**
   * The composition of `fs` applied to `v`, left to right: the k-th filter runs on
   * the value the first k produced, and is told whether any of those first k was an
   * array filter. The first filter that throws ends the composition.
   */
  ghost function Chain(fs: seq<PathFilter>, p: Provider, v: Json): Result<Json, string>
    decreases |fs|
  {
    if fs == [] then Success(v)
    else
      var init := fs[..|fs| - 1];
      match Chain(init, p, v)
      case Failure(e) => Failure(e)
      case Success(u) => fs[|fs| - 1].apply(p, u, AnyArrayFilter(init))
  }

  /** What read(jsonProvider, jsonPath, jsonValue) returns or throws. */
  ghost function ReadSpec(provider: Option<Provider>, path: Option<JsonPath>, value: Json,
                          tokenize: string -> seq<Option<PathToken>>): Result<Json, ReadError>
  {
    if provider.None? then Failure(NullProvider)
    else if path.None? then Failure(NullPath)
    else if !provider.value.isContainer(value) then Failure(NotAContainer)
    else
      match Chain(Filters(tokenize(path.value.path)), provider.value, value)
      case Failure(m) => Failure(FilterFailed(m))
      case Success(r) => Success(r)
  }

  lemma {:induction false} FiltersAppend(a: seq<Option<PathToken>>, b: seq<Option<PathToken>>)
    ensures Filters(a + b) == Filters(a) + Filters(b)
  {
    if a == [] {
      assert a + b == b;
    } else {
      assert (a + b)[1..] == a[1..] + b;
      FiltersAppend(a[1..], b);
    }
  }

  lemma ChainSnoc(fs: seq<PathFilter>, f: PathFilter, p: Provider, v: Json)
    ensures Chain(fs + [f], p, v) ==
      match Chain(fs, p, v)
      case Failure(e) => Failure(e)
      case Success(u) => f.apply(p, u, AnyArrayFilter(fs))
  {
    assert (fs + [f])[..|fs|] == fs;
  }

  /** Once a filter has thrown, appending more filters changes nothing. */
  lemma {:induction false} ChainFailurePersists(fs: seq<PathFilter>, more: seq<PathFilter>, p: Provider, v: Json)
    requires Chain(fs, p, v).Failure?
    ensures Chain(fs + more, p, v) == Chain(fs, p, v)
  {
    if more == [] {
      assert fs + more == fs;
    } else {
      var init := more[..|more| - 1];
      ChainFailurePersists(fs, init, p, v);
      assert fs + more == (fs + init) + [more[|more| - 1]];
      ChainSnoc(fs + init, more[|more| - 1], p, v);
    }
  }

  /** The filters of a token-list prefix one token longer. */
  lemma FiltersPrefixStep(tokens: seq<Option<PathToken>>, i: nat)
    requires i < |tokens|
    ensures Filters(tokens[..i + 1]) == Filters(tokens[..i]) + TokenFilter(tokens[i])
  {
    assert tokens[..i + 1] == tokens[..i] + [tokens[i]];
    FiltersAppend(tokens[..i], [tokens[i]]);
    assert Filters([tokens[i]]) == TokenFilter(tokens[i]) + Filters([]);
  }

  /** The filters of a token list split at i. */
  lemma FiltersSplit(tokens: seq<Option<PathToken>>, i: nat)
    requires i <= |tokens|
    ensures Filters(tokens) == Filters(tokens[..i]) + Filters(tokens[i..])
  {
    assert tokens == tokens[..i] + tokens[i..];
    FiltersAppend(tokens[..i], tokens[i..]);
  }

  lemma AnyArrayFilterSnoc(fs: seq<PathFilter>, f: PathFilter)
    ensures AnyArrayFilter(fs + [f]) == (AnyArrayFilter(fs) || f.isArrayFilter)
  {
    if AnyArrayFilter(fs) {
      var j :| 0 <= j < |fs| && fs[j].isArrayFilter;
      assert (fs + [f])[j] == fs[j];
    }
    if f.isArrayFilter {
      assert (fs + [f])[|fs|] == f;
    }
  }

  /**
   * Applying the filter of token i extends the composition by one step, and the
   * flag by that filter's array bit; a filter that throws ends the whole read.
   */
  lemma ApplyStep(tokens: seq<Option<PathToken>>, i: nat, f: PathFilter, p: Provider, value: Json, result: Json)
    requires i < |tokens| && tokens[i] == Some(PathToken(Some(f)))
    requires Chain(Filters(tokens[..i]), p, value) == Success(result)
    ensures Chain(Filters(tokens[..i + 1]), p, value) == f.apply(p, result, AnyArrayFilter(Filters(tokens[..i])))
    ensures AnyArrayFilter(Filters(tokens[..i + 1])) == (AnyArrayFilter(Filters(tokens[..i])) || f.isArrayFilter)
    ensures f.apply(p, result, AnyArrayFilter(Filters(tokens[..i]))).Failure? ==>
      Chain(Filters(tokens), p, value) == f.apply(p, result, AnyArrayFilter(Filters(tokens[..i])))
  {
    var done := Filters(tokens[..i]);
    FiltersPrefixStep(tokens, i);
    assert Filters(tokens[..i + 1]) == done + [f];
    ChainSnoc(done, f, p, value);
    AnyArrayFilterSnoc(done, f);
    if f.apply(p, result, AnyArrayFilter(done)).Failure? {
      FiltersSplit(tokens, i + 1);
      ChainFailurePersists(done + [f], Filters(tokens[i + 1..]), p, value);
    }
  }

  /**
   * JSONPathUtils.read with an explicit provider: null checks, the container test,
   * then one pass over the tokens threading `result` and the array-filter flag.
   */
  method Read(provider: Option<Provider>, path: Option<JsonPath>, value: Json,
              tokenize: string -> seq<Option<PathToken>>) returns (r: Result<Json, ReadError>)
    ensures r == ReadSpec(provider, path, value, tokenize)
  {
    if provider.None? {
      return Failure(NullProvider);
    } else if path.None? {
      return Failure(NullPath);
    }
    var p := provider.value;
    if !p.isContainer(value) {
      return Failure(NotAContainer);
    }
    var result := value;
    var arrayFilter := false;
    var tokens := tokenize(path.value.path);
    assert tokens[..0] == [];
    var i := 0;
    while i < |tokens|
      invariant 0 <= i <= |tokens|
      invariant Chain(Filters(tokens[..i]), p, value) == Success(result)
      invariant arrayFilter == AnyArrayFilter(Filters(tokens[..i]))
    {
      var token := tokens[i];
      if token.Some? && token.value.filter.Some? {
        var f := token.value.filter.value;
        ApplyStep(tokens, i, f, p, value, result);
        var next := f.apply(p, result, arrayFilter);
        if next.Failure? {
          return Failure(FilterFailed(next.error));
        }
        result := next.value;
        arrayFilter := arrayFilter || f.isArrayFilter;
        assert Chain(Filters(tokens[..i + 1]), p, value) == Success(result);
      } else {
        assert TokenFilter(token) == [];
        FiltersPrefixStep(tokens, i);
        assert Filters(tokens[..i + 1]) == Filters(tokens[..i]);
      }
      i := i + 1;
    }
    assert tokens[..i] == tokens;
    r := Success(result);
  }

  /** The provider createProvider hands out, given the cached one and a fresh factory product. */
  function DefaultProvider(cached: Option<Provider>, created: Provider): Provider {
    if cached.Some? then cached.value else created
  }

  /** The static state of JSONPathUtils: the lazily created default provider. */
  class ProviderCache {
    var defaultProvider: Option<Provider>

    constructor ()
      ensures defaultProvider == None
    {
      defaultProvider := None;
    }

    /**
     * createProvider: `created` stands for what JsonProviderFactory.createProvider()
     * would return; it is stored only when nothing is cached yet.
     */
    method CreateProvider(created: Provider) returns (p: Provider)
      modifies this
      ensures old(defaultProvider).Some? ==> p == old(defaultProvider).value
      ensures old(defaultProvider).None? ==> p == created
      ensures defaultProvider == Some(p)
    {
      if defaultProvider.None? {
        defaultProvider := Some(created);
      }
      p := defaultProvider.value;
    }

    /** read(jsonPath, jsonValue): read with the default provider. */
    method ReadWithDefault(path: Option<JsonPath>, value: Json, tokenize: string -> seq<Option<PathToken>>,
                           created: Provider) returns (r: Result<Json, ReadError>)
      modifies this
      ensures defaultProvider == Some(DefaultProvider(old(defaultProvider), created))
      ensures r == ReadSpec(Some(DefaultProvider(old(defaultProvider), created)), path, value, tokenize)
    {
      var p := CreateProvider(created);
      r := Read(Some(p), path, value, tokenize);
    }
  }

  /** A null provider is reported before the path or the value is looked at. */
  lemma ReadRejectsNullProvider(path: Option<JsonPath>, value: Json, tokenize: string -> seq<Option<PathToken>>)
    ensures ReadSpec(None, path, value, tokenize) == Failure(NullProvider)
  {
  }

  /** With a provider present, a null path is reported before the value is looked at. */
  lemma ReadRejectsNullPath(p: Provider, value: Json, tokenize: string -> seq<Option<PathToken>>)
    ensures ReadSpec(Some(p), None, value, tokenize) == Failure(NullPath)
  {
  }

  /** A root that is not a container is rejected whatever the tokens would do. */
  lemma ReadRejectsNonContainer(p: Provider, path: JsonPath, value: Json,
                                tokenize: string -> seq<Option<PathToken>>, other: string -> seq<Option<PathToken>>)
    requires !p.isContainer(value)
    ensures ReadSpec(Some(p), Some(path), value, tokenize) == Failure(NotAContainer)
    ensures ReadSpec(Some(p), Some(path), value, other) == ReadSpec(Some(p), Some(path), value, tokenize)
  {
  }

  /** Tokens that are null or carry a null filter contribute no filter. */
  lemma {:induction false} FiltersOfNullTokens(tokens: seq<Option<PathToken>>)
    requires forall i :: 0 <= i < |tokens| ==> tokens[i].None? || tokens[i].value.filter.None?
    ensures Filters(tokens) == []
  {
    if tokens != [] {
      FiltersOfNullTokens(tokens[1..]);
    }
  }

  /** A token list that is empty or holds only null tokens and null filters returns the root unchanged. */
  lemma ReadWithoutFiltersIsIdentity(p: Provider, path: JsonPath, value: Json, tokenize: string -> seq<Option<PathToken>>)
    requires p.isContainer(value)
    requires forall i :: 0 <= i < |tokenize(path.path)| ==>
      tokenize(path.path)[i].None? || tokenize(path.path)[i].value.filter.None?
    ensures ReadSpec(Some(p), Some(path), value, tokenize) == Success(value)
  {
    FiltersOfNullTokens(tokenize(path.path));
  }

  /** Inserting a null token, or a token whose filter is null, anywhere leaves the result unchanged. */
  lemma ReadSkipsNullTokens(p: Provider, value: Json, before: seq<Option<PathToken>>, skipped: Option<PathToken>,
                            after: seq<Option<PathToken>>)
    requires skipped.None? || skipped.value.filter.None?
    ensures Chain(Filters(before + [skipped] + after), p, value) == Chain(Filters(before + after), p, value)
  {
    FiltersAppend(before + [skipped], after);
    FiltersAppend(before, [skipped]);
    FiltersAppend(before, after);
    assert Filters([skipped]) == [];
    assert Filters(before + [skipped]) == Filters(before);
  }

  /**
   * The flag handed to the k-th applied filter is monotone in k: once an array
   * filter has been applied, every later filter is told so.
   */
  lemma ArrayFilterFlagMonotone(fs: seq<PathFilter>, j: nat, k: nat)
    requires j <= k <= |fs|
    requires AnyArrayFilter(fs[..j])
    ensures AnyArrayFilter(fs[..k])
  {
    var i :| 0 <= i < j && fs[..j][i].isArrayFilter;
    assert fs[..k][i] == fs[i];
  }
}
