/**
 * `ApiPresenter::PresenterCollection`: the pipeline that shapes a query
 * scope from the request's string parameters (filters, an explicit id list
 * or pagination, ordering), parses the requested includes, buckets the
 * related records, assembles the response hash, and keeps the registry of
 * presenters by class name.
 */
module PresenterCollection {
  import opened RubyCore
  import opened Values
  import opened Scopes
  import opened PresenterBase

  // ---------------------------------------------------------------------
  // Request parameters and options

  /** The request parameters the pipeline reads; each is nil or a string. */
  datatype Params = Params(
    only: Option<string>,
    perPage: Option<string>,
    page: Option<string>,
    order: Option<string>,
    filters: Option<string>,
    includes: Option<string>,
    fields: Option<string>)

  /** A numeric option, given as an Integer or as a String; `to_i` reads both. */
  datatype Num = IntNum(i: int) | StrNum(s: string)

  function NumToI(n: Num): int {
    match n
    case IntNum(i) => i
    case StrNum(s) => ToI(s)
  }

  /** The options of `presenting` the pipeline reads. */
  datatype Options = Options(params: Params, perPage: Option<Num>, maxPerPage: Option<Num>)

  function OrEmpty(s: Option<string>): string {
    if s.Some? then s.value else ""
  }

  // ---------------------------------------------------------------------
  // Segment lists: `s.split(sep).inject({}) { |memo, seg| name, rest = seg.split(":"); memo[name.to_sym] = ...; memo }`

  /** A segment that names something: splitting it at ':' leaves a first field. */
  predicate Named(seg: string) {
    Split(seg, ':') != []
  }

  predicate AllNamed(segs: seq<string>) {
    forall i :: 0 <= i < |segs| ==> Named(segs[i])
  }

  /**
   * The hash built from the segments as the source builds it: each segment's
   * first ':'-field is the key, `value` computes the value from all its
   * fields, a later segment replaces an earlier one with the same key, and a
   * segment with no field at all (empty, or only colons) raises, since its
   * name is nil and `nil.to_sym` is undefined.
   */
  function CollectAsWritten<V>(segs: seq<string>, value: seq<string> -> V): (r: Result<OHash<V>>)
    ensures r.Success? ==> UniqueKeys(r.value)
    decreases |segs|
  {
    if segs == [] then Success([])
    else
      match CollectAsWritten(segs[..|segs| - 1], value)
      case Failure(e) => Failure(e)
      case Success(acc) =>
        if !Named(segs[|segs| - 1]) then Failure(NoMethodError("undefined method `to_sym' for nil:NilClass"))
        else
          var parts := Split(segs[|segs| - 1], ':');
          PutLookup(acc, parts[0], value(parts), "");
          Success(Put(acc, parts[0], value(parts)))
  }

  /** The same hash with segments that name nothing skipped. */
  function Collect<V>(segs: seq<string>, value: seq<string> -> V): (r: OHash<V>)
    ensures UniqueKeys(r)
    decreases |segs|
  {
    if segs == [] then []
    else
      var acc := Collect(segs[..|segs| - 1], value);
      if !Named(segs[|segs| - 1]) then acc
      else
        var parts := Split(segs[|segs| - 1], ':');
        PutLookup(acc, parts[0], value(parts), "");
        Put(acc, parts[0], value(parts))
  }

  /** The value of the last segment named `n`, if any. */
  function LastNamed<V>(segs: seq<string>, value: seq<string> -> V, n: string): Option<V>
    decreases |segs|
  {
    if segs == [] then None
    else
      var parts := Split(segs[|segs| - 1], ':');
      if parts != [] && parts[0] == n then Some(value(parts))
      else LastNamed(segs[..|segs| - 1], value, n)
  }

  /** A key reads the value of the last segment with that name. */
  lemma {:induction false} CollectLookup<V>(segs: seq<string>, value: seq<string> -> V, n: string)
    ensures Lookup(Collect(segs, value), n) == LastNamed(segs, value, n)
    decreases |segs|
  {
    if segs != [] {
      CollectLookup(segs[..|segs| - 1], value, n);
      var parts := Split(segs[|segs| - 1], ':');
      if parts != [] {
        PutLookup(Collect(segs[..|segs| - 1], value), parts[0], value(parts), n);
      }
    }
  }

  /** The source's fold succeeds exactly when every segment names something. */
  lemma {:induction false} CollectAsWrittenSucceeds<V>(segs: seq<string>, value: seq<string> -> V)
    ensures CollectAsWritten(segs, value).Success? <==> AllNamed(segs)
    decreases |segs|
  {
    if segs != [] {
      CollectAsWrittenSucceeds(segs[..|segs| - 1], value);
      CollectAsWrittenLast(segs, value);
      AllNamedLast(segs);
    }
  }

  /** One more segment: the fold succeeds when the earlier ones did and the last one names something. */
  lemma CollectAsWrittenLast<V>(segs: seq<string>, value: seq<string> -> V)
    requires segs != []
    ensures CollectAsWritten(segs, value).Success? <==>
              CollectAsWritten(segs[..|segs| - 1], value).Success? && Named(segs[|segs| - 1])
  {
  }

  lemma AllNamedLast(segs: seq<string>)
    requires segs != []
    ensures AllNamed(segs) <==> AllNamed(segs[..|segs| - 1]) && Named(segs[|segs| - 1])
  {
    assert forall i :: 0 <= i < |segs| - 1 ==> segs[..|segs| - 1][i] == segs[i];
  }

  /** When the source's fold succeeds, it agrees with `Collect`. */
  lemma {:induction false} CollectAsWrittenAgrees<V>(segs: seq<string>, value: seq<string> -> V)
    ensures CollectAsWritten(segs, value).Success? ==> CollectAsWritten(segs, value).value == Collect(segs, value)
    decreases |segs|
  {
    if segs != [] {
      CollectAsWrittenAgrees(segs[..|segs| - 1], value);
    }
  }

  function FilterValue(parts: seq<string>): Option<string> {
    Nth(parts, 1)
  }

  function IncludeFields(parts: seq<string>): seq<string> {
    Split(OrEmpty(Nth(parts, 1)), ',')
  }

  /** `requested_filters` as the source computes it: `name:value` pairs separated by ','. */
  function RequestedFiltersAsWritten(filters: Option<string>): Result<OHash<Option<string>>> {
    CollectAsWritten(Split(OrEmpty(filters), ','), FilterValue)
  }

  /** `requested_filters` with empty entries skipped. */
  function RequestedFilters(filters: Option<string>): (r: OHash<Option<string>>)
    ensures UniqueKeys(r)
  {
    Collect(Split(OrEmpty(filters), ','), FilterValue)
  }

  /** The include list as `filter_includes` parses it: `name:f1,f2` segments separated by ';'. */
  function IncludesAsWritten(includeParam: Option<string>): Result<OHash<seq<string>>> {
    CollectAsWritten(Split(OrEmpty(includeParam), ';'), IncludeFields)
  }

  /** The include list with empty segments skipped. */
  function Includes(includeParam: Option<string>): (r: OHash<seq<string>>)
    ensures UniqueKeys(r)
  {
    Collect(Split(OrEmpty(includeParam), ';'), IncludeFields)
  }

  lemma SplitLeadingEmpty(rest: string, sep: char)
    requires |rest| > 0 && sep !in rest
    ensures Split([sep] + rest, sep) == ["", rest]
  {
    FieldsOfSeparated("", sep, rest);
    FieldsOfPlain(rest, sep);
    assert "" + [sep] + rest == [sep] + rest;
  }

  lemma SplitEmpty(sep: char)
    ensures Split("", sep) == []
  {
  }

  lemma SplitPlain(s: string, sep: char)
    requires |s| > 0 && sep !in s
    ensures Split(s, sep) == [s]
  {
    FieldsOfPlain(s, sep);
  }

  /** An include named without a colon asks for no fields, and a filter named without one has no value. */
  lemma BareNameHasNoFields(name: string)
    requires |name| > 0 && ':' !in name
    ensures IncludeFields(Split(name, ':')) == []
    ensures FilterValue(Split(name, ':')) == None
  {
    SplitPlain(name, ':');
    SplitEmpty(',');
  }

  /** `filters=,a` (an empty entry before `a`) makes the source raise, where `a` alone is meant. */
  lemma EmptyFilterEntryRaises()
    ensures RequestedFiltersAsWritten(Some(",a")).Failure?
    ensures RequestedFilters(Some(",a")) == [("a", None)]
  {
    SplitLeadingEmpty("a", ',');
    SplitEmpty(':');
    SplitPlain("a", ':');
    var segs := Split(",a", ',');
    assert segs[..1] == [""];
    assert segs[..1][..0] == [];
  }

  /** `include=;a` (an empty segment before `a`) makes the source raise, where `a` alone is meant. */
  lemma EmptyIncludeSegmentRaises()
    ensures IncludesAsWritten(Some(";a")).Failure?
    ensures Includes(Some(";a")) == [("a", [])]
  {
    SplitLeadingEmpty("a", ';');
    SplitEmpty(':');
    SplitEmpty(',');
    SplitPlain("a", ':');
    var segs := Split(";a", ';');
    assert segs[..1] == [""];
    assert segs[..1][..0] == [];
  }

  // ---------------------------------------------------------------------
  // paginate

  /** `(a || b).to_i` for numeric options. */
  function NumOr(a: Option<Num>, b: int): int {
    if a.Some? then NumToI(a.value) else b
  }

  /**
   * The per-page value `paginate` settles on. The value asked for (from
   * the params, else the options, else the default) is capped at the
   * maximum (the option, else the default maximum); a value below 1
   * falls back to the option or the default per-page.
   */
  function PerPage(o: Options, defaultPerPage: int, defaultMaxPerPage: int): (r: int)
    ensures var max := NumOr(o.maxPerPage, defaultMaxPerPage);
            var asked := if o.params.perPage.Some? then ToI(o.params.perPage.value) else NumOr(o.perPage, defaultPerPage);
            (1 <= asked <= max ==> r == asked) &&
            (1 <= max < asked ==> r == max) &&
            (asked < 1 || max < 1 ==> r == NumOr(o.perPage, defaultPerPage))
  {
    var max := NumOr(o.maxPerPage, defaultMaxPerPage);
    var asked := if o.params.perPage.Some? then ToI(o.params.perPage.value) else NumOr(o.perPage, defaultPerPage);
    var capped := if asked > max then max else asked;
    if capped < 1 then NumOr(o.perPage, defaultPerPage) else capped
  }

  /** The page `paginate` settles on: the parameter's integer, at least 1. */
  function PageNumber(p: Params): (r: int)
    ensures r >= 1
    ensures p.page.Some? && ToI(p.page.value) >= 1 ==> r == ToI(p.page.value)
    ensures p.page.None? || ToI(p.page.value) < 1 ==> r == 1
  {
    var page := if p.page.Some? then ToI(p.page.value) else 1;
    if page < 1 then 1 else page
  }

  /**
   * With the collection's default settings (20 per page, at most 200) and
   * no per-page options, the page size is always between 1 and 200,
   * whatever the request asks for.
   */
  lemma DefaultPageSizeBounds(o: Options)
    requires o.perPage.None? && o.maxPerPage.None?
    ensures 1 <= PerPage(o, 20, 200) <= 200
  {
  }

  /** `paginate(scope, options)`: the page of the scope, and the count of the whole scope. */
  function Paginate(scope: Scope, o: Options, defaultPerPage: int, defaultMaxPerPage: int): (r: (Scope, nat))
    ensures var perPage := PerPage(o, defaultPerPage, defaultMaxPerPage);
            r.0.rows == scope.rows &&
            r.0.clauses == scope.clauses + [LimitTo(perPage), OffsetBy(perPage * (PageNumber(o.params) - 1)), Distinct]
    ensures r.1 == DistinctIdCount(scope)
  {
    var perPage := PerPage(o, defaultPerPage, defaultMaxPerPage);
    var page := PageNumber(o.params);
    (WithDistinct(WithOffset(WithLimit(scope, perPage), perPage * (page - 1))), DistinctIdCount(scope))
  }

  /** The offset `paginate` records for a page. */
  function OffsetOf(c: seq<Clause>): int
    requires |c| >= 2 && c[|c| - 2].OffsetBy?
  {
    c[|c| - 2].n
  }

  lemma MulMonotone(a: int, b: int, c: int)
    requires a >= 1 && b < c
    ensures a * b + a <= a * c
  {
    assert a * c - a * b == a * (c - b);
    assert a * (c - b) >= a * 1 by {
      assert c - b >= 1;
    }
  }

  /**
   * Two requests that differ only in the page see windows that do not
   * overlap: a later page's offset is at least one whole page past an
   * earlier page's, and page 1 starts at offset 0.
   */
  lemma {:induction false} PagesDoNotOverlap(scope: Scope, o1: Options, o2: Options, defaultPerPage: int, defaultMaxPerPage: int)
    requires o1.perPage == o2.perPage && o1.maxPerPage == o2.maxPerPage && o1.params.perPage == o2.params.perPage
    requires PerPage(o1, defaultPerPage, defaultMaxPerPage) >= 1
    requires PageNumber(o1.params) < PageNumber(o2.params)
    ensures var c1 := Paginate(scope, o1, defaultPerPage, defaultMaxPerPage).0.clauses;
            var c2 := Paginate(scope, o2, defaultPerPage, defaultMaxPerPage).0.clauses;
            OffsetOf(c1) + PerPage(o1, defaultPerPage, defaultMaxPerPage) <= OffsetOf(c2)
    ensures PageNumber(o1.params) == 1 ==> OffsetOf(Paginate(scope, o1, defaultPerPage, defaultMaxPerPage).0.clauses) == 0
  {
    PerPageIgnoresPage(o1, o2, defaultPerPage, defaultMaxPerPage);
    PaginateOffset(scope, o1, defaultPerPage, defaultMaxPerPage);
    PaginateOffset(scope, o2, defaultPerPage, defaultMaxPerPage);
    MulMonotone(PerPage(o1, defaultPerPage, defaultMaxPerPage), PageNumber(o1.params) - 1, PageNumber(o2.params) - 1);
  }

  lemma PerPageIgnoresPage(o1: Options, o2: Options, defaultPerPage: int, defaultMaxPerPage: int)
    requires o1.perPage == o2.perPage && o1.maxPerPage == o2.maxPerPage && o1.params.perPage == o2.params.perPage
    ensures PerPage(o1, defaultPerPage, defaultMaxPerPage) == PerPage(o2, defaultPerPage, defaultMaxPerPage)
  {
  }

  lemma PaginateOffset(scope: Scope, o: Options, defaultPerPage: int, defaultMaxPerPage: int)
    ensures var c := Paginate(scope, o, defaultPerPage, defaultMaxPerPage).0.clauses;
            |c| >= 2 && c[|c| - 2].OffsetBy? &&
            OffsetOf(c) == PerPage(o, defaultPerPage, defaultMaxPerPage) * (PageNumber(o.params) - 1)
  {
  }

  // ---------------------------------------------------------------------
  // handle_only

  /** `id =~ /\A\d+\Z/`: one or more ASCII digits, where `\Z` also admits one final newline. */
  predicate IsIdToken(t: string) {
    (|t| > 0 && AllDigits(t)) || (|t| > 1 && t[|t| - 1] == '\n' && AllDigits(t[..|t| - 1]))
  }

  function SelectIds(tokens: seq<string>): (r: seq<string>)
    ensures forall t :: t in r <==> t in tokens && IsIdToken(t)
  {
    if tokens == [] then []
    else (if IsIdToken(tokens[0]) then [tokens[0]] else []) + SelectIds(tokens[1..])
  }

  /** The ids `handle_only` keeps: the id tokens of the comma list, each once, in first-occurrence order. */
  function OnlyIds(only: Option<string>): (r: seq<string>)
    ensures NoDuplicates(r)
    ensures forall t :: t in r <==> t in Split(OrEmpty(only), ',') && IsIdToken(t)
  {
    var tokens := Split(OrEmpty(only), ',');
    var ids := SelectIds(tokens);
    assert forall t :: t in Uniq(ids) <==> t in ids;
    Uniq(ids)
  }

  /** Selecting the id tokens keeps the relative order of two of them. */
  lemma {:induction false} SelectIdsKeepsPair(tokens: seq<string>, x: string, y: string)
    requires x in SelectIds(tokens) && y in SelectIds(tokens)
    requires FirstIndex(SelectIds(tokens), x) < FirstIndex(SelectIds(tokens), y)
    ensures FirstIndex(tokens, x) < FirstIndex(tokens, y)
  {
    var t, rest := tokens[0], tokens[1..];
    var ids, tail := SelectIds(tokens), SelectIds(rest);
    if IsIdToken(t) {
      assert ids == [t] + tail;
      assert ids[0] == t && ids[1..] == tail;
      FirstIndexTail(tokens, y);
      if x != t {
        FirstIndexTail(tokens, x);
        FirstIndexTail(ids, x);
        FirstIndexTail(ids, y);
        SelectIdsKeepsPair(rest, x, y);
      }
    } else {
      assert ids == tail;
      assert x != t && y != t;
      FirstIndexTail(tokens, x);
      FirstIndexTail(tokens, y);
      SelectIdsKeepsPair(rest, x, y);
    }
  }

  /** `handle_only` lists the ids in the order in which they first appear in the parameter. */
  lemma OnlyIdsFirstOccurrence(only: Option<string>)
    ensures var tokens := Split(OrEmpty(only), ',');
            var r := OnlyIds(only);
            forall i, j :: 0 <= i < j < |r| ==> FirstIndex(tokens, r[i]) < FirstIndex(tokens, r[j])
  {
    var tokens := Split(OrEmpty(only), ',');
    var ids := SelectIds(tokens);
    var r := Uniq(ids);
    UniqFirstOccurrence(ids);
    assert OnlyIds(only) == r;
    forall i, j | 0 <= i < j < |r| ensures FirstIndex(tokens, r[i]) < FirstIndex(tokens, r[j]) {
      SelectIdsKeepsPair(tokens, r[i], r[j]);
    }
  }

  /** `handle_only(scope, only)`: the rows with a listed id, and how many they are. */
  function HandleOnly(scope: Scope, only: Option<string>): (r: (Scope, nat))
    ensures forall m :: m in r.0.rows <==> m in scope.rows && IdMatches(m, OnlyIds(only))
    ensures r.0.clauses == scope.clauses + [WhereIdIn(OnlyIds(only))]
    ensures r.1 == |r.0.rows|
  {
    var s := WhereIds(scope, OnlyIds(only));
    (s, Count(s))
  }

  /**
   * The branch of `presenting` between filtering and ordering: the listed
   * rows when `only` is present, a page otherwise, with the count each reports.
   */
  function Window(scope: Scope, o: Options, defaultPerPage: int, defaultMaxPerPage: int): (r: (Scope, nat))
    ensures Present(o.params.only) ==>
              r.0 == WhereIds(scope, OnlyIds(o.params.only)) && r.1 == |r.0.rows|
    ensures !Present(o.params.only) ==>
              var perPage := PerPage(o, defaultPerPage, defaultMaxPerPage);
              r.0.rows == scope.rows &&
              r.0.clauses == scope.clauses + [LimitTo(perPage), OffsetBy(perPage * (PageNumber(o.params) - 1)), Distinct] &&
              r.1 == DistinctIdCount(scope)
  {
    if Present(o.params.only) then HandleOnly(scope, o.params.only)
    else Paginate(scope, o, defaultPerPage, defaultMaxPerPage)
  }

  // ---------------------------------------------------------------------
  // run_filters

  /** An `ApiFilterLambda`: the filter's block and its `filter_default`. */
  datatype ApiFilter = ApiFilter(apply: (Scope, Value) -> Scope, filterDefault: Value)

  /** `make_api_filter(options, &block)`: without a block the lambda cannot be built. */
  function MakeApiFilter(decl: FilterDecl): (r: Result<ApiFilter>)
    ensures r.Success? <==> decl.block.Some?
    ensures r.Failure? ==> r.error == ArgumentError("tried to create Proc object without a block")
    ensures r.Success? ==> r.value.filterDefault == decl.default && r.value.apply == decl.block.value
  {
    if decl.block.Some? then Success(ApiFilter(decl.block.value, decl.default))
    else Failure(ArgumentError("tried to create Proc object without a block"))
  }

  /** `filter_default?`: a default other than nil (false counts). */
  predicate FilterDefaultGiven(f: ApiFilter) {
    f.filterDefault != Nil
  }

  /**
   * The argument a declared filter is applied with: the requested value
   * when there is one, else a non-nil default; none otherwise.
   */
  function FilterArgument(name: string, default: Value, requested: OHash<Option<string>>): Option<Value> {
    var asked := Lookup(requested, name);
    if asked.Some? && asked.value.Some? then Some(Str(asked.value.value))
    else if default != Nil then Some(default)
    else None
  }

  /** One iteration of `run_filters` over the declared filter `name`. */
  function FilterStep(scope: Scope, name: string, decl: FilterDecl, requested: OHash<Option<string>>): (r: Result<Scope>)
    ensures r.Success? <==> decl.block.Some?
    ensures r.Failure? ==> r.error == ArgumentError("tried to create Proc object without a block")
    ensures r.Success? && FilterArgument(name, decl.default, requested).Some? ==>
              r.value == decl.block.value(scope, FilterArgument(name, decl.default, requested).value)
    ensures r.Success? && FilterArgument(name, decl.default, requested).None? ==> r.value == scope
  {
    match MakeApiFilter(decl)
    case Failure(e) => Failure(e)
    case Success(f) =>
      var asked := Lookup(requested, name);
      if asked.Some? && asked.value.Some? then Success(f.apply(scope, Str(asked.value.value)))
      else if FilterDefaultGiven(f) then Success(f.apply(scope, f.filterDefault))
      else Success(scope)
  }

  /** The scope after `run_filters` has visited the declared filters `done`, in order. */
  function FiltersFold(done: OHash<FilterDecl>, scope: Scope, requested: OHash<Option<string>>): Result<Scope>
    decreases |done|
  {
    if done == [] then Success(scope)
    else
      match FiltersFold(done[..|done| - 1], scope, requested)
      case Failure(e) => Failure(e)
      case Success(s) => FilterStep(s, done[|done| - 1].0, done[|done| - 1].1, requested)
  }

  /** A filter that cannot be built stops the fold for good. */
  lemma {:induction false} FiltersFoldFailureSticks(table: OHash<FilterDecl>, i: nat, scope: Scope,
                                                    requested: OHash<Option<string>>)
    requires i <= |table| && FiltersFold(table[..i], scope, requested).Failure?
    ensures FiltersFold(table, scope, requested) == FiltersFold(table[..i], scope, requested)
    decreases |table| - i
  {
    if i < |table| {
      assert table[..i + 1][..i] == table[..i];
      FiltersFoldFailureSticks(table, i + 1, scope, requested);
    } else {
      assert table[..i] == table;
    }
  }

  /** `run_filters` raises exactly when some declared filter has no block. */
  lemma {:induction false} FiltersFailIffBlockless(table: OHash<FilterDecl>, scope: Scope, requested: OHash<Option<string>>)
    ensures FiltersFold(table, scope, requested).Failure? <==> exists i :: 0 <= i < |table| && table[i].1.block.None?
    ensures FiltersFold(table, scope, requested).Failure? ==>
              FiltersFold(table, scope, requested).error == ArgumentError("tried to create Proc object without a block")
    decreases |table|
  {
    if table != [] {
      var init := table[..|table| - 1];
      FiltersFailIffBlockless(init, scope, requested);
      assert forall i :: 0 <= i < |init| ==> init[i] == table[i];
      if exists i :: 0 <= i < |table| && table[i].1.block.None? {
        var i :| 0 <= i < |table| && table[i].1.block.None?;
        if i < |init| {
          assert init[i].1.block.None?;
        }
      }
    }
  }

  /** Requested names that no declared filter has change nothing. */
  lemma {:induction false} FiltersIgnoreUndeclared(table: OHash<FilterDecl>, scope: Scope,
                                                   req1: OHash<Option<string>>, req2: OHash<Option<string>>)
    requires forall i :: 0 <= i < |table| ==> Lookup(req1, table[i].0) == Lookup(req2, table[i].0)
    ensures FiltersFold(table, scope, req1) == FiltersFold(table, scope, req2)
    decreases |table|
  {
    if table != [] {
      var init := table[..|table| - 1];
      assert forall i :: 0 <= i < |init| ==> init[i] == table[i];
      FiltersIgnoreUndeclared(init, scope, req1, req2);
    }
  }

  lemma FiltersFoldStep(table: OHash<FilterDecl>, i: nat, scope: Scope, requested: OHash<Option<string>>)
    requires i < |table|
    ensures FiltersFold(table[..i + 1], scope, requested) ==
              match FiltersFold(table[..i], scope, requested)
              case Failure(e) => Failure(e)
              case Success(s) => FilterStep(s, table[i].0, table[i].1, requested)
  {
    assert table[..i + 1][..i] == table[..i];
  }

  /** `run_filters(scope, options)`: each declared filter in declaration order. */
  method RunFilters(scope: Scope, filters: Option<OHash<FilterDecl>>, filtersParam: Option<string>)
    returns (r: Result<Scope>)
    ensures r == FiltersFold(if filters.Some? then filters.value else [], scope, RequestedFilters(filtersParam))
  {
    var allowed := if filters.Some? then filters.value else [];
    var requested := RequestedFilters(filtersParam);
    var cur := scope;
    var i := 0;
    while i < |allowed|
      invariant 0 <= i <= |allowed|
      invariant FiltersFold(allowed[..i], scope, requested) == Success(cur)
    {
      var (name, decl) := allowed[i];
      FiltersFoldStep(allowed, i, scope, requested);
      var made := MakeApiFilter(decl);
      if made.Failure? {
        FiltersFoldFailureSticks(allowed, i + 1, scope, requested);
        return Failure(made.error);
      }
      var f := made.value;
      var asked := Lookup(requested, name);
      if asked.Some? && asked.value.Some? {
        cur := f.apply(cur, Str(asked.value.value));
      } else if FilterDefaultGiven(f) {
        cur := f.apply(cur, f.filterDefault);
      }
      i := i + 1;
    }
    assert allowed[..i] == allowed;
    r := Success(cur);
  }

  // ---------------------------------------------------------------------
  // handle_ordering

  /** The direction passed on: `"desc"` only for exactly `"desc"`, `"asc"` otherwise. */
  function Direction(d: Option<string>): string {
    if d == Some("desc") then "desc" else "asc"
  }

  /**
   * `make_api_order(field = nil, &block)`: the block itself, else an order
   * by `field` in the given direction; with neither it raises.
   */
  function MakeApiOrder(field: Option<string>, block: Option<(Scope, string) -> Scope>): (r: Result<(Scope, string) -> Scope>)
    ensures r.Failure? <==> field.None? && block.None?
    ensures r.Failure? ==> r.error == RuntimeError("you must provide either a field name or a block to make_api_order")
    ensures block.Some? ==> r == Success(block.value)
    ensures block.None? && field.Some? ==>
              (r.Success? && forall s, d :: r.value(s, d) == WithOrder(s, field.value + " " + Direction(Some(d))))
  {
    if block.Some? then Success(block.value)
    else if field.Some? then Success((s: Scope, d: string) => WithOrder(s, field.value + " " + Direction(Some(d))))
    else Failure(RuntimeError("you must provide either a field name or a block to make_api_order"))
  }

  /** A declared sort order applied through the lambda `make_api_order` builds for it. */
  function ApplyOrder(o: SortOrder, scope: Scope, direction: string): Scope {
    match o
    case SortBlock(f) => MakeApiOrder(None, Some(f)).value(scope, direction)
    case SortColumn(sql) => MakeApiOrder(Some(sql), None).value(scope, direction)
  }

  /** A name with a non-nil declared sort order. */
  predicate Declared(table: OHash<Option<SortOrder>>, name: string) {
    Lookup(table, name).Some? && Lookup(table, name).value.Some?
  }

  function DeclaredOrder(table: OHash<Option<SortOrder>>, name: string): SortOrder
    requires Declared(table, name)
  {
    Lookup(table, name).value.value
  }

  /** The built-in default order `"updated_at:desc"` names the column `updated_at`, descending. */
  lemma BuiltInDefaultOrder()
    ensures Split("updated_at:desc", ':') == ["updated_at", "desc"]
  {
    var column, direction := "updated_at", "desc";
    assert ':' !in column && ':' !in direction;
    SplitPair(column, ':', direction);
    assert "updated_at:desc" == column + [':'] + direction;
  }

  /** The column and direction a request asks for, when its column has a declared sort order. */
  predicate UsesRequested(table: OHash<Option<SortOrder>>, order: Option<string>) {
    var requested := Split(OrEmpty(order), ':');
    Present(Nth(requested, 0)) && Declared(table, Nth(requested, 0).value)
  }

  function TableOf(sortOrders: Option<OHash<Option<SortOrder>>>): OHash<Option<SortOrder>> {
    if sortOrders.Some? then sortOrders.value else []
  }

  /**
   * `handle_ordering(scope, options)`. A present requested column with a
   * declared sort order is used with the requested direction; otherwise the
   * default column (from the presenter's `default_sort_order`, else
   * `"updated_at:desc"`) with the default direction; with no declared order
   * for it the scope is unchanged. The only error is a default sort order
   * that names no column, which is read only when the request's column is
   * not used.
   */
  function HandleOrdering(scope: Scope, defaultSortOrder: Option<string>,
                          sortOrders: Option<OHash<Option<SortOrder>>>, order: Option<string>): (r: Result<Scope>)
    ensures UsesRequested(TableOf(sortOrders), order) ==>
              var requested := Split(OrEmpty(order), ':');
              r == Success(ApplyOrder(DeclaredOrder(TableOf(sortOrders), Nth(requested, 0).value), scope, Direction(Nth(requested, 1))))
    ensures r.Failure? <==>
              !UsesRequested(TableOf(sortOrders), order) && defaultSortOrder.Some? && Split(defaultSortOrder.value, ':') == []
    ensures r.Failure? ==> r.error == NoMethodError("undefined method `to_sym' for nil:NilClass")
    ensures !UsesRequested(TableOf(sortOrders), order) && defaultSortOrder.None? ==>
              r == if Declared(TableOf(sortOrders), "updated_at")
                   then Success(ApplyOrder(DeclaredOrder(TableOf(sortOrders), "updated_at"), scope, "desc"))
                   else Success(scope)
    ensures !UsesRequested(TableOf(sortOrders), order) && defaultSortOrder.Some? && Split(defaultSortOrder.value, ':') != [] ==>
              var d := Split(defaultSortOrder.value, ':');
              r == if Declared(TableOf(sortOrders), d[0])
                   then Success(ApplyOrder(DeclaredOrder(TableOf(sortOrders), d[0]), scope, Direction(Nth(d, 1))))
                   else Success(scope)
  {
    BuiltInDefaultOrder();
    var defaults := Split(if defaultSortOrder.Some? then defaultSortOrder.value else "updated_at:desc", ':');
    var requested := Split(OrEmpty(order), ':');
    var table := TableOf(sortOrders);
    var column := Nth(requested, 0);
    if Present(column) && Declared(table, column.value) then
      Success(ApplyOrder(DeclaredOrder(table, column.value), scope, Direction(Nth(requested, 1))))
    else if Nth(defaults, 0).None? then
      Failure(NoMethodError("undefined method `to_sym' for nil:NilClass"))
    else if Declared(table, Nth(defaults, 0).value) then
      Success(ApplyOrder(DeclaredOrder(table, Nth(defaults, 0).value), scope, Direction(Nth(defaults, 1))))
    else
      Success(scope)
  }

  /**
   * A requested order whose column has no declared sort order is ignored
   * entirely, its direction included: the result is that of no request.
   */
  lemma UndeclaredRequestIgnored(scope: Scope, defaultSortOrder: Option<string>,
                                 sortOrders: Option<OHash<Option<SortOrder>>>, order: Option<string>)
    requires !UsesRequested(TableOf(sortOrders), order)
    ensures HandleOrdering(scope, defaultSortOrder, sortOrders, order) == HandleOrdering(scope, defaultSortOrder, sortOrders, None)
  {
    SplitEmpty(':');
    assert !UsesRequested(TableOf(sortOrders), None);
  }

  /**
   * With no default sort order declared and no order requested, a presenter
   * that declares `updated_at` as a column orders by it descending.
   */
  lemma DefaultOrderingIsUpdatedAtDesc(scope: Scope, table: OHash<Option<SortOrder>>, sql: string)
    requires Lookup(table, "updated_at") == Some(Some(SortColumn(sql)))
    ensures HandleOrdering(scope, None, Some(table), None) ==
              Success(Scope(scope.rows, scope.clauses + [OrderBy(sql + " desc")]))
  {
    SplitEmpty(':');
    assert !UsesRequested(table, None);
    assert Declared(table, "updated_at") && DeclaredOrder(table, "updated_at") == SortColumn(sql);
    var f := MakeApiOrder(Some(sql), None).value;
    assert f(scope, "desc") == WithOrder(scope, sql + " " + Direction(Some("desc")));
    assert Direction(Some("desc")) == "desc";
    assert sql + " " + "desc" == sql + " desc";
    assert ApplyOrder(SortColumn(sql), scope, "desc") == WithOrder(scope, sql + " desc");
    assert TableOf(Some(table)) == table;
  }

  // ---------------------------------------------------------------------
  // filter_includes

  /** What `filter_includes` records for an include: its fields, association and json name. */
  datatype IncludeData = IncludeData(fields: seq<string>, association: string, jsonName: string)

  /**
   * The entry for the requested key `k` allowed as `a`: the association
   * name, else the method name (nil for both raises); the json name, else `k`.
   */
  function IncludeFor(k: string, fields: seq<string>, a: AssociationField): (r: Result<IncludeData>)
    ensures r.Failure? <==> a.associationName.None? && MethodName(a.accessor).None?
    ensures r.Success? ==> r.value.fields == fields
    ensures r.Success? ==>
              r.value.association == (if a.associationName.Some? then a.associationName.value else MethodName(a.accessor).value)
    ensures r.Success? ==> r.value.jsonName == if a.jsonName.Some? then a.jsonName.value else k
  {
    var association := if a.associationName.Some? then a.associationName else MethodName(a.accessor);
    if association.None? then Failure(NoMethodError("undefined method `to_sym' for nil:NilClass"))
    else Success(IncludeData(fields, association.value, if a.jsonName.Some? then a.jsonName.value else k))
  }

  /** The includes hash after visiting the requested pairs `done`, in order. */
  function IncludesFold(done: OHash<seq<string>>, allowed: OHash<AssociationField>): (r: Result<OHash<IncludeData>>)
    ensures r.Success? ==> UniqueKeys(r.value)
    decreases |done|
  {
    if done == [] then Success([])
    else
      match IncludesFold(done[..|done| - 1], allowed)
      case Failure(e) => Failure(e)
      case Success(acc) =>
        var (k, fields) := done[|done| - 1];
        if !HasKey(allowed, k) then Success(acc)
        else
          match IncludeFor(k, fields, Lookup(allowed, k).value)
          case Failure(e) => Failure(e)
          case Success(d) =>
            PutLookup(acc, k, d, "");
            Success(Put(acc, k, d))
  }

  /** A requested pair that `filter_includes` keeps and can describe. */
  predicate Describable(p: (string, seq<string>), allowed: OHash<AssociationField>) {
    !HasKey(allowed, p.0) || IncludeFor(p.0, p.1, Lookup(allowed, p.0).value).Success?
  }

  /**
   * `filter_includes` keeps exactly the requested keys that are allowed,
   * each with its requested fields; it raises only for an allowed key whose
   * association has neither an association name nor a method name.
   */
  lemma {:induction false} IncludesFoldLookup(done: OHash<seq<string>>, allowed: OHash<AssociationField>, k: string)
    requires UniqueKeys(done)
    ensures IncludesFold(done, allowed).Success? <==> AllDescribable(done, allowed)
    ensures IncludesFold(done, allowed).Success? ==>
              Lookup(IncludesFold(done, allowed).value, k) ==
                if HasKey(done, k) && HasKey(allowed, k)
                then Some(IncludeFor(k, Lookup(done, k).value, Lookup(allowed, k).value).value)
                else None
    decreases |done|
  {
    if done != [] {
      var init, x := done[..|done| - 1], done[|done| - 1];
      AllDescribableLast(done, allowed);
      UniqueKeysOfInit(done);
      IncludesFoldLookup(init, allowed, k);
      LookupLast(done, k);
      var r := IncludesFold(init, allowed);
      if r.Success? && HasKey(allowed, x.0) {
        var d := IncludeFor(x.0, x.1, Lookup(allowed, x.0).value);
        if d.Success? {
          PutLookup(r.value, x.0, d.value, k);
        }
      }
    }
  }

  predicate AllDescribable(done: OHash<seq<string>>, allowed: OHash<AssociationField>) {
    forall i :: 0 <= i < |done| ==> Describable(done[i], allowed)
  }

  lemma AllDescribableLast(done: OHash<seq<string>>, allowed: OHash<AssociationField>)
    requires done != []
    ensures AllDescribable(done, allowed) <==>
              AllDescribable(done[..|done| - 1], allowed) && Describable(done[|done| - 1], allowed)
  {
    assert forall i :: 0 <= i < |done| - 1 ==> done[..|done| - 1][i] == done[i];
  }

  /** `filter_includes(user_includes, allowed_includes)`. */
  function FilterIncludes(userIncludes: Option<string>, allowed: OHash<AssociationField>): (r: Result<OHash<IncludeData>>)
    ensures r.Success? ==> UniqueKeys(r.value)
    ensures r.Success? ==> forall k :: HasKey(r.value, k) <==> HasKey(Includes(userIncludes), k) && HasKey(allowed, k)
  {
    var r := IncludesFold(Includes(userIncludes), allowed);
    if r.Success? then
      assert forall k :: HasKey(r.value, k) <==> HasKey(Includes(userIncludes), k) && HasKey(allowed, k) by {
        forall k ensures HasKey(r.value, k) <==> HasKey(Includes(userIncludes), k) && HasKey(allowed, k) {
          IncludesFoldLookup(Includes(userIncludes), allowed, k);
        }
      }
      r
    else r
  }

  // ---------------------------------------------------------------------
  // gather_associations

  /** A value `gather_associations` keeps: truthy, and not an empty array. */
  predicate Kept(v: Value) {
    Truthy(v) && (!v.List? || |v.items| > 0)
  }

  /** `record_hash[json_name] ||= []; record_hash[json_name] << value` for one include of one model. */
  function IncludeStep(acc: OHash<seq<Value>>, m: Model, inc: (string, IncludeData)): OHash<seq<Value>> {
    var v := Send(m, inc.1.association);
    if Kept(v) then
      var bucket := Lookup(acc, inc.1.jsonName);
      Put(acc, inc.1.jsonName, (if bucket.Some? then bucket.value else []) + [v])
    else acc
  }

  /** The record hash after visiting the includes `incs` of one model, in order. */
  function ModelFold(acc: OHash<seq<Value>>, m: Model, incs: OHash<IncludeData>): OHash<seq<Value>>
    decreases |incs|
  {
    if incs == [] then acc
    else IncludeStep(ModelFold(acc, m, incs[..|incs| - 1]), m, incs[|incs| - 1])
  }

  /** The record hash after visiting `models`, starting from `{ name => [] }`. */
  function GatherFold(models: seq<Model>, name: string, incs: OHash<IncludeData>): OHash<seq<Value>>
    decreases |models|
  {
    if models == [] then [(name, [])]
    else ModelFold(GatherFold(models[..|models| - 1], name, incs), models[|models| - 1], incs)
  }

  /** Reference: the values one model contributes to the bucket `j`, in include order. */
  function Yields(m: Model, incs: OHash<IncludeData>, j: string): seq<Value>
    decreases |incs|
  {
    if incs == [] then []
    else
      var last := incs[|incs| - 1];
      var v := Send(m, last.1.association);
      Yields(m, incs[..|incs| - 1], j) + (if last.1.jsonName == j && Kept(v) then [v] else [])
  }

  /** Reference: the values all models contribute to the bucket `j`, model by model. */
  function AllYields(models: seq<Model>, incs: OHash<IncludeData>, j: string): seq<Value>
    decreases |models|
  {
    if models == [] then []
    else AllYields(models[..|models| - 1], incs, j) + Yields(models[|models| - 1], incs, j)
  }

  /** A bucket after `ys` were pushed onto it: created by the first push. */
  function Appended(o: Option<seq<Value>>, ys: seq<Value>): Option<seq<Value>> {
    if o.Some? then Some(o.value + ys) else if ys == [] then None else Some(ys)
  }

  lemma AppendedTwice(o: Option<seq<Value>>, a: seq<Value>, b: seq<Value>)
    ensures Appended(Appended(o, a), b) == Appended(o, a + b)
  {
    if o.Some? {
      assert o.value + a + b == o.value + (a + b);
    } else if a == [] {
      assert a + b == b;
    } else {
      assert |a + b| > 0;
    }
  }

  lemma IncludeStepLookup(acc: OHash<seq<Value>>, m: Model, inc: (string, IncludeData), j: string)
    requires UniqueKeys(acc)
    ensures UniqueKeys(IncludeStep(acc, m, inc))
    ensures var v := Send(m, inc.1.association);
            Lookup(IncludeStep(acc, m, inc), j) ==
              Appended(Lookup(acc, j), if inc.1.jsonName == j && Kept(v) then [v] else [])
  {
    var v := Send(m, inc.1.association);
    if Kept(v) {
      var bucket := Lookup(acc, inc.1.jsonName);
      var empty: seq<Value> := [];
      assert empty + [v] == [v];
      PutLookup(acc, inc.1.jsonName, (if bucket.Some? then bucket.value else []) + [v], j);
      if Lookup(acc, j).Some? {
        assert Lookup(acc, j).value + [] == Lookup(acc, j).value;
      }
    } else {
      if Lookup(acc, j).Some? {
        assert Lookup(acc, j).value + [] == Lookup(acc, j).value;
      }
    }
  }

  lemma {:induction false} ModelFoldLookup(acc: OHash<seq<Value>>, m: Model, incs: OHash<IncludeData>, j: string)
    requires UniqueKeys(acc)
    ensures UniqueKeys(ModelFold(acc, m, incs))
    ensures Lookup(ModelFold(acc, m, incs), j) == Appended(Lookup(acc, j), Yields(m, incs, j))
    decreases |incs|
  {
    if incs == [] {
      if Lookup(acc, j).Some? {
        assert Lookup(acc, j).value + [] == Lookup(acc, j).value;
      }
    } else {
      var init, last := incs[..|incs| - 1], incs[|incs| - 1];
      ModelFoldLookup(acc, m, init, j);
      IncludeStepLookup(ModelFold(acc, m, init), m, last, j);
      var v := Send(m, last.1.association);
      AppendedTwice(Lookup(acc, j), Yields(m, init, j), if last.1.jsonName == j && Kept(v) then [v] else []);
    }
  }

  /**
   * Each bucket of the record hash holds exactly the kept values of the
   * includes with its json name, model by model and include by include;
   * the bucket for `name` always exists, any other exists only once
   * something was pushed onto it.
   */
  lemma {:induction false} GatherLookup(models: seq<Model>, name: string, incs: OHash<IncludeData>, j: string)
    ensures UniqueKeys(GatherFold(models, name, incs))
    ensures Lookup(GatherFold(models, name, incs), j) ==
              Appended(if j == name then Some([]) else None, AllYields(models, incs, j))
    decreases |models|
  {
    if models == [] {
      var empty: seq<Value> := [];
      assert Lookup([(name, empty)], j) == if j == name then Some(empty) else None;
      assert empty + AllYields(models, incs, j) == empty;
    } else {
      var init, last := models[..|models| - 1], models[|models| - 1];
      GatherLookup(init, name, incs, j);
      ModelFoldLookup(GatherFold(init, name, incs), last, incs, j);
      AppendedTwice(if j == name then Some([]) else None, AllYields(init, incs, j), Yields(last, incs, j));
    }
  }

  /** `gather_associations(models, name, includes_hash)`. */
  method GatherAssociations(models: seq<Model>, name: string, includes: OHash<IncludeData>)
    returns (primary: seq<Model>, recordHash: OHash<seq<Value>>)
    ensures primary == models
    ensures recordHash == GatherFold(models, name, includes)
  {
    recordHash := [(name, [])];
    primary := [];
    var i := 0;
    while i < |models|
      invariant 0 <= i <= |models|
      invariant primary == models[..i]
      invariant recordHash == GatherFold(models[..i], name, includes)
    {
      var model := models[i];
      primary := primary + [model];
      var j := 0;
      while j < |includes|
        invariant 0 <= j <= |includes|
        invariant recordHash == ModelFold(GatherFold(models[..i], name, includes), model, includes[..j])
      {
        var (_, data) := includes[j];
        var v := Send(model, data.association);
        if Kept(v) {
          var bucket := Lookup(recordHash, data.jsonName);
          recordHash := Put(recordHash, data.jsonName, (if bucket.Some? then bucket.value else []) + [v]);
        }
        assert includes[..j + 1][..j] == includes[..j];
        j := j + 1;
      }
      assert includes[..j] == includes;
      assert models[..i + 1][..i] == models[..i];
      i := i + 1;
    }
    assert models[..i] == models;
  }

  // ---------------------------------------------------------------------
  // The struct `presenting` assembles

  /** `Array#flatten`: nested arrays spliced in, at every depth. */
  function Flatten(vs: seq<Value>): (r: seq<Value>)
    ensures forall i :: 0 <= i < |r| ==> !r[i].List?
    ensures vs == [] ==> r == []
    decreases vs
  {
    if vs == [] then []
    else
      assert vs[0] in vs;
      (if vs[0].List? then Flatten(vs[0].items) else [vs[0]]) + Flatten(vs[1..])
  }

  /** Flattening distributes over concatenation. */
  lemma {:induction false} FlattenAppend(a: seq<Value>, b: seq<Value>)
    ensures Flatten(a + b) == Flatten(a) + Flatten(b)
    decreases |a|
  {
    if a != [] {
      assert (a + b)[0] == a[0] && (a + b)[1..] == a[1..] + b;
      FlattenAppend(a[1..], b);
    } else {
      assert a + b == b;
    }
  }

  /** A single element: an array is spliced in flattened, anything else stays as it is. */
  lemma FlattenSingle(v: Value)
    ensures !v.List? ==> Flatten([v]) == [v]
    ensures v.List? ==> Flatten([v]) == Flatten(v.items)
  {
    assert [v][1..] == [];
  }

  /** `value.class.to_s` for the values a bucket can hold. */
  function ClassName(v: Value): string {
    match v
    case Nil => "NilClass"
    case Bool(b) => if b then "TrueClass" else "FalseClass"
    case Int(_) => "Integer"
    case Str(_) => "String"
    case Date(_, _, _) => "Date"
    case Time(_, _) => "Time"
    case List(_) => "Array"
    case Hash(_) => "Hash"
    case Record(m) => m.klass
  }

  function RecordsOf(vs: seq<Value>): (r: seq<Model>)
    requires forall i :: 0 <= i < |vs| ==> vs[i].Record?
    ensures |r| == |vs| && forall i :: 0 <= i < |r| ==> vs[i] == Record(r[i])
  {
    seq(|vs|, i requires 0 <= i < |vs| => vs[i].model)
  }

  /** `includes_hash.to_a.find { |k, v| v[:json_name] == json_name }`, reduced to the include data. */
  function FirstIncludeFor(includes: OHash<IncludeData>, json: string): (r: Option<IncludeData>)
    ensures r.Some? <==> exists i :: 0 <= i < |includes| && includes[i].1.jsonName == json
    ensures r.Some? ==> r.value.jsonName == json
  {
    if includes == [] then None
    else if includes[0].1.jsonName == json then Some(includes[0].1)
    else
      var r := FirstIncludeFor(includes[1..], json);
      assert forall i :: 1 <= i < |includes| ==> includes[i] == includes[1..][i - 1];
      r
  }

  /** `find` stops at the first include with the json name: every earlier one has another name. */
  lemma {:induction false} FirstIncludeForIsFirst(includes: OHash<IncludeData>, json: string, i: nat)
    requires i < |includes| && includes[i].1.jsonName == json
    requires forall j :: 0 <= j < i ==> includes[j].1.jsonName != json
    ensures FirstIncludeFor(includes, json) == Some(includes[i].1)
  {
    if i > 0 {
      assert includes[0].1.jsonName != json;
      FirstIncludeForIsFirst(includes[1..], json, i - 1);
    }
  }

  /** Something was pushed onto bucket `j` only by an include with that json name. */
  lemma {:induction false} YieldsNamed(models: seq<Model>, incs: OHash<IncludeData>, j: string)
    requires AllYields(models, incs, j) != []
    ensures exists i :: 0 <= i < |incs| && incs[i].1.jsonName == j
    decreases |models|
  {
    var init, last := models[..|models| - 1], models[|models| - 1];
    if AllYields(init, incs, j) != [] {
      YieldsNamed(init, incs, j);
    } else {
      YieldsOfModelNamed(last, incs, j);
    }
  }

  lemma {:induction false} YieldsOfModelNamed(m: Model, incs: OHash<IncludeData>, j: string)
    requires Yields(m, incs, j) != []
    ensures exists i :: 0 <= i < |incs| && incs[i].1.jsonName == j
    decreases |incs|
  {
    var init, last := incs[..|incs| - 1], incs[|incs| - 1];
    if last.1.jsonName != j {
      YieldsOfModelNamed(m, init, j);
      var i :| 0 <= i < |init| && init[i].1.jsonName == j;
      assert incs[i] == init[i];
    }
  }

  /**
   * The `find` in the assembly never comes back empty for a bucket that
   * `gather_associations` filled: a nonempty bucket has an include with its
   * json name.
   */
  lemma GatheredBucketsHaveIncludes(models: seq<Model>, name: string, incs: OHash<IncludeData>, j: string)
    requires Lookup(GatherFold(models, name, incs), j).Some?
    requires Flatten(Lookup(GatherFold(models, name, incs), j).value) != []
    ensures FirstIncludeFor(incs, j).Some?
  {
    GatherLookup(models, name, incs, j);
    YieldsNamed(models, incs, j);
  }

  /** A presenter registered for an ActiveRecord class by its name. */
  class Collection {
    var defaultPerPage: int
    var defaultMaxPerPage: int
    var presenters: map<string, Presenter>

    /** `initialize`: 20 per page, at most 200, no presenters. */
    constructor ()
      ensures defaultPerPage == 20 && defaultMaxPerPage == 200 && presenters == map[]
    {
      defaultPerPage := 20;
      defaultMaxPerPage := 200;
      presenters := map[];
    }

    /** `for(klass)`: the presenter registered under the class name. */
    function For(klass: string): (r: Option<Presenter>)
      reads this
      ensures r.Some? <==> klass in presenters
      ensures r.Some? ==> r.value == presenters[klass]
    {
      if klass in presenters then Some(presenters[klass]) else None
    }

    /** `for!(klass)`: the registered presenter, or an error naming the class. */
    function ForBang(klass: string): (r: Result<Presenter>)
      reads this
      ensures r.Success? <==> For(klass).Some?
      ensures r.Success? ==> r.value == presenters[klass]
      ensures r.Failure? ==> r.error == ArgumentError("Unable to find a presenter for class " + klass)
    {
      match For(klass)
      case Some(p) => Success(p)
      case None => Failure(ArgumentError("Unable to find a presenter for class " + klass))
    }

    /**
     * `add_presenter_class(presenter_class, *klasses)`: a new presenter of
     * the class for each name, replacing any earlier registration; other
     * names keep theirs.
     */
    method AddPresenterClass(pc: PresenterClass, klasses: seq<string>)
      modifies this
      ensures defaultPerPage == old(defaultPerPage) && defaultMaxPerPage == old(defaultMaxPerPage)
      ensures presenters.Keys == old(presenters.Keys) + set k | k in klasses
      ensures forall k :: k in klasses ==> For(k).Some? && For(k).value.klass == pc && fresh(presenters[k])
      ensures forall k :: k !in klasses ==> For(k) == old(For(k))
    {
      var i := 0;
      while i < |klasses|
        invariant 0 <= i <= |klasses|
        invariant defaultPerPage == old(defaultPerPage) && defaultMaxPerPage == old(defaultMaxPerPage)
        invariant presenters.Keys == old(presenters.Keys) + set k | k in klasses[..i]
        invariant forall k :: k in klasses[..i] ==> presenters[k].klass == pc && fresh(presenters[k])
        invariant forall k :: k !in klasses[..i] ==>
                    (k in presenters <==> k in old(presenters)) && (k in presenters ==> presenters[k] == old(presenters[k]))
      {
        var p := new Presenter(pc);
        presenters := presenters[klasses[i] := p];
        assert klasses[..i + 1] == klasses[..i] + [klasses[i]];
        i := i + 1;
      }
      assert klasses[..i] == klasses;
    }

    /**
     * The query `presenting` builds before loading records: the declared
     * filters, then either the explicit id list (when `only` is present) or
     * a page, then the ordering. The count is taken before ordering: the
     * number of listed rows, or of distinct ids in the filtered scope.
     */
    method ShapeScope(scope: Scope, o: Options, presenter: Presenter) returns (r: Result<(Scope, nat)>)
      ensures var filtered := FiltersFold(if presenter.klass.filters.Some? then presenter.klass.filters.value else [],
                                          scope, RequestedFilters(o.params.filters));
              (filtered.Failure? ==> r == Failure(filtered.error)) &&
              (r.Success? ==>
                 filtered.Success? &&
                 (Present(o.params.only) ==>
                    r.value.1 == |WhereIds(filtered.value, OnlyIds(o.params.only)).rows|) &&
                 (!Present(o.params.only) ==> r.value.1 == DistinctIdCount(filtered.value)))
      ensures var filtered := FiltersFold(if presenter.klass.filters.Some? then presenter.klass.filters.value else [],
                                          scope, RequestedFilters(o.params.filters));
              filtered.Success? ==>
                var window := Window(filtered.value, o, defaultPerPage, defaultMaxPerPage);
                var ordered := HandleOrdering(window.0, presenter.klass.defaultSortOrder, presenter.klass.sortOrders,
                                              o.params.order);
                (ordered.Failure? ==> r == Failure(ordered.error)) &&
                (ordered.Success? ==> r == Success((ordered.value, window.1)))
      ensures r.Failure? ==>
                r.error == ArgumentError("tried to create Proc object without a block") ||
                r.error == NoMethodError("undefined method `to_sym' for nil:NilClass")
    {
      var filtered := RunFilters(scope, presenter.klass.filters, o.params.filters);
      if filtered.Failure? {
        FiltersFailIffBlockless(if presenter.klass.filters.Some? then presenter.klass.filters.value else [],
                                scope, RequestedFilters(o.params.filters));
        return Failure(filtered.error);
      }
      var (shaped, count) := Window(filtered.value, o, defaultPerPage, defaultMaxPerPage);
      var ordered := HandleOrdering(shaped, presenter.klass.defaultSortOrder, presenter.klass.sortOrders, o.params.order);
      if ordered.Failure? {
        return Failure(ordered.error);
      }
      r := Success((ordered.value, count));
    }

    /**
     * The value the assembly stores for one bucket: an empty array for a
     * bucket that flattens to nothing; otherwise the distinct values,
     * presented by the presenter of the first one's class with the fields
     * requested for the include of that json name.
     */
    function BucketValue(bucket: seq<Value>, json: string, includes: OHash<IncludeData>,
                         singular: string -> string): (r: Result<Value>)
      reads this
      ensures r.Success? ==> r.value.List?
    {
      var vs := Uniq(Flatten(bucket));
      if |vs| == 0 then Success(List([]))
      else
        match ForBang(ClassName(vs[0]))
        case Failure(e) => Failure(e)
        case Success(p) =>
          match FirstIncludeFor(includes, json)
          case None => Failure(NoMethodError("undefined method `last' for nil:NilClass"))
          case Some(data) =>
            if forall i :: 0 <= i < |vs| ==> vs[i].Record? then
              Success(List(p.GroupPresent(RecordsOf(vs), data.fields, [], singular)))
            else Failure(RuntimeError("a bucket value is not a record"))
    }

    /** The struct after storing the buckets `done`, in order, over `start`. */
    function BucketsFold(done: OHash<seq<Value>>, start: OHash<Value>, includes: OHash<IncludeData>,
                         singular: string -> string): Result<OHash<Value>>
      reads this
      decreases |done|
    {
      if done == [] then Success(start)
      else
        match BucketsFold(done[..|done| - 1], start, includes, singular)
        case Failure(e) => Failure(e)
        case Success(s) =>
          var (json, bucket) := done[|done| - 1];
          match BucketValue(bucket, json, includes, singular)
          case Failure(e) => Failure(e)
          case Success(v) => Success(Put(s, json, v))
    }

    /**
     * The struct `presenting` returns: the count, the primary list under
     * `as`, every bucket under its json name, and the presented primary
     * models appended to the list under `as`.
     */
    function Assembled(count: nat, asKey: string, recordHash: OHash<seq<Value>>, includes: OHash<IncludeData>,
                       presenter: Presenter, models: seq<Model>, fieldsParam: Option<string>,
                       singular: string -> string): Result<OHash<Value>>
      reads this
    {
      match BucketsFold(recordHash, Start(count, asKey), includes, singular)
      case Failure(e) => Failure(e)
      case Success(s) =>
        if |models| == 0 then Success(s)
        else
          var items := presenter.GroupPresent(models, Split(OrEmpty(fieldsParam), ','), KeysOf(includes), singular);
          var cur := Lookup(s, asKey);
          if cur.Some? && cur.value.List? then Success(Put(s, asKey, List(cur.value.items + items)))
          else Failure(NoMethodError("undefined method `+' for nil:NilClass"))
    }

    /**
     * What storing the buckets does to each key: a bucket's key holds its
     * value, the other keys keep what `start` had, and no new key appears.
     */
    lemma {:induction false} BucketsFoldLookup(done: OHash<seq<Value>>, start: OHash<Value>, includes: OHash<IncludeData>,
                                               singular: string -> string, k: string)
      requires UniqueKeys(done) && UniqueKeys(start)
      ensures BucketsFold(done, start, includes, singular).Success? <==> Presentable(done, includes, singular)
      ensures BucketsFold(done, start, includes, singular).Success? ==>
                UniqueKeys(BucketsFold(done, start, includes, singular).value) &&
                Lookup(BucketsFold(done, start, includes, singular).value, k) ==
                  if HasKey(done, k) then Some(BucketValue(Lookup(done, k).value, k, includes, singular).value)
                  else Lookup(start, k)
      decreases |done|
    {
      if done != [] {
        var init, x := done[..|done| - 1], done[|done| - 1];
        PresentableLast(done, includes, singular);
        UniqueKeysOfInit(done);
        BucketsFoldLookup(init, start, includes, singular, k);
        LookupLast(done, k);
        var r := BucketsFold(init, start, includes, singular);
        if r.Success? {
          var v := BucketValue(x.1, x.0, includes, singular);
          if v.Success? {
            PutLookup(r.value, x.0, v.value, k);
          }
        }
      }
    }

    /** Every bucket of `done` can be presented. */
    predicate Presentable(done: OHash<seq<Value>>, includes: OHash<IncludeData>, singular: string -> string)
      reads this
    {
      forall i :: 0 <= i < |done| ==> BucketPresentable(done[i], includes, singular)
    }

    /** The bucket `entry` (json name, values) can be presented. */
    predicate BucketPresentable(entry: (string, seq<Value>), includes: OHash<IncludeData>, singular: string -> string)
      reads this
    {
      BucketValue(entry.1, entry.0, includes, singular).Success?
    }

    lemma PresentableLast(done: OHash<seq<Value>>, includes: OHash<IncludeData>, singular: string -> string)
      requires done != []
      ensures Presentable(done, includes, singular) <==>
                Presentable(done[..|done| - 1], includes, singular) &&
                BucketPresentable(done[|done| - 1], includes, singular)
    {
      assert forall i :: 0 <= i < |done| - 1 ==> done[..|done| - 1][i] == done[i];
    }

    /**
     * What a bucket's value holds: an empty array for a bucket that flattens
     * to nothing; otherwise one presented hash, without dates or times, per
     * distinct flattened value, which needs a presenter for the first
     * value's class and an include of that json name.
     */
    lemma BucketValueShape(bucket: seq<Value>, json: string, includes: OHash<IncludeData>, singular: string -> string)
      ensures Flatten(bucket) == [] ==> BucketValue(bucket, json, includes, singular) == Success(List([]))
      ensures var r := BucketValue(bucket, json, includes, singular);
              r.Success? ==> |r.value.items| == |Uniq(Flatten(bucket))|
      ensures var r := BucketValue(bucket, json, includes, singular);
              r.Success? ==> forall i :: 0 <= i < |r.value.items| ==>
                r.value.items[i].Hash? && NoDates(r.value.items[i]) && NoTimes(r.value.items[i])
      ensures Flatten(bucket) != [] && BucketValue(bucket, json, includes, singular).Success? ==>
                ForBang(ClassName(Uniq(Flatten(bucket))[0])).Success? && FirstIncludeFor(includes, json).Some?
    {
    }

    /** The items stored under `key` by the bucket of that name, or none. */
    function StoredItems(recordHash: OHash<seq<Value>>, key: string, includes: OHash<IncludeData>,
                         singular: string -> string): seq<Value>
      reads this
    {
      if HasKey(recordHash, key) then
        var v := BucketValue(Lookup(recordHash, key).value, key, includes, singular);
        if v.Success? then v.value.items else []
      else []
    }

    /** The struct every assembly starts from: `{ :count => count, as => [] }`. */
    function Start(count: nat, asKey: string): (r: OHash<Value>)
      ensures UniqueKeys(r)
      ensures forall k :: Lookup(r, k) == if k == asKey then Some(List([])) else if k == "count" then Some(Int(count)) else None
    {
      var c := Put([], "count", Int(count));
      PutLookup([], "count", Int(count), asKey);
      assert forall k :: Lookup(c, k) == if k == "count" then Some(Int(count)) else None by {
        forall k ensures Lookup(c, k) == if k == "count" then Some(Int(count)) else None {
          PutLookup([], "count", Int(count), k);
        }
      }
      assert forall k :: Lookup(Put(c, asKey, List([])), k) == if k == asKey then Some(List([])) else Lookup(c, k) by {
        forall k ensures Lookup(Put(c, asKey, List([])), k) == if k == asKey then Some(List([])) else Lookup(c, k) {
          PutLookup(c, asKey, List([]), k);
        }
      }
      Put(c, asKey, List([]))
    }

    /**
     * The struct exists exactly when every bucket can be presented: the
     * `+=` on the primary list cannot fail, since every value stored under
     * `as` is an array.
     */
    lemma AssembledSucceeds(count: nat, asKey: string, recordHash: OHash<seq<Value>>, includes: OHash<IncludeData>,
                            presenter: Presenter, models: seq<Model>, fieldsParam: Option<string>,
                            singular: string -> string)
      requires UniqueKeys(recordHash)
      ensures Assembled(count, asKey, recordHash, includes, presenter, models, fieldsParam, singular).Success? <==>
                Presentable(recordHash, includes, singular)
    {
      BucketsFoldLookup(recordHash, Start(count, asKey), includes, singular, asKey);
    }

    /**
     * Every gathered bucket other than `as` holds its presented value;
     * `count` holds the count unless a bucket took its name; no other key
     * appears.
     */
    lemma AssembledLookup(count: nat, asKey: string, recordHash: OHash<seq<Value>>, includes: OHash<IncludeData>,
                          presenter: Presenter, models: seq<Model>, fieldsParam: Option<string>,
                          singular: string -> string, k: string)
      requires UniqueKeys(recordHash) && k != asKey
      ensures var r := Assembled(count, asKey, recordHash, includes, presenter, models, fieldsParam, singular);
              r.Success? && HasKey(recordHash, k) ==>
                Lookup(r.value, k).Some? &&
                BucketValue(Lookup(recordHash, k).value, k, includes, singular) == Success(Lookup(r.value, k).value)
      ensures var r := Assembled(count, asKey, recordHash, includes, presenter, models, fieldsParam, singular);
              r.Success? && !HasKey(recordHash, k) ==>
                Lookup(r.value, k) == if k == "count" then Some(Int(count)) else None
    {
      BucketsFoldLookup(recordHash, Start(count, asKey), includes, singular, k);
      BucketsFoldLookup(recordHash, Start(count, asKey), includes, singular, asKey);
      var b := BucketsFold(recordHash, Start(count, asKey), includes, singular);
      if b.Success? && |models| > 0 {
        var items := presenter.GroupPresent(models, Split(OrEmpty(fieldsParam), ','), KeysOf(includes), singular);
        var cur := Lookup(b.value, asKey);
        PutLookup(b.value, asKey, List(cur.value.items + items), k);
      }
    }

    /** The list under `as` is its bucket's value followed by the presented primary models. */
    lemma AssembledPrimary(count: nat, asKey: string, recordHash: OHash<seq<Value>>, includes: OHash<IncludeData>,
                           presenter: Presenter, models: seq<Model>, fieldsParam: Option<string>,
                           singular: string -> string)
      requires UniqueKeys(recordHash)
      ensures var r := Assembled(count, asKey, recordHash, includes, presenter, models, fieldsParam, singular);
              var items := presenter.GroupPresent(models, Split(OrEmpty(fieldsParam), ','), KeysOf(includes), singular);
              r.Success? ==> Lookup(r.value, asKey) == Some(List(StoredItems(recordHash, asKey, includes, singular) + items))
    {
      BucketsFoldLookup(recordHash, Start(count, asKey), includes, singular, asKey);
      var b := BucketsFold(recordHash, Start(count, asKey), includes, singular);
      if b.Success? {
        var items := presenter.GroupPresent(models, Split(OrEmpty(fieldsParam), ','), KeysOf(includes), singular);
        var cur := Lookup(b.value, asKey);
        if |models| > 0 {
          PutLookup(b.value, asKey, List(cur.value.items + items), asKey);
        } else {
          assert items == [];
          assert cur.value.items + items == cur.value.items;
        }
      }
    }

    /** The loop of `presenting` that stores every bucket of the record hash, in order, over `start`. */
    method StoreBuckets(recordHash: OHash<seq<Value>>, start: OHash<Value>, includes: OHash<IncludeData>,
                        singular: string -> string) returns (r: Result<OHash<Value>>)
      ensures r == BucketsFold(recordHash, start, includes, singular)
    {
      var struct := start;
      var i := 0;
      while i < |recordHash|
        invariant 0 <= i <= |recordHash|
        invariant BucketsFold(recordHash[..i], start, includes, singular) == Success(struct)
      {
        BucketsFoldStep(recordHash, i, start, includes, singular);
        var v := BucketValue(recordHash[i].1, recordHash[i].0, includes, singular);
        if v.Failure? {
          BucketsFoldFailureSticks(recordHash, i + 1, start, includes, singular);
          return Failure(v.error);
        }
        struct := Put(struct, recordHash[i].0, v.value);
        i := i + 1;
      }
      assert recordHash[..i] == recordHash;
      r := Success(struct);
    }

    /**
     * The struct assembly of `presenting`: every bucket of the record hash
     * stored in order, then the presented primary models appended to `as`.
     */
    method AssembleStruct(count: nat, asKey: string, recordHash: OHash<seq<Value>>, includes: OHash<IncludeData>,
                          presenter: Presenter, models: seq<Model>, fieldsParam: Option<string>,
                          singular: string -> string) returns (r: Result<OHash<Value>>)
      ensures r == Assembled(count, asKey, recordHash, includes, presenter, models, fieldsParam, singular)
    {
      r := StoreBuckets(recordHash, Start(count, asKey), includes, singular);
      if r.Success? && |models| > 0 {
        var items := presenter.GroupPresent(models, Split(OrEmpty(fieldsParam), ','), KeysOf(includes), singular);
        var cur := Lookup(r.value, asKey);
        if cur.Some? && cur.value.List? {
          r := Success(Put(r.value, asKey, List(cur.value.items + items)));
        } else {
          r := Failure(NoMethodError("undefined method `+' for nil:NilClass"));
        }
      }
    }

    /** Storing one more bucket: its value put into the struct so far, or its failure. */
    lemma BucketsFoldStep(done: OHash<seq<Value>>, i: nat, start: OHash<Value>,
                          includes: OHash<IncludeData>, singular: string -> string)
      requires i < |done| && BucketsFold(done[..i], start, includes, singular).Success?
      ensures var v := BucketValue(done[i].1, done[i].0, includes, singular);
              BucketsFold(done[..i + 1], start, includes, singular) ==
                if v.Success? then Success(Put(BucketsFold(done[..i], start, includes, singular).value, done[i].0, v.value))
                else Failure(v.error)
    {
      assert done[..i + 1][..i] == done[..i];
    }

    lemma {:induction false} BucketsFoldFailureSticks(done: OHash<seq<Value>>, i: nat, start: OHash<Value>,
                                                      includes: OHash<IncludeData>, singular: string -> string)
      requires i <= |done| && BucketsFold(done[..i], start, includes, singular).Failure?
      ensures BucketsFold(done, start, includes, singular) == BucketsFold(done[..i], start, includes, singular)
      decreases |done| - i
    {
      if i < |done| {
        assert done[..i + 1][..i] == done[..i];
        BucketsFoldFailureSticks(done, i + 1, start, includes, singular);
      } else {
        assert done[..i] == done;
      }
    }
  }
}
