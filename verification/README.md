# Brainstem presenters, modelled in Dafny

This project models three parts of Brainstem, a Ruby library that presents ActiveRecord models as JSON API responses.

- **`Brainstem::DSL::Configuration`** (`configuration.dfy`). This is the hash-like store behind the presenter DSL:
  - a configuration defers to its parent for every key it holds no truthy value for;
  - keys named in the parent's nonheritable list are hidden from children;
  - a nested configuration or `InheritableAppendSet` found in the parent is wrapped in a fresh child on first read, and that child is cached, so later writes never reach the parent.

  The store is a class whose methods change its fields. Reads are functions over the state. `get!` is a method, because it writes its cache.
- **`ApiPresenter::PresenterCollection`** (`presenter_collection.dfy`). This is the request pipeline:
  - the filters declared by the presenter;
  - the explicit `only` id list, or pagination;
  - ordering;
  - parsing of the requested includes;
  - bucketing of related records by json name;
  - assembly of the response hash;
  - the registry of presenters by class name.
- **`ApiPresenter::Base`** (`base.dfy`). This covers:
  - the field descriptors `FieldProxy`, `OptionalField` and `AssociationField`;
  - the class-level DSL (`default_sort_order`, `sort_order`, `filter`);
  - `post_process`: resolving placeholder entries against the requested fields and associations, then normalising values recursively. Dates become ISO 8601 calendar dates in the extended complete form `YYYY-MM-DD` (section 4.1.2.2 of ISO 8601:2004). Times become whole seconds since the epoch (POSIX.1-2017 Base Definitions, section 4.16).

Three support modules hold the pieces of Ruby the three files rely on:

- `ruby_core.dfy` covers `String#split`, `String#to_i`, `blank?`, `Array#uniq`, and insertion-ordered hashes with `[]=`, `delete` and `merge`.
- `values.dfy` holds the value tree a presenter produces, together with `dates_to_strings` and `datetimes_to_epoch`.
- `scope.dfy` is an abstract query scope: rows plus the SQL clauses recorded on them.

The inheritance chain of a configuration is a linked structure with a ghost footprint (`chain`). Each lookup is specified against two ghost functions:

- `Resolved(key)` is what `get!` returns in the current state;
- `Meaning(key)` is the same value, with every wrapper replaced by the container it wraps.

Caching a wrapper changes `Resolved` but never `Meaning`. That is how "reads never change what any key means" is stated.

A child configuration does not copy the nonheritable list: it keeps the very same array object as its parent (`configuration.rb:19-22`). So a tree has one list. Marking a key on any configuration hides it on every configuration of that tree that has a parent, including the marking one when it is a child. The model follows the code here, not the narrower wording of the `nonheritable!` comment (`configuration.rb:51-62`), which speaks only of children. `DslConfiguration.MarkingHides` states the consequence.

## Model

| member | source | states |
|---|---|---|
| DslConfiguration.Configuration.constructor | lib/brainstem/dsl/configuration.rb:15-23 | A new configuration has empty storage. It shares its parent's nonheritable list, or gets a new empty one at a root. |
| DslConfiguration.Configuration.Get | lib/brainstem/dsl/configuration.rb:234-246 | `get!` returns a truthy own value unchanged, without touching any configuration. Otherwise it returns nil at a root or for a key the parent marks nonheritable. Otherwise it returns the parent's value, and a container there comes back as a fresh empty wrapper stored under the key. No other key's own slot changes, and no key's meaning changes anywhere in the chain. |
| DslConfiguration.Configuration.GetInherited | lib/brainstem/dsl/configuration.rb:236-244 | The parent branch of `get!`: the parent's value, wrapped and cached when it is a container. Nothing else changes. |
| DslConfiguration.Configuration.CacheChild | lib/brainstem/dsl/configuration.rb:238-241 | The wrapper is a fresh, empty child of the parent's container, with the same meaning. It is stored under the key. |
| DslConfiguration.Configuration.Set | lib/brainstem/dsl/configuration.rb:29-38 | `[]=` fails with "You cannot override a nested value" or "You cannot override an inheritable array once set" when the current value is a container; then no meaning changes. Otherwise only this configuration's storage changes (`Put` of the key). The key then resolves to the value when it is truthy, else to what the parent passes down. Every other key resolves as before. |
| DslConfiguration.Configuration.Store | lib/brainstem/dsl/configuration.rb:36 | `@storage[key] = value` changes only the key written: its resolution becomes the value or the inherited one, and every other key's is unchanged. |
| DslConfiguration.Configuration.Nest | lib/brainstem/dsl/configuration.rb:40-43 | `nest!` returns the own truthy value when there is one, changing nothing, so a second call returns the same object. Otherwise it returns the wrapper the lookup cached. Otherwise it creates and stores a fresh empty root configuration. |
| DslConfiguration.Configuration.Array | lib/brainstem/dsl/configuration.rb:45-48 | `array!` is the same as `nest!`, with a fresh empty `InheritableAppendSet`. |
| DslConfiguration.Configuration.NonHeritable | lib/brainstem/dsl/configuration.rb:67-70 | The key is appended to the shared list unless it is already there. The key is then in the list, and a list without duplicates stays without. |
| DslConfiguration.Configuration.Fetch | lib/brainstem/dsl/configuration.rb:173-198 | A truthy value is returned as is: the very slot `get!` resolves, inherited or cached. Otherwise: with no block, the default if truthy, else `KeyError`; with a block, the block is called with the default, or with nil when there is none. No meaning changes. |
| DslConfiguration.Configuration.Each | lib/brainstem/dsl/configuration.rb:211-215 | One pair per key of `keys`, in order, each with the meaning `get!` gives it. A container pair is the very slot `get!` cached in this configuration's own storage under that key, never the parent's container. No meaning changes. |
| DslConfiguration.Configuration.Keys | lib/brainstem/dsl/configuration.rb:104-110 | `keys` has no duplicates and holds exactly the keys the parent passes down (its keys less its nonheritable ones) and the keys stored here. |
| DslConfiguration.Configuration.KeysVisibleToChildren | lib/brainstem/dsl/configuration.rb:82-84 | `keys_visible_to_children` is `keys - nonheritable_keys`; `VisibleToChildren` states its members. |
| DslConfiguration.Configuration.PairsVisibleToChildren | lib/brainstem/dsl/configuration.rb:93-95 | `pairs_visible_to_children` keeps the pairs of `to_h` under a heritable key; `VisibleToChildren` states its keys. |
| DslConfiguration.VisibleToChildren | lib/brainstem/dsl/configuration.rb:82-95 | A key is visible to children exactly when `keys` lists it and it is not nonheritable. The visible pairs carry exactly those keys, once each, in that order. |
| DslConfiguration.Configuration.HasKey | lib/brainstem/dsl/configuration.rb:201-205 | `has_key?` as the source recurses: stored here, or known to the parent and not hidden by it. `HasKeyIffInKeys` relates it to `keys`. |
| DslConfiguration.Configuration.ToH | lib/brainstem/dsl/configuration.rb:164-170 | `to_h` merges the own storage over the parent's visible pairs; `ToHKeys` and `ToHLookup` state its keys and values. |
| DslConfiguration.Configuration.Length | lib/brainstem/dsl/configuration.rb:207-209 | `length` is the number of `keys`; `ToHKeys` shows it is also the size of `to_h`. |
| DslConfiguration.Configuration.IsEmpty | lib/brainstem/dsl/configuration.rb:217 | `empty?` is delegated to `keys`. |
| DslConfiguration.HasKeyIffInKeys | lib/brainstem/dsl/configuration.rb:201-205 | `has_key?` holds exactly for the keys that `keys` lists. |
| DslConfiguration.ToHKeys | lib/brainstem/dsl/configuration.rb:164-170 | `to_h` has unique keys, exactly those of `keys`, in the same order. So `length` (line 207-209) is its size. |
| DslConfiguration.ToHLookup | lib/brainstem/dsl/configuration.rb:164-170 | `to_h[key]` is the own stored value when the key is stored here, else the value among the parent's heritable pairs (own pairs override). |
| DslConfiguration.ParentVisiblePairsKeys | lib/brainstem/dsl/configuration.rb:82-95 | `pairs_visible_to_children` carries exactly the keys `keys_visible_to_children` lists, once each. |
| DslConfiguration.OneListPerTree | lib/brainstem/dsl/configuration.rb:19-22 | Every configuration of a tree holds the root's nonheritable list object. |
| DslConfiguration.MarkingHides | lib/brainstem/dsl/configuration.rb:51-62 | A key marked on any configuration of a tree reads as nil on every configuration with a parent unless stored there truthy. `keys`, `to_h` and `has_key?` know it there only where it is stored. |
| DslConfiguration.ChainClosed | lib/brainstem/dsl/configuration.rb:15-22 | Every ancestor of a configuration is linked, has a smaller chain, and holds the same nonheritable list. |
| DslConfiguration.MeaningOfResolved | lib/brainstem/dsl/configuration.rb:235-244 | The step-by-step meaning of a key (a truthy own value, else nil when hidden in the parent or at a root, else the parent's meaning) is what the chain lookup resolves to, with containers read as the containers they wrap. |
| DslConfiguration.KeyList.constructor | lib/brainstem/dsl/configuration.rb:22 | A new nonheritable list is empty. |
| DslConfiguration.AppendSet.constructor | lib/brainstem/dsl/configuration.rb:253-256 | A new set has the given parent and no own items. |
| DslConfiguration.AppendSet.ToA | lib/brainstem/dsl/configuration.rb:267-269 | `to_a` is the parent's `to_a` followed by the own items; `Push` and `Concat` state how it grows. |
| DslConfiguration.AppendSet.IsEmpty | lib/brainstem/dsl/configuration.rb:271 | `empty?` is delegated to `to_a`. |
| DslConfiguration.AppendSet.Push | lib/brainstem/dsl/configuration.rb:258-261 | `push` appends the item to the own items only. `to_a` becomes the old `to_a` plus the item. |
| DslConfiguration.AppendSet.Concat | lib/brainstem/dsl/configuration.rb:263-269 | `concat` appends the items, in order, to the own items only. `to_a` becomes the old `to_a` plus the items. |
| PresenterBase.NewFieldProxy | lib/api_presenter/base.rb:16-28 | A descriptor exists exactly when a block or a method name is given, else `ArgumentError` "Method name or block is required". The block wins over the method name. `call` yields the block's value, else the model's reader. |
| PresenterBase.NewOptionalField | lib/api_presenter/base.rb:40 | `optional_field` builds an `OptionalField` over the same descriptor and fails in the same cases. |
| PresenterBase.NewAssociation | lib/api_presenter/base.rb:31-38 | `association` builds an `AssociationField` over the same descriptor, with no association or json name. It fails in the same cases. |
| PresenterBase.LoadOptionalFields | lib/api_presenter/base.rb:144-154 | Each key's outcome: an optional field whose key is requested becomes its computed value; one whose key is not requested is deleted; every other entry is untouched. |
| PresenterBase.OptionalFieldsLookup | lib/api_presenter/base.rb:144-154 | The same outcome per key, for the fold over a snapshot of the struct. |
| PresenterBase.OptionalFoldLookup | lib/api_presenter/base.rb:145-153 | After the first `i` snapshot entries, keys among them have their outcome and the others are unchanged. |
| PresenterBase.OptionalsResolved | lib/api_presenter/base.rb:144-154 | With no association placeholders left, no placeholder at all remains. |
| PresenterBase.AssociationTarget | lib/api_presenter/base.rb:158-174 | The key written for an association field: `<key>_id` from the `<method>_id` column when that column exists, requested or not. Otherwise nothing when the key is not requested. Otherwise `<singular>_ids` exactly when the result is an array, holding each item's id (a record's id, any other item itself) in order; else `<singular>_id`, holding the scalar's id or the scalar itself. |
| PresenterBase.AssociationStepLookup | lib/api_presenter/base.rb:158-174 | One placeholder is deleted and its target key, if any, written. Every other key is unchanged. |
| PresenterBase.AssociationStepPending | lib/api_presenter/base.rb:157-158 | After one step, every association placeholder still in the hash is an entry of the rest of the snapshot, with the same value. |
| PresenterBase.AssociationFoldPending | lib/api_presenter/base.rb:157-177 | Part-way through the loop, every association placeholder still in the hash is an unvisited snapshot entry, with its snapshot value. |
| PresenterBase.AssociationsResolved | lib/api_presenter/base.rb:156-177 | After `load_associations!`, no association placeholder remains. |
| PresenterBase.LoadAssociations | lib/api_presenter/base.rb:156-177 | The loop equals the fold over the snapshot, and leaves no association placeholder. |
| PresenterBase.Resolved | lib/api_presenter/base.rb:100-101 | Associations, then optional fields: the struct holds plain values only. |
| PresenterBase.PostProcessed | lib/api_presenter/base.rb:99-104 | The output of `post_process` is a hash with no date and no time left, with the resolved struct's keys in order. |
| PresenterBase.PostProcessedLeaves | lib/api_presenter/base.rb:99-104 | Each value `post_process` returns is the resolved value with Dates as `%F` strings, times as epoch seconds, and every other leaf unchanged. |
| PresenterBase.PostProcess | lib/api_presenter/base.rb:99-104 | The four steps, in the source's order, equal `PostProcessed`. |
| PresenterBase.PresenterClass.constructor | lib/api_presenter/base.rb:42-71 | A presenter class starts with no default sort order, no sort orders and no filters. |
| PresenterBase.PresenterClass.DefaultSortOrder | lib/api_presenter/base.rb:47-53 | With an argument it sets the value; without one it reads it. It always returns the current value and changes nothing else. |
| PresenterBase.PresenterClass.SortOrder | lib/api_presenter/base.rb:55-58 | The block is stored in preference to the order, under the name. The table is created on first use, and a redeclared name is overwritten. |
| PresenterBase.PresenterClass.Filter | lib/api_presenter/base.rb:64-67 | The default and block are stored under the name. The table is created on first use, and a redeclared name is overwritten. |
| PresenterBase.RedeclarationWins | lib/api_presenter/base.rb:57 | Declaring a name twice reads as declaring it once with the second value. |
| PresenterBase.Presenter.constructor | lib/api_presenter/presenter_collection.rb:227 | A presenter instance belongs to its presenter class. |
| PresenterBase.Presenter.GroupPresent | lib/api_presenter/base.rb:106-112 | One element per model, in input order. Each is the post-processed presentation of that model: a hash with no dates and no times. |
| Values.DatesToStrings | lib/api_presenter/base.rb:131-142 | The tree keeps its shape (lengths, keys, order); each Date leaf becomes its `%F` string and every other leaf stays as it is. So no date remains, and a tree without times stays without. |
| Values.LeafwiseImageUnique | lib/api_presenter/base.rb:118-142 | The leaf-by-leaf relation used for both passes determines the result: two images of one tree under one leaf map are equal. |
| Values.DatetimesToEpoch | lib/api_presenter/base.rb:118-129 | The tree keeps its shape; each time leaf becomes its whole epoch seconds (`to_i`) and every other leaf stays as it is. So no time remains, and a tree without dates stays without. |
| Values.DatesToStringsFixes | lib/api_presenter/base.rb:131-142 | A tree without dates is left exactly as it is. |
| Values.DatesToStringsIdempotent | lib/api_presenter/base.rb:131-142 | Applying `dates_to_strings` twice equals applying it once. |
| Values.DatetimesToEpochFixes | lib/api_presenter/base.rb:118-129 | A tree without times is left exactly as it is. |
| Values.DatetimesToEpochIdempotent | lib/api_presenter/base.rb:118-129 | Applying `datetimes_to_epoch` twice equals applying it once. |
| Values.NormalisationsCommute | lib/api_presenter/base.rb:102-103 | The two normalisations commute. |
| Values.NormalisedLeafwise | lib/api_presenter/base.rb:102-103 | Both passes together rewrite each Date leaf to its `%F` string and each time leaf to its seconds, and keep every other leaf and the shape. |
| Values.IsoDate | lib/api_presenter/base.rb:138 | `%F` has dashes before the month and the day. For years 0 to 9999 it has the form `YYYY-MM-DD`. |
| Values.IsoDateRoundTrip | lib/api_presenter/base.rb:138 | The `%F` string reads back as the same date. |
| Values.YearString | lib/api_presenter/base.rb:138 | `%Y` has at least four characters, and exactly four for years 0 to 9999. |
| Values.Pad | lib/api_presenter/base.rb:138 | Zero padding reaches the width and keeps a numeral a numeral. |
| Values.DigitRunOfPadded | lib/api_presenter/base.rb:138 | Leading zeros do not change the number a numeral denotes. |
| Scopes.WhereIds | lib/api_presenter/presenter_collection.rb:120 | `where(:id => ids)` keeps exactly the rows whose id one of the ids denotes, and records the `where` condition among the scope's clauses. |
| Scopes.RowsWithIds | lib/api_presenter/presenter_collection.rb:120 | The row filter behind `WhereIds`: it keeps no more rows than it is given, and only matching ones. |
| Scopes.RowsWithIdsMultiplicity | lib/api_presenter/presenter_collection.rb:120 | A matching row is kept as often as it occurs, and any other row is dropped. |
| Scopes.RowsWithIdsAppend | lib/api_presenter/presenter_collection.rb:120 | Filtering two runs of rows gives the filtered first run followed by the filtered second, so the rows keep their order. |
| Scopes.RowsWithIdsSingle | lib/api_presenter/presenter_collection.rb:120 | A single row is kept exactly when its id is among the ids. |
| RubyCore.Split | lib/api_presenter/presenter_collection.rb:96-98 | `String#split` with a one-character separator: the fields without trailing empty ones, none containing the separator. |
| RubyCore.Uniq | lib/api_presenter/presenter_collection.rb:119 | `uniq` holds each element of its input once, and nothing else. |
| RubyCore.FirstIndex | lib/api_presenter/presenter_collection.rb:119 | The position of an element's first occurrence: it holds the element, and no earlier position does. |
| RubyCore.UniqFirstOccurrence | lib/api_presenter/presenter_collection.rb:119 | `uniq` keeps first occurrences: its elements come in the order in which they first appear in the input. With the row above this determines `uniq`. |
| RubyCore.Merge | lib/brainstem/dsl/configuration.rb:166 | `merge` as repeated `[]=` of the second hash's pairs onto the first; `MergeLookup` and `MergeKeys` state its values and keys. |
| RubyCore.MergeLookup | lib/brainstem/dsl/configuration.rb:166 | In `merge`, the second hash's values win, and the first hash supplies the other keys. |
| RubyCore.MergeKeys | lib/brainstem/dsl/configuration.rb:166 | `merge` keys are the first hash's keys, then the second's new ones, each once. |
| RubyCore.PutLookup | lib/api_presenter/base.rb:148 | After `h[k] = v`, `h[k]` is `v`; every other key reads as before; the keys stay unique. |
| RubyCore.DeleteLookup | lib/api_presenter/base.rb:150 | After `h.delete(k)`, `k` is absent; every other key reads as before. |
| RubyCore.ToI | lib/api_presenter/presenter_collection.rb:89 | `String#to_i`: leading whitespace skipped, an optional sign, then the longest run of digits, 0 when there is none. `ToIOfNumeral` states the round trip. |
| RubyCore.ToIOfNumeral | lib/api_presenter/presenter_collection.rb:89 | `to_i` reads a decimal numeral back as the number it denotes. |
| PresenterCollection.CollectAsWritten | lib/api_presenter/presenter_collection.rb:96-100 | The source's segment fold. When it succeeds, its keys are unique. |
| PresenterCollection.Collect | lib/api_presenter/presenter_collection.rb:96-100 | The fold with segments that name nothing skipped: unique keys. |
| PresenterCollection.CollectLookup | lib/api_presenter/presenter_collection.rb:96-100 | A name reads the value of the last segment with that name. |
| PresenterCollection.CollectAsWrittenSucceeds | lib/api_presenter/presenter_collection.rb:96-100 | The source's fold succeeds exactly when every segment names something. |
| PresenterCollection.CollectAsWrittenAgrees | lib/api_presenter/presenter_collection.rb:96-100 | When the source's fold succeeds, it equals `Collect`. |
| PresenterCollection.RequestedFiltersAsWritten | lib/api_presenter/presenter_collection.rb:125 | The source's filter parse, the segment fold over the comma list; `CollectAsWrittenSucceeds` says when it raises. |
| PresenterCollection.IncludesAsWritten | lib/api_presenter/presenter_collection.rb:96-100 | The source's include parse, the segment fold over the semicolon list; `CollectAsWrittenSucceeds` says when it raises. |
| PresenterCollection.RequestedFilters | lib/api_presenter/presenter_collection.rb:125 | Requested filters, `name:value` pairs separated by commas, with unique names. |
| PresenterCollection.Includes | lib/api_presenter/presenter_collection.rb:96-100 | Requested includes, `name:f1,f2` segments separated by semicolons, with unique names. |
| PresenterCollection.BareNameHasNoFields | lib/api_presenter/presenter_collection.rb:97-98 | An include without a colon asks for no fields. A filter without one has a nil value. |
| PresenterCollection.EmptyFilterEntryRaises | lib/api_presenter/presenter_collection.rb:125 | `filters=,a` raises in the source, while the corrected parse gives `{a => nil}`. |
| PresenterCollection.EmptyIncludeSegmentRaises | lib/api_presenter/presenter_collection.rb:96-98 | `include=;a` raises in the source, while the corrected parse gives `{a => []}`. |
| PresenterCollection.PerPage | lib/api_presenter/presenter_collection.rb:84-87 | The asked-for per-page value (param, else option, else default) is kept when it lies in `[1, max]`. Above the maximum it is the maximum. Below 1, or with a maximum below 1, it falls back to the option, else the default. |
| PresenterCollection.PageNumber | lib/api_presenter/presenter_collection.rb:89-90 | The page is at least 1. It is the parameter's integer when that is at least 1, else 1. |
| PresenterCollection.DefaultPageSizeBounds | lib/api_presenter/presenter_collection.rb:7-10 | With the defaults 20 and 200 and no options, any request gets between 1 and 200 rows per page. |
| PresenterCollection.Paginate | lib/api_presenter/presenter_collection.rb:83-93 | The scope gains `limit(per_page)`, `offset(per_page * (page - 1))` and `uniq`. The count is the number of distinct ids of the unlimited scope, whatever the page or per-page. |
| PresenterCollection.PagesDoNotOverlap | lib/api_presenter/presenter_collection.rb:92 | Page 1 starts at offset 0. A later page starts at least one page size after an earlier one. |
| PresenterCollection.IsIdToken | lib/api_presenter/presenter_collection.rb:119 | `=~ /\A\d+\Z/`: one or more ASCII digits, optionally followed by one final newline. |
| PresenterCollection.SelectIds | lib/api_presenter/presenter_collection.rb:119 | Keeps exactly the tokens that match `\A\d+\Z`. |
| PresenterCollection.OnlyIds | lib/api_presenter/presenter_collection.rb:119 | The ids are the tokens of the comma list that match `\A\d+\Z` (digits, with one optional final newline), each once. |
| PresenterCollection.SelectIdsKeepsPair | lib/api_presenter/presenter_collection.rb:119 | Selecting the id tokens keeps the order in which any two of them first appear. |
| PresenterCollection.OnlyIdsFirstOccurrence | lib/api_presenter/presenter_collection.rb:119 | `handle_only`'s ids come in the order in which they first appear in the parameter. |
| PresenterCollection.Window | lib/api_presenter/presenter_collection.rb:31-37 | With an `only` list present, the scope is `where(:id => ids)` over the parsed ids and the count is the number of rows it keeps. Otherwise the rows are kept, the scope gains `limit(per_page)`, `offset(per_page * (page - 1))` and `uniq`, and the count is the number of distinct ids before the window. |
| PresenterCollection.HandleOnly | lib/api_presenter/presenter_collection.rb:118-121 | Exactly the rows with a listed id are kept, and the count is their number. |
| PresenterCollection.MakeApiFilter | lib/api_presenter/presenter_collection.rb:193-197 | The lambda exists exactly when the filter has a block, else `ArgumentError`. Its `filter_default` is the declared default. |
| PresenterCollection.FilterDefaultGiven | lib/api_presenter/presenter_collection.rb:216-218 | `filter_default?`: the lambda has a non-nil default. |
| PresenterCollection.FilterStep | lib/api_presenter/presenter_collection.rb:127-134 | A requested value is passed when there is one, else a non-nil default (`filter_default?`, line 216-218). With neither, the scope is unchanged. It fails exactly when the filter has no block. |
| PresenterCollection.FiltersFold | lib/api_presenter/presenter_collection.rb:127-134 | The scope after the declared filters so far, in declaration order, stopping at the first raise; `FiltersFailIffBlockless` and `FiltersIgnoreUndeclared` state its properties. |
| PresenterCollection.FiltersFoldFailureSticks | lib/api_presenter/presenter_collection.rb:127-134 | Once a filter raises, the remaining filters do not run. |
| PresenterCollection.FiltersFailIffBlockless | lib/api_presenter/presenter_collection.rb:127-134 | `run_filters` raises `ArgumentError` exactly when some declared filter has no block. |
| PresenterCollection.FiltersIgnoreUndeclared | lib/api_presenter/presenter_collection.rb:123-137 | Requests that agree on the declared names give the same scope: undeclared names are ignored. |
| PresenterCollection.RunFilters | lib/api_presenter/presenter_collection.rb:123-137 | The loop visits the declared filters in declaration order and equals the fold of `FilterStep`, over the corrected parse of the `filters` parameter. |
| PresenterCollection.MakeApiOrder | lib/api_presenter/presenter_collection.rb:199-209 | The block when given. Otherwise an order by the field, `desc` only for exactly `"desc"`. With neither it fails with "you must provide either a field name or a block to make_api_order". |
| PresenterCollection.BuiltInDefaultOrder | lib/api_presenter/presenter_collection.rb:140 | The fallback `"updated_at:desc"` names the column `updated_at`, descending. |
| PresenterCollection.HandleOrdering | lib/api_presenter/presenter_collection.rb:139-157 | A present requested column with a declared order is applied in the requested direction. Otherwise the first field of the declared default is the column and its second field the direction (`desc` only for exactly `"desc"`), and the built-in `updated_at desc` when no default is declared. With no matching order the scope is unchanged. It fails, with `NoMethodError`, exactly when a declared default names no column and the request's column is not used. |
| PresenterCollection.UndeclaredRequestIgnored | lib/api_presenter/presenter_collection.rb:143-149 | A requested column without a declared order is ignored with its direction: the result is that of no request. |
| PresenterCollection.DefaultOrderingIsUpdatedAtDesc | lib/api_presenter/presenter_collection.rb:139-157 | With no default and no request, a declared `updated_at` column orders the scope by it, descending. |
| PresenterCollection.IncludeFor | lib/api_presenter/presenter_collection.rb:104-112 | The association name, else the method name; the json name, else the key; the requested fields. It fails exactly when both names are missing. |
| PresenterCollection.IncludesFold | lib/api_presenter/presenter_collection.rb:103-115 | The loop over requested includes keeps unique keys. |
| PresenterCollection.IncludesFoldLookup | lib/api_presenter/presenter_collection.rb:103-115 | The result holds exactly the requested keys that are allowed, each with its data. It succeeds exactly when every such key can be described. |
| PresenterCollection.FilterIncludes | lib/api_presenter/presenter_collection.rb:95-116 | Over the corrected parse of the `include` parameter, the keys of the result are exactly the requested keys that are allowed. |
| PresenterCollection.IncludeStepLookup | lib/api_presenter/presenter_collection.rb:180-186 | One include of one model pushes a kept value onto its json name's bucket, creating it. Every other bucket is unchanged. |
| PresenterCollection.ModelFoldLookup | lib/api_presenter/presenter_collection.rb:180-187 | One model adds to each bucket exactly its kept values, in include order. |
| PresenterCollection.GatherFold | lib/api_presenter/presenter_collection.rb:172-191 | The record hash after the first models, starting from `{name => []}`; `GatherLookup` relates it to the reference. |
| PresenterCollection.GatherLookup | lib/api_presenter/presenter_collection.rb:172-191 | Each bucket holds exactly the kept values (truthy, and not empty arrays) for its json name, model by model and include by include. The bucket `name` always exists; any other exists only once something is pushed. |
| PresenterCollection.GatherAssociations | lib/api_presenter/presenter_collection.rb:172-191 | The primary list equals the input, in order. The record hash equals the reference fold. |
| PresenterCollection.AppendedTwice | lib/api_presenter/presenter_collection.rb:184-185 | Pushing two runs of values onto a bucket is pushing their concatenation. |
| PresenterCollection.Flatten | lib/api_presenter/presenter_collection.rb:63 | `flatten!` leaves no nested array, and the empty array stays empty. |
| PresenterCollection.FlattenAppend | lib/api_presenter/presenter_collection.rb:63 | Flattening a concatenation is concatenating the flattenings. |
| PresenterCollection.FlattenSingle | lib/api_presenter/presenter_collection.rb:63 | A non-array element stays as it is; an array element is spliced in flattened. With `FlattenAppend` this determines `flatten`. |
| PresenterCollection.RecordsOf | lib/api_presenter/presenter_collection.rb:67-69 | The models of a bucket of records, one per element, in order. |
| PresenterCollection.FirstIncludeFor | lib/api_presenter/presenter_collection.rb:68 | `find` succeeds exactly when some include has the json name, and returns one with it. |
| PresenterCollection.FirstIncludeForIsFirst | lib/api_presenter/presenter_collection.rb:68 | `find` returns the first include with the json name: the one all of whose predecessors have other names. |
| PresenterCollection.YieldsNamed | lib/api_presenter/presenter_collection.rb:180-186 | Values reach bucket `j` only through an include whose json name is `j`. |
| PresenterCollection.YieldsOfModelNamed | lib/api_presenter/presenter_collection.rb:180-186 | The same, for one model. |
| PresenterCollection.GatheredBucketsHaveIncludes | lib/api_presenter/presenter_collection.rb:62-72 | For any gathered bucket that is not empty, the `find ... .last` in the assembly finds its include. |
| PresenterCollection.Collection.constructor | lib/api_presenter/presenter_collection.rb:7-10 | The defaults are 20 per page and at most 200, with no presenters. |
| PresenterCollection.Collection.For | lib/api_presenter/presenter_collection.rb:231-233 | `for` gives the presenter registered under the class name, or nil. |
| PresenterCollection.Collection.ForBang | lib/api_presenter/presenter_collection.rb:235-237 | `for!` gives the registered presenter, else `ArgumentError` "Unable to find a presenter for class " followed by the name. |
| PresenterCollection.Collection.AddPresenterClass | lib/api_presenter/presenter_collection.rb:225-229 | Each listed name then maps to a fresh presenter of the class, replacing any earlier one. Other names keep theirs, and the settings are unchanged. |
| PresenterCollection.Collection.ShapeScope | lib/api_presenter/presenter_collection.rb:29-41 | Filters first; a filter failure is the result. Then the `only` list when present (count = listed rows), else a page (count = distinct ids of the filtered scope). Then ordering of that scope: an ordering failure is the result, otherwise the result is the ordered scope with the count. With the corrected filter parse, the only errors are the filter's `ArgumentError` and the ordering's `NoMethodError`. |
| PresenterCollection.Collection.BucketValue | lib/api_presenter/presenter_collection.rb:62-73 | A bucket that can be presented always gives a list. |
| PresenterCollection.Collection.BucketValueShape | lib/api_presenter/presenter_collection.rb:62-73 | A bucket that flattens to nothing gives `[]`. Otherwise it gives one hash, without dates or times, per distinct flattened value. A nonempty bucket is presented only when a presenter is registered for the first value's class and some requested include has that json name. |
| PresenterCollection.Collection.BucketsFoldLookup | lib/api_presenter/presenter_collection.rb:62-73 | The loop over buckets succeeds exactly when every bucket can be presented. Each bucket's key holds its value; other keys keep the start's. |
| PresenterCollection.Collection.Start | lib/api_presenter/presenter_collection.rb:60 | The struct starts as `{count => count, as => []}`. |
| PresenterCollection.Collection.Assembled | lib/api_presenter/presenter_collection.rb:60-80 | The response struct: the bucket fold from `{count, as}`, then the presented primary models appended under `as` when there are any; the three rows below state it. |
| PresenterCollection.Collection.AssembledSucceeds | lib/api_presenter/presenter_collection.rb:60-80 | The struct exists exactly when every bucket can be presented. The `+=` on the primary list never fails. |
| PresenterCollection.Collection.AssembledLookup | lib/api_presenter/presenter_collection.rb:60-80 | Every bucket other than `as` holds its presented value. `count` holds the count unless a bucket took its name. No other key appears. |
| PresenterCollection.Collection.AssembledPrimary | lib/api_presenter/presenter_collection.rb:75-78 | The list under `as` is its bucket's value followed by the primary models, presented with the requested fields and the include names. |
| PresenterCollection.Collection.StoreBuckets | lib/api_presenter/presenter_collection.rb:62-73 | The loop over the related-record buckets, in order, equals the bucket fold; the first bucket that cannot be presented ends it with its error. |
| PresenterCollection.Collection.AssembleStruct | lib/api_presenter/presenter_collection.rb:60-80 | The bucket loop followed by the `+=` of the presented primary models equals the assembled struct. |
| PresenterCollection.Collection.BucketsFoldFailureSticks | lib/api_presenter/presenter_collection.rb:62-73 | Once a bucket cannot be presented, the assembly stops with that error. |

## Left out

- `HashWithIndifferentAccess` key conversion is not modelled. Keys are strings throughout, which is the point of indifferent access. Stored hashes are not converted into indifferent hashes.
- `get!` evaluates `parent[key]` up to three times. The model makes one call: after the first call, the parent returns the same cached object.
- The `nonheritable_keys` writer (`attr_accessor`, `configuration.rb:73`) is not modelled. Reassigning the list would break the sharing described above.
- `each` with a block is modelled as returning the pairs it yields, and `empty?` as a predicate on `keys`.
- ActiveRecord and ActiveSupport glue in `presenting` is left out, because it is outside this model:
  - `classify`, `constantize`, `tableize`, `instance_eval` of the scope block;
  - `reflections`, and the construction of the allowed includes from them (`presenter_collection.rb:46-54`);
  - `perform_preloading`, `Preloader.run` and the logger.
- The model does not read records from the database. The scope applies `where(:id => ids)` to its rows but only records `limit`, `offset`, `uniq` and `order`, whose rows stay those selected before them, and `presenting`'s record list, allowed includes and `as` key are parameters.
- `singularize` is a given function, and `columns_hash` is the model's set of column names.
- `Time` versus `TimeWithZone`, and time zones in general, are not modelled. A time carries its epoch seconds and sub-second part.
- `DateTime` (a `Date` subclass in Ruby) is not modelled. Dates and times are distinct variants.
- Dates are not checked for full calendar validity: month 1-12 and day 1-31 only.
- `AssociationField#initialize` reads an undefined `options`, and `json_name` has no writer. The descriptor is plain data with optional association and json names.
- `custom_preload` is an empty hook and is not modelled. `PresenterBase.Presenter.GroupPresent` does not state that it runs once.
- `load_associations!` and `load_optional_fields!` change the struct in place. The model returns the new struct and does not model aliasing of it.
- Blocks are modelled as values. A field block's result is a value, and filter and sort blocks are functions of the scope. Side effects of blocks are not modelled.
- `uniq!` on a bucket compares values structurally. ActiveRecord compares records by class and id.
- PresenterCollection.RunFilters: parses the `filters` parameter with the corrected parse (`RequestedFilters`). On an empty entry such as `filters=,a` the source raises `NoMethodError` before any filter runs (see Findings); the model applies `a` instead.
- PresenterCollection.FilterIncludes: parses the `include` parameter with the corrected parse (`Includes`). On an empty segment such as `include=;a` the source raises `NoMethodError` (see Findings); the model includes `a` instead.
- PresenterCollection.Collection.ShapeScope: inherits the corrected filter parse from `RunFilters`, so the source's `NoMethodError` on an empty filter entry is not among its errors.
- `PresenterCollection.Collection.BucketValue`: a bucket holding a value that is not a record, once a presenter is found for the first value's class, is reported as a `RuntimeError`. The source would hand that value to the presenter.
- `blank?` recognises ASCII whitespace only.
- The `@presenters ||= {}` lazy initialisation is modelled as an empty map set by the constructor.
- Filter and sort-order names are compared as strings. In the source a name declared as a String, not a Symbol, never matches the symbolised request keys.
- `Integer` is unbounded, as in Ruby.

## Findings

| source | as written | input that shows it | evidently intended | confidence | as-written member | corrected member |
|---|---|---|---|---|---|---|
| lib/api_presenter/presenter_collection.rb:125 | An empty entry in the `filters` parameter splits to no fields, so `name` is nil and `nil.to_sym` raises `NoMethodError`. | `filters=,a` | Skip the empty entry and apply filter `a` with no value. | medium, not executed | PresenterCollection.EmptyFilterEntryRaises | PresenterCollection.RequestedFilters |
| lib/api_presenter/presenter_collection.rb:96-98 | An empty segment in the `include` parameter splits to no fields, so `include_type` is nil and `nil.to_sym` raises `NoMethodError`. | `include=;a` | Skip the empty segment and include `a` with no fields. | medium, not executed | PresenterCollection.EmptyIncludeSegmentRaises | PresenterCollection.Includes |
