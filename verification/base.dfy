/**
 * `ApiPresenter::Base`: the field descriptors a presenter puts in the hash
 * it builds for a model, the class-level declarations (sort orders,
 * filters, the default sort order), and the post-processing that turns the
 * presenter's hash into output: association placeholders become ids,
 * optional fields are computed or dropped, then dates and times are
 * normalised.
 */
module PresenterBase {
  import opened RubyCore
  import opened Values
  import opened Scopes

  // ---------------------------------------------------------------------
  // Field descriptors

  /**
   * How a `FieldProxy` computes its value: the block it was given (whose
   * result is taken as a given value) or a reader method of the model.
   */
  datatype Accessor = FromBlock(result: Value) | FromMethod(name: string)

  /**
   * `FieldProxy.new(method_name, &block)`: a block takes precedence over a
   * method name; with neither the constructor raises `ArgumentError`.
   */
  function NewFieldProxy(methodName: Option<string>, block: Option<Value>): (r: Result<Accessor>)
    ensures r.Success? <==> block.Some? || methodName.Some?
    ensures r.Failure? ==> r.error == ArgumentError("Method name or block is required")
    ensures r.Success? ==> MethodName(r.value) == if block.Some? then None else methodName
    ensures r.Success? ==> forall m ::
              Call(r.value, m) == if block.Some? then block.value else Send(m, methodName.value)
  {
    if block.Some? then Success(FromBlock(block.value))
    else if methodName.Some? then Success(FromMethod(methodName.value))
    else Failure(ArgumentError("Method name or block is required"))
  }

  /** `FieldProxy#method_name`: set only when no block was given. */
  function MethodName(a: Accessor): Option<string> {
    if a.FromMethod? then Some(a.name) else None
  }

  /** `FieldProxy#call(model)`. */
  function Call(a: Accessor, m: Model): Value {
    match a
    case FromBlock(result) => result
    case FromMethod(name) => Send(m, name)
  }

  /** An `AssociationField`: its accessor plus the optional association and json names. */
  datatype AssociationField = AssociationField(accessor: Accessor, associationName: Option<string>, jsonName: Option<string>)

  /** A value of the hash a presenter's `present` builds: a plain value or a placeholder. */
  datatype Entry = Val(v: Value) | Optional(field: Accessor) | Association(assoc: AssociationField)

  /** The presenter's hash: pairs in insertion order with distinct keys. */
  type Struct = h: OHash<Entry> | UniqueKeys(h) witness []

  /** `optional_field(name, &block)`. */
  function NewOptionalField(fieldName: Option<string>, block: Option<Value>): (r: Result<Entry>)
    ensures r.Success? <==> NewFieldProxy(fieldName, block).Success?
    ensures r.Success? ==> r.value == Optional(NewFieldProxy(fieldName, block).value)
  {
    match NewFieldProxy(fieldName, block)
    case Success(a) => Success(Optional(a))
    case Failure(e) => Failure(e)
  }

  /** `association(method_name, &block)`. */
  function NewAssociation(methodName: Option<string>, block: Option<Value>): (r: Result<Entry>)
    ensures r.Success? <==> NewFieldProxy(methodName, block).Success?
    ensures r.Success? ==> r.value == Association(AssociationField(NewFieldProxy(methodName, block).value, None, None))
  {
    match NewFieldProxy(methodName, block)
    case Success(a) => Success(Association(AssociationField(a, None, None)))
    case Failure(e) => Failure(e)
  }

  // ---------------------------------------------------------------------
  // load_optional_fields!

  /** One iteration of `load_optional_fields!` over the pair `(key, e)` of the snapshot. */
  function OptionalStep(cur: OHash<Entry>, key: string, e: Entry, model: Model, fields: seq<string>): OHash<Entry> {
    if !e.Optional? then cur
    else if key in fields then Put(cur, key, Val(Call(e.field, model)))
    else Delete(cur, key)
  }

  /** The hash after the loop has visited the snapshot pairs `done`, starting from `s0`. */
  function OptionalFold(done: OHash<Entry>, s0: OHash<Entry>, model: Model, fields: seq<string>): OHash<Entry>
    decreases |done|
  {
    if done == [] then s0
    else
      var last := done[|done| - 1];
      OptionalStep(OptionalFold(done[..|done| - 1], s0, model, fields), last.0, last.1, model, fields)
  }

  /** What `load_optional_fields!` leaves under a key whose entry was `e`. */
  function OptionalOutcome(e: Option<Entry>, key: string, model: Model, fields: seq<string>): Option<Entry> {
    match e
    case None => None
    case Some(Optional(f)) => if key in fields then Some(Val(Call(f, model))) else None
    case Some(x) => Some(x)
  }

  lemma {:induction false} OptionalFoldLookup(snap: OHash<Entry>, i: nat, k: string, model: Model, fields: seq<string>)
    requires UniqueKeys(snap) && i <= |snap|
    ensures UniqueKeys(OptionalFold(snap[..i], snap, model, fields))
    ensures Lookup(OptionalFold(snap[..i], snap, model, fields), k) ==
              if HasKey(snap[..i], k) then OptionalOutcome(Lookup(snap, k), k, model, fields)
              else Lookup(snap, k)
    decreases i
  {
    if i > 0 {
      var x := snap[i - 1];
      assert snap[..i] == snap[..i - 1] + [x];
      assert snap[..i][..i - 1] == snap[..i - 1];
      OptionalFoldLookup(snap, i - 1, k, model, fields);
      OptionalFoldLookup(snap, i - 1, x.0, model, fields);
      var cur := OptionalFold(snap[..i - 1], snap, model, fields);
      assert OptionalFold(snap[..i], snap, model, fields) == OptionalStep(cur, x.0, x.1, model, fields);
      LookupAt(snap, i - 1);
      LookupSnoc(snap[..i - 1], x, k);
      LookupSnoc(snap[..i - 1], x, x.0);
      OptionalStepLookup(cur, x.0, x.1, model, fields, k);
    }
  }

  /** One visited pair: an optional entry is computed or removed under its key, nothing else changes. */
  lemma OptionalStepLookup(cur: OHash<Entry>, key: string, e: Entry, model: Model, fields: seq<string>, k: string)
    requires UniqueKeys(cur)
    ensures UniqueKeys(OptionalStep(cur, key, e, model, fields))
    ensures Lookup(OptionalStep(cur, key, e, model, fields), k) ==
              if k == key && e.Optional? then OptionalOutcome(Some(e), k, model, fields) else Lookup(cur, k)
  {
    if e.Optional? {
      if key in fields {
        PutLookup(cur, key, Val(Call(e.field, model)), k);
      } else {
        DeleteLookup(cur, key, k);
      }
    }
  }

  /**
   * `load_optional_fields!` as a whole: an optional field survives, with its
   * computed value, exactly when its key was requested; every other entry is
   * untouched; no key appears.
   */
  lemma OptionalFieldsLookup(s: Struct, k: string, model: Model, fields: seq<string>)
    ensures UniqueKeys(OptionalFold(s, s, model, fields))
    ensures Lookup(OptionalFold(s, s, model, fields), k) == OptionalOutcome(Lookup(s, k), k, model, fields)
  {
    assert s[..|s|] == s;
    OptionalFoldLookup(s, |s|, k, model, fields);
  }

  /** Without association placeholders, loading the optional fields leaves only plain values. */
  lemma OptionalsResolved(s: Struct, model: Model, fields: seq<string>)
    requires forall i :: 0 <= i < |s| ==> !s[i].1.Association?
    ensures AllPlain(OptionalFold(s, s, model, fields))
  {
    var o := OptionalFold(s, s, model, fields);
    OptionalFieldsLookup(s, "", model, fields);
    forall i | 0 <= i < |o| ensures o[i].1.Val? {
      var k := o[i].0;
      LookupAt(o, i);
      OptionalFieldsLookup(s, k, model, fields);
      var j := IndexOfKey(s, k).value;
      assert Lookup(s, k) == Some(s[j].1);
    }
  }

  /** `load_optional_fields!(model, struct, fields)`: walks a snapshot of the hash and edits it in place. */
  method LoadOptionalFields(model: Model, struct: Struct, fields: seq<string>) returns (r: Struct)
    ensures r == OptionalFold(struct, struct, model, fields)
    ensures forall k :: Lookup(r, k) == OptionalOutcome(Lookup(struct, k), k, model, fields)
  {
    var snapshot := struct;
    var cur: OHash<Entry> := struct;
    var i := 0;
    while i < |snapshot|
      invariant 0 <= i <= |snapshot|
      invariant cur == OptionalFold(snapshot[..i], struct, model, fields)
    {
      var (key, value) := snapshot[i];
      if value.Optional? {
        if key in fields {
          cur := Put(cur, key, Val(Call(value.field, model)));
        } else {
          cur := Delete(cur, key);
        }
      }
      assert snapshot[..i + 1][..i] == snapshot[..i];
      i := i + 1;
    }
    assert snapshot[..i] == struct;
    OptionalFieldsLookup(struct, "", model, fields);
    r := cur;
    forall k ensures Lookup(r, k) == OptionalOutcome(Lookup(struct, k), k, model, fields) {
      OptionalFieldsLookup(struct, k, model, fields);
    }
  }

  // ---------------------------------------------------------------------
  // load_associations!

  /** `a.is_a?(ActiveRecord::Base) ? a.id : a`: a record's id, any other value itself. */
  function IdOf(v: Value): Value {
    if v.Record? then Int(v.model.id) else v
  }

  /**
   * The pair `load_associations!` writes for the placeholder under `key`, if
   * any: `<key>_id` read from the model when `<method>_id` is one of its
   * columns, whether or not the association was requested; otherwise, for a
   * requested association, `<singular>_ids` for a list result and
   * `<singular>_id` for any other result. `singular` is the inflector's
   * `singularize`.
   */
  function AssociationTarget(key: string, a: AssociationField, model: Model, associations: seq<string>,
                             singular: string -> string): (r: Option<(string, Value)>)
    ensures MethodName(a.accessor).Some? && MethodName(a.accessor).value + "_id" in model.columns ==>
              r == Some((key + "_id", Send(model, MethodName(a.accessor).value + "_id")))
    ensures r.None? <==>
              key !in associations && !(MethodName(a.accessor).Some? && MethodName(a.accessor).value + "_id" in model.columns)
    ensures !(MethodName(a.accessor).Some? && MethodName(a.accessor).value + "_id" in model.columns) && key in associations ==>
              r.Some? && r.value.0 == singular(key) + (if Call(a.accessor, model).List? then "_ids" else "_id")
    ensures !(MethodName(a.accessor).Some? && MethodName(a.accessor).value + "_id" in model.columns) && key in associations ==>
              var res := Call(a.accessor, model);
              r.Some? &&
              (res.List? ==> r.value.1.List? && |r.value.1.items| == |res.items| &&
                             forall i :: 0 <= i < |res.items| ==> r.value.1.items[i] == IdOf(res.items[i])) &&
              (!res.List? ==> r.value.1 == IdOf(res))
  {
    var idAttr := MethodName(a.accessor);
    if idAttr.Some? && idAttr.value + "_id" in model.columns then
      Some((key + "_id", Send(model, idAttr.value + "_id")))
    else if key in associations then
      var result := Call(a.accessor, model);
      if result.List? then
        Some((singular(key) + "_ids", List(seq(|result.items|, i requires 0 <= i < |result.items| => IdOf(result.items[i])))))
      else
        Some((singular(key) + "_id", IdOf(result)))
    else
      None
  }

  /** One iteration of `load_associations!` over the pair `(key, e)` of the snapshot. */
  function AssociationStep(cur: OHash<Entry>, key: string, e: Entry, model: Model, associations: seq<string>,
                           singular: string -> string): OHash<Entry>
  {
    if !e.Association? then cur
    else
      var d := Delete(cur, key);
      match AssociationTarget(key, e.assoc, model, associations, singular)
      case None => d
      case Some((k, v)) => Put(d, k, Val(v))
  }

  /** The hash after the loop has visited the snapshot pairs `done`, starting from `s0`. */
  function AssociationFold(done: OHash<Entry>, s0: OHash<Entry>, model: Model, associations: seq<string>,
                           singular: string -> string): OHash<Entry>
    decreases |done|
  {
    if done == [] then s0
    else
      var last := done[|done| - 1];
      AssociationStep(AssociationFold(done[..|done| - 1], s0, model, associations, singular),
                      last.0, last.1, model, associations, singular)
  }

  /**
   * What one iteration does to the hash: the placeholder's key is gone, the
   * target (if any) holds the plain value, every other key is as before.
   */
  lemma AssociationStepLookup(cur: OHash<Entry>, key: string, a: AssociationField, model: Model,
                              associations: seq<string>, singular: string -> string, k: string)
    requires UniqueKeys(cur)
    ensures UniqueKeys(AssociationStep(cur, key, Association(a), model, associations, singular))
    ensures Lookup(AssociationStep(cur, key, Association(a), model, associations, singular), k) ==
              match AssociationTarget(key, a, model, associations, singular)
              case Some((t, v)) => if k == t then Some(Val(v)) else if k == key then None else Lookup(cur, k)
              case None => if k == key then None else Lookup(cur, k)
  {
    var d := Delete(cur, key);
    DeleteLookup(cur, key, k);
    match AssociationTarget(key, a, model, associations, singular)
    case None =>
    case Some((t, v)) => PutLookup(d, t, Val(v), k);
  }

  /** Every association placeholder still in `cur` is one the loop has yet to visit. */
  ghost predicate OnlyPending(cur: OHash<Entry>, pending: OHash<Entry>) {
    forall k :: Lookup(cur, k).Some? && Lookup(cur, k).value.Association? ==> Lookup(pending, k) == Lookup(cur, k)
  }

  lemma AssociationStepPending(cur: OHash<Entry>, x: (string, Entry), rest: OHash<Entry>, model: Model,
                               associations: seq<string>, singular: string -> string)
    requires UniqueKeys(cur) && OnlyPending(cur, [x] + rest)
    ensures UniqueKeys(AssociationStep(cur, x.0, x.1, model, associations, singular))
    ensures OnlyPending(AssociationStep(cur, x.0, x.1, model, associations, singular), rest)
  {
    var next := AssociationStep(cur, x.0, x.1, model, associations, singular);
    if x.1.Association? {
      AssociationStepLookup(cur, x.0, x.1.assoc, model, associations, singular, x.0);
    }
    forall k | Lookup(next, k).Some? && Lookup(next, k).value.Association?
      ensures Lookup(rest, k) == Lookup(next, k)
    {
      LookupCons(x, rest, k);
      if x.1.Association? {
        AssociationStepLookup(cur, x.0, x.1.assoc, model, associations, singular, k);
      }
    }
  }

  lemma {:induction false} AssociationFoldPending(snap: OHash<Entry>, i: nat, model: Model,
                                                  associations: seq<string>, singular: string -> string)
    requires UniqueKeys(snap) && i <= |snap|
    ensures UniqueKeys(AssociationFold(snap[..i], snap, model, associations, singular))
    ensures OnlyPending(AssociationFold(snap[..i], snap, model, associations, singular), snap[i..])
    decreases i
  {
    if i == 0 {
      assert snap[0..] == snap;
    } else {
      var x := snap[i - 1];
      assert snap[..i][..i - 1] == snap[..i - 1];
      assert snap[i - 1..] == [x] + snap[i..];
      AssociationFoldPending(snap, i - 1, model, associations, singular);
      AssociationStepPending(AssociationFold(snap[..i - 1], snap, model, associations, singular),
                             x, snap[i..], model, associations, singular);
    }
  }

  /** After `load_associations!` no association placeholder is left. */
  lemma AssociationsResolved(s: Struct, model: Model, associations: seq<string>, singular: string -> string)
    ensures UniqueKeys(AssociationFold(s, s, model, associations, singular))
    ensures forall i :: 0 <= i < |AssociationFold(s, s, model, associations, singular)| ==>
              !AssociationFold(s, s, model, associations, singular)[i].1.Association?
  {
    assert s[..|s|] == s;
    AssociationFoldPending(s, |s|, model, associations, singular);
    var r := AssociationFold(s, s, model, associations, singular);
    forall i | 0 <= i < |r| ensures !r[i].1.Association? {
      LookupAt(r, i);
    }
  }

  /** `load_associations!(model, struct, associations)`: walks a snapshot of the hash and edits it in place. */
  method LoadAssociations(model: Model, struct: Struct, associations: seq<string>, singular: string -> string)
    returns (r: Struct)
    ensures r == AssociationFold(struct, struct, model, associations, singular)
    ensures forall i :: 0 <= i < |r| ==> !r[i].1.Association?
  {
    var snapshot := struct;
    var cur: OHash<Entry> := struct;
    var i := 0;
    while i < |snapshot|
      invariant 0 <= i <= |snapshot|
      invariant cur == AssociationFold(snapshot[..i], struct, model, associations, singular)
    {
      var (key, value) := snapshot[i];
      if value.Association? {
        cur := Delete(cur, key);
        var idAttr := MethodName(value.assoc.accessor);
        if idAttr.Some? && idAttr.value + "_id" in model.columns {
          cur := Put(cur, key + "_id", Val(Send(model, idAttr.value + "_id")));
        } else if key in associations {
          var result := Call(value.assoc.accessor, model);
          if result.List? {
            var ids := seq(|result.items|, j requires 0 <= j < |result.items| => IdOf(result.items[j]));
            cur := Put(cur, singular(key) + "_ids", Val(List(ids)));
          } else {
            cur := Put(cur, singular(key) + "_id", Val(IdOf(result)));
          }
        }
      }
      assert snapshot[..i + 1][..i] == snapshot[..i];
      i := i + 1;
    }
    assert snapshot[..i] == struct;
    AssociationsResolved(struct, model, associations, singular);
    r := cur;
  }

  // ---------------------------------------------------------------------
  // post_process / group_present

  predicate AllPlain(h: OHash<Entry>) {
    forall i :: 0 <= i < |h| ==> h[i].1.Val?
  }

  function Plain(h: OHash<Entry>): seq<(string, Value)>
    requires AllPlain(h)
  {
    seq(|h|, i requires 0 <= i < |h| => (h[i].0, h[i].1.v))
  }

  /** The hash once both kinds of placeholder are resolved, in the order `post_process` resolves them. */
  function Resolved(s: Struct, model: Model, fields: seq<string>, associations: seq<string>,
                    singular: string -> string): (r: Struct)
    ensures AllPlain(r)
  {
    AssociationsResolved(s, model, associations, singular);
    var a: Struct := AssociationFold(s, s, model, associations, singular);
    OptionalFieldsLookup(a, "", model, fields);
    OptionalsResolved(a, model, fields);
    OptionalFold(a, a, model, fields)
  }

  /**
   * `post_process`: associations, then optional fields, then dates, then
   * times. The output is a hash with no date and no time left in it.
   */
  function PostProcessed(s: Struct, model: Model, fields: seq<string>, associations: seq<string>,
                         singular: string -> string): (r: Value)
    ensures r.Hash? && NoDates(r) && NoTimes(r)
    ensures |r.entries| == |Resolved(s, model, fields, associations, singular)|
    ensures forall i :: 0 <= i < |r.entries| ==> r.entries[i].0 == Resolved(s, model, fields, associations, singular)[i].0
  {
    var h := Hash(Plain(Resolved(s, model, fields, associations, singular)));
    DatetimesToEpoch(DatesToStrings(h))
  }

  /**
   * The values `post_process` returns are the resolved values with every Date
   * turned into its `%F` string, every time into its epoch seconds, and
   * every other leaf as it was.
   */
  lemma PostProcessedLeaves(s: Struct, model: Model, fields: seq<string>, associations: seq<string>,
                            singular: string -> string)
    ensures var plain := Plain(Resolved(s, model, fields, associations, singular));
            var r := PostProcessed(s, model, fields, associations, singular);
            |r.entries| == |plain| &&
            forall i :: 0 <= i < |plain| ==> LeafwiseImage(plain[i].1, r.entries[i].1, NormalLeaf)
  {
    NormalisedLeafwise(Hash(Plain(Resolved(s, model, fields, associations, singular))));
  }

  /** `post_process(struct, model, fields, associations)`, with its in-place steps. */
  method PostProcess(s: Struct, model: Model, fields: seq<string>, associations: seq<string>,
                     singular: string -> string) returns (r: Value)
    ensures r == PostProcessed(s, model, fields, associations, singular)
  {
    var a := LoadAssociations(model, s, associations, singular);
    var o := LoadOptionalFields(model, a, fields);
    OptionalsResolved(a, model, fields);
    var dated := DatesToStrings(Hash(Plain(o)));
    r := DatetimesToEpoch(dated);
  }

  // ---------------------------------------------------------------------
  // The class-level DSL and presenter instances

  /** A declared sort order: a block `(scope, direction) -> scope`, or an SQL column or expression. */
  datatype SortOrder = SortBlock(apply: (Scope, string) -> Scope) | SortColumn(sql: string)

  /** A declared filter: its options (`:default`, nil when absent) and its block `(scope, value) -> scope`, if any. */
  datatype FilterDecl = FilterDecl(default: Value, block: Option<(Scope, Value) -> Scope>)

  /**
   * A subclass of `ApiPresenter::Base`: the state its class-level
   * declarations build, and its `present` override.
   */
  class PresenterClass {
    /** The subclass's `present(model)`. */
    const present: Model -> Struct
    var defaultSortOrder: Option<string>
    /** `@sort_orders`: nil until the first `sort_order`; a declaration may store nil. */
    var sortOrders: Option<OHash<Option<SortOrder>>>
    /** `@filters`: nil until the first `filter`. */
    var filters: Option<OHash<FilterDecl>>

    constructor (present: Model -> Struct)
      ensures this.present == present
      ensures defaultSortOrder.None? && sortOrders.None? && filters.None?
    {
      this.present := present;
      defaultSortOrder := None;
      sortOrders := None;
      filters := None;
    }

    /** `default_sort_order(sort_string = nil)`: a setter with an argument, a getter without. */
    method DefaultSortOrder(sortString: Option<string>) returns (r: Option<string>)
      modifies this
      ensures sortString.Some? ==> defaultSortOrder == sortString
      ensures sortString.None? ==> defaultSortOrder == old(defaultSortOrder)
      ensures r == defaultSortOrder
      ensures sortOrders == old(sortOrders) && filters == old(filters)
    {
      if sortString.Some? {
        defaultSortOrder := sortString;
      }
      r := defaultSortOrder;
    }

    /** `sort_order(name, order = nil, &block)`: the block in preference to the order; a redeclaration replaces. */
    method SortOrder(name: string, order: Option<string>, block: Option<(Scope, string) -> Scope>)
      returns (r: Option<SortOrder>)
      modifies this
      ensures block.Some? ==> r == Some(SortBlock(block.value))
      ensures block.None? ==> r == if order.Some? then Some(SortColumn(order.value)) else None
      ensures sortOrders.Some?
      ensures old(sortOrders).None? ==> sortOrders.value == [(name, r)]
      ensures old(sortOrders).Some? ==> sortOrders.value == Put(old(sortOrders).value, name, r)
      ensures defaultSortOrder == old(defaultSortOrder) && filters == old(filters)
    {
      var table := if sortOrders.Some? then sortOrders.value else [];
      r := if block.Some? then Some(SortBlock(block.value))
           else if order.Some? then Some(SortColumn(order.value))
           else None;
      sortOrders := Some(Put(table, name, r));
    }

    /** `filter(name, options = {}, &block)`: stores `[options, block]`; a redeclaration replaces. */
    method Filter(name: string, default: Value, block: Option<(Scope, Value) -> Scope>) returns (r: FilterDecl)
      modifies this
      ensures r == FilterDecl(default, block)
      ensures filters.Some?
      ensures old(filters).None? ==> filters.value == [(name, r)]
      ensures old(filters).Some? ==> filters.value == Put(old(filters).value, name, r)
      ensures defaultSortOrder == old(defaultSortOrder) && sortOrders == old(sortOrders)
    {
      var table := if filters.Some? then filters.value else [];
      r := FilterDecl(default, block);
      filters := Some(Put(table, name, r));
    }
  }

  /** The lookup a redeclared name sees: the latest declaration. */
  lemma RedeclarationWins<V>(table: OHash<V>, name: string, first: V, second: V, k: string)
    requires UniqueKeys(table)
    ensures Lookup(Put(Put(table, name, first), name, second), k) == Lookup(Put(table, name, second), k)
  {
    PutLookup(table, name, first, k);
    PutLookup(Put(table, name, first), name, second, k);
    PutLookup(table, name, second, k);
  }

  /** An instance of a presenter subclass; its declarations are those of its class. */
  class Presenter {
    const klass: PresenterClass

    constructor (klass: PresenterClass)
      ensures this.klass == klass
    {
      this.klass := klass;
    }

    /**
     * `group_present(models, fields, associations)`: one output hash per
     * model, in order, each the post-processed `present(model)`.
     */
    function GroupPresent(models: seq<Model>, fields: seq<string>, associations: seq<string>,
                          singular: string -> string): (r: seq<Value>)
      ensures |r| == |models|
      ensures forall i :: 0 <= i < |r| ==>
                r[i] == PostProcessed(klass.present(models[i]), models[i], fields, associations, singular)
      ensures forall i :: 0 <= i < |r| ==> r[i].Hash? && NoDates(r[i]) && NoTimes(r[i])
    {
      seq(|models|, i requires 0 <= i < |models| =>
        PostProcessed(klass.present(models[i]), models[i], fields, associations, singular))
    }
  }
}
