/**
 * `Brainstem::DSL::Configuration`, the hash-like object behind the
 * presenter DSL: a configuration defers to its parent for every key it
 * does not hold a truthy value for itself, except keys the parent's list of
 * nonheritable keys names. A nested configuration or an inheritable append
 * set found in the parent is not handed out as it is: the first lookup
 * wraps it in a fresh child of the same kind and stores that wrapper, so
 * that later writes land in the child and never in the parent.
 *
 * `InheritableAppendSet` is the list-valued counterpart: its items are the
 * parent set's items followed by its own.
 */
module DslConfiguration {
  import opened RubyCore
  import opened Values

  /**
   * The `nonheritable_keys` array. A configuration built with a parent does
   * not copy the parent's array: it keeps the very same object.
   */
  class KeyList {
    var items: seq<string>

    constructor ()
      ensures items == []
    {
      items := [];
    }
  }

  /** What a configuration stores under a key. */
  datatype Slot = Plain(v: Value) | Nested(node: Configuration) | Appended(list: AppendSet)

  /**
   * A stored container is always well linked to its ancestors; every object
   * the constructors below build is.
   */
  type LinkedSlot = s: Slot | (s.Nested? ==> s.node.Linked()) && (s.Appended? ==> s.list.Linked())
    witness Plain(Nil)

  /** The insertion-ordered `@storage` hash: one pair per key. */
  type Store = h: OHash<LinkedSlot> | UniqueKeys(h) witness []

  predicate SlotTruthy(s: Slot) {
    !s.Plain? || Truthy(s.v)
  }

  predicate IsContainer(s: Slot) {
    s.Nested? || s.Appended?
  }

  /** `r` is what a lookup hands out for the parent's `p`: a child wrapping `p` if it is a container, `p` itself otherwise. */
  predicate Wraps(r: Slot, p: Slot) {
    match p
    case Plain(_) => r == p
    case Nested(c) => r.Nested? && r.node.parent == c
    case Appended(a) => r.Appended? && r.list.parent == a
  }

  /** A container with nothing of its own yet. */
  predicate EmptyContainer(s: Slot)
    reads if s.Nested? then {s.node} else {}, if s.Appended? then {s.list} else {}
  {
    match s
    case Plain(_) => false
    case Nested(c) => c.storage == []
    case Appended(a) => a.own == []
  }

  /** A lookup's meaning from its parts: a truthy own value wins, then a hidden key means nil, then the parent's meaning. */
  ghost function MeaningStep(own: LinkedSlot, hidden: bool, inherited: Slot): Slot {
    if SlotTruthy(own) then Erase(own) else if hidden then Plain(Nil) else inherited
  }

  /**
   * A slot up to wrappers: each container is replaced by the object at the
   * top of its chain of parents, so a wrapper and what it wraps coincide.
   */
  ghost function Erase(s: LinkedSlot): Slot {
    match s
    case Plain(_) => s
    case Nested(c) => Nested(c.Origin())
    case Appended(a) => Appended(a.Origin())
  }

  // ---------------------------------------------------------------------
  // InheritableAppendSet

  class AppendSet {
    const parent: AppendSet?
    var own: seq<Value>
    ghost const depth: nat
    ghost const chain: set<AppendSet>

    /** `chain` is this set and its ancestors, and the parent links are finite. */
    ghost predicate Linked()
      decreases depth
    {
      this in chain &&
      if parent == null then chain == {this}
      else
        parent.depth < depth && this !in parent.chain && chain == {this} + parent.chain &&
        parent.Linked()
    }

    /** `InheritableAppendSet.new(parent_array)`. */
    constructor (p: AppendSet?)
      requires p != null ==> p.Linked()
      ensures Linked() && parent == p && own == []
    {
      parent := p;
      own := [];
      depth := if p == null then 0 else p.depth + 1;
      chain := if p == null then {this} else {this} + p.chain;
    }

    ghost function Origin(): (o: AppendSet)
      requires Linked()
      decreases depth
      ensures o.parent == null
    {
      if parent == null then this else parent.Origin()
    }

    /** `to_a`: the parent's items, then this set's own. */
    function ToA(): seq<Value>
      reads chain
      requires Linked()
      decreases depth
    {
      (if parent == null then [] else parent.ToA()) + own
    }

    /** `empty?`, delegated to `to_a`. */
    predicate IsEmpty()
      reads chain
      requires Linked()
    {
      ToA() == []
    }

    /** `push` (and `<<`): appends to this set only; returns its own items. */
    method Push(item: Value) returns (r: seq<Value>)
      requires Linked()
      modifies this
      ensures own == old(own) + [item] && r == own
      ensures ToA() == old(ToA()) + [item]
    {
      own := own + [item];
      r := own;
    }

    /** `concat`: appends every item, in order, to this set only; returns its own items. */
    method Concat(items: seq<Value>) returns (r: seq<Value>)
      requires Linked()
      modifies this
      ensures own == old(own) + items && r == own
      ensures ToA() == old(ToA()) + items
    {
      own := own + items;
      r := own;
    }
  }

  // ---------------------------------------------------------------------
  // Configuration

  class Configuration {
    const parent: Configuration?
    const nonheritable: KeyList
    var storage: Store
    ghost const depth: nat
    ghost const chain: set<Configuration>

    /**
     * `chain` is this configuration and its ancestors, the parent links are
     * finite, and the whole chain shares one nonheritable list.
     */
    ghost predicate Linked()
      decreases depth
    {
      this in chain &&
      (forall n | n in chain :: n.chain <= chain && n.nonheritable == nonheritable) &&
      if parent == null then chain == {this}
      else
        parent.depth < depth && this !in parent.chain && chain == {this} + parent.chain &&
        nonheritable == parent.nonheritable && parent.Linked()
    }

    /** `Configuration.new(parent_configuration)`. */
    constructor (p: Configuration?)
      requires p != null ==> p.Linked()
      ensures Linked() && parent == p && storage == []
      ensures p == null ==> fresh(nonheritable) && nonheritable.items == []
      ensures p != null ==> nonheritable == p.nonheritable
    {
      parent := p;
      if p == null {
        nonheritable := new KeyList();
      } else {
        nonheritable := p.nonheritable;
      }
      storage := [];
      depth := if p == null then 0 else p.depth + 1;
      chain := if p == null then {this} else {this} + p.chain;
    }

    ghost function Origin(): (o: Configuration)
      requires Linked()
      decreases depth
      ensures o.parent == null
    {
      if parent == null then this else parent.Origin()
    }

    /** `@storage[key]`: nil for a key this configuration does not store. */
    function Own(key: string): LinkedSlot
      reads this
    {
      match Lookup(storage, key)
      case Some(s) => s
      case None => Plain(Nil)
    }

    /** `parent_nonheritable_keys`: the parent's list, or none for a root. */
    function ParentNonheritableKeys(): seq<string>
      reads nonheritable
      requires Linked()
    {
      if parent == null then [] else parent.nonheritable.items
    }

    /** `key_nonheritable_in_parent?`. */
    predicate KeyNonheritableInParent(key: string)
      reads nonheritable
      requires Linked()
    {
      key in ParentNonheritableKeys()
    }

    /** What `get!` returns for `key`, before any wrapper is made: a truthy own value, else the inherited one. */
    ghost function Resolved(key: string): LinkedSlot
      reads chain, nonheritable
      requires Linked()
      decreases depth, 1
    {
      if SlotTruthy(Own(key)) then Own(key) else Inherited(key)
    }

    /** Nil when there is no parent or the parent marks `key` nonheritable; the parent's value otherwise. */
    ghost function Inherited(key: string): LinkedSlot
      reads chain, nonheritable
      requires Linked()
      decreases depth, 0
    {
      if parent == null || KeyNonheritableInParent(key) then Plain(Nil) else parent.Resolved(key)
    }

    /**
     * What a lookup of `key` means, up to wrappers: `Resolved(key)` with every
     * container erased (see `MeaningOfResolved`), defined one step at a time.
     */
    ghost function Meaning(key: string): Slot
      reads chain, nonheritable
      requires Linked()
      decreases depth, 1
    {
      MeaningStep(Own(key), parent == null || KeyNonheritableInParent(key), ParentMeaning(key))
    }

    /** The meaning the parent gives `key`, or nil for a root. */
    ghost function ParentMeaning(key: string): Slot
      reads chain, nonheritable
      requires Linked()
      decreases depth, 0
    {
      if parent == null then Plain(Nil) else parent.Meaning(key)
    }

    function ParentVisibleKeys(): seq<string>
      reads chain, nonheritable
      requires Linked()
      decreases depth, 1
    {
      if parent == null then [] else parent.KeysVisibleToChildren()
    }

    /** `keys`: the parent's heritable keys, then the own keys not among them. */
    function Keys(): (ks: seq<string>)
      reads chain, nonheritable
      requires Linked()
      decreases depth, 2
      ensures NoDuplicates(ks)
      ensures forall k :: k in ks <==> k in ParentVisibleKeys() || k in KeysOf(storage)
    {
      Union(ParentVisibleKeys(), KeysOf(storage))
    }

    /** `keys_visible_to_children`: `keys - nonheritable_keys`. */
    function KeysVisibleToChildren(): seq<string>
      reads chain, nonheritable
      requires Linked()
      decreases depth, 3
    {
      Without(Keys(), nonheritable.items)
    }

    function ParentVisiblePairs(): OHash<LinkedSlot>
      reads chain, nonheritable
      requires Linked()
      decreases depth, 1
    {
      if parent == null then [] else parent.PairsVisibleToChildren()
    }

    /** `to_h`: the own storage merged over the parent's heritable pairs. */
    function ToH(): OHash<LinkedSlot>
      reads chain, nonheritable
      requires Linked()
      decreases depth, 2
    {
      Merge(ParentVisiblePairs(), storage)
    }

    /** `pairs_visible_to_children`: the pairs of `to_h` under a heritable key. */
    function PairsVisibleToChildren(): OHash<LinkedSlot>
      reads chain, nonheritable
      requires Linked()
      decreases depth, 4
    {
      SelectKeys(ToH(), KeysVisibleToChildren())
    }

    /** `has_key?`: stored here, or known to the parent and heritable. */
    predicate HasKey(key: string)
      reads chain, nonheritable
      requires Linked()
      decreases depth
    {
      RubyCore.HasKey(storage, key) ||
      (parent != null && parent.HasKey(key) && !KeyNonheritableInParent(key))
    }

    /** `length`. */
    function Length(): nat
      reads chain, nonheritable
      requires Linked()
    {
      |Keys()|
    }

    /** `empty?`, delegated to `keys`. */
    predicate IsEmpty()
      reads chain, nonheritable
      requires Linked()
    {
      Keys() == []
    }

    /** No lookup in the chain means anything different from before. */
    twostate predicate MeaningsKept()
      requires Linked()
      reads chain, nonheritable
    {
      forall n, k | n in chain && n.Linked() :: n.Meaning(k) == old(n.Meaning(k))
    }

    /**
     * `get!` (and `[]`): a truthy own value; else nil for a key the parent
     * marks nonheritable (or for a root); else the parent's value, where a
     * container is replaced by a fresh wrapper that is stored here.
     */
    method Get(key: string) returns (r: LinkedSlot)
      requires Linked()
      modifies chain
      decreases depth, 1
      ensures r == Resolved(key)
      ensures Erase(r) == old(Meaning(key))
      ensures MeaningsKept()
      ensures IsContainer(r) ==> Own(key) == r
      ensures forall k :: k != key ==> Own(k) == old(Own(k))
      ensures !IsContainer(r) ==> unchanged(chain)
      ensures SlotTruthy(old(Own(key))) ==> r == old(Own(key)) && unchanged(chain)
      ensures !SlotTruthy(old(Own(key))) && (parent == null || KeyNonheritableInParent(key)) ==>
                r == Plain(Nil)
      ensures !SlotTruthy(old(Own(key))) && parent != null && !KeyNonheritableInParent(key) ==>
                Wraps(r, parent.Resolved(key))
      ensures IsContainer(r) && !SlotTruthy(old(Own(key))) ==>
                EmptyContainer(r) && (r.Nested? ==> fresh(r.node)) && (r.Appended? ==> fresh(r.list)) && storage == Put(old(storage), key, r)
    {
      var mine := Own(key);
      if SlotTruthy(mine) {
        r := mine;
      } else if parent == null || KeyNonheritableInParent(key) {
        r := Plain(Nil);
        assert Resolved(key) == Inherited(key);
      } else {
        r := GetInherited(key);
        if IsContainer(r) {
          forall k | k != key ensures Own(k) == old(Own(k)) {
            PutLookup(old(storage), key, r, k);
          }
        }
      }
    }

    /** The `begin ... end` part of `get!`: the lookup in the parent, for a key this configuration holds no truthy value for. */
    method GetInherited(key: string) returns (r: LinkedSlot)
      requires Linked() && parent != null && !KeyNonheritableInParent(key) && !SlotTruthy(Own(key))
      modifies chain
      decreases depth, 0
      ensures r == Resolved(key) && Wraps(r, parent.Resolved(key))
      ensures Erase(r) == old(Meaning(key))
      ensures MeaningsKept()
      ensures IsContainer(r) ==> Own(key) == r && EmptyContainer(r) && (r.Nested? ==> fresh(r.node)) && (r.Appended? ==> fresh(r.list)) && storage == Put(old(storage), key, r)
      ensures !IsContainer(r) ==> unchanged(chain)
    {
      var p := parent.Get(key);
      if IsContainer(p) {
        r := CacheChild(key, p);
        assert parent.MeaningsKept();
        forall k ensures Meaning(k) == old(Meaning(k)) {
          if k == key {
            assert Meaning(k) == Erase(r);
          } else {
            PutLookup(old(storage), key, r, k);
            assert Own(k) == old(Own(k));
            assert ParentMeaning(k) == old(ParentMeaning(k));
          }
        }
        forall n, k | n in chain && n.Linked() ensures n.Meaning(k) == old(n.Meaning(k)) {
          if n != this {
            AncestorOutsideChild(this, n);
          }
        }
      } else {
        r := p;
      }
    }

    /**
     * `[]=`: refused when the current value is a nested configuration or an
     * append set (the lookup may have cached a wrapper by then); otherwise
     * the value is stored here, and only here.
     */
    method Set(key: string, value: LinkedSlot) returns (result: Result<LinkedSlot>)
      requires Linked()
      modifies chain
      ensures old(Resolved(key)).Nested? ==>
                result == Failure(RuntimeError("You cannot override a nested value")) && MeaningsKept()
      ensures old(Resolved(key)).Appended? ==>
                result == Failure(RuntimeError("You cannot override an inheritable array once set")) &&
                MeaningsKept()
      ensures old(Resolved(key)).Plain? ==>
                result == Success(value) && storage == Put(old(storage), key, value) &&
                unchanged(chain - {this})
      ensures old(Resolved(key)).Plain? ==>
                Resolved(key) == if SlotTruthy(value) then value else old(Inherited(key))
      ensures old(Resolved(key)).Plain? ==> forall k | k != key :: Resolved(k) == old(Resolved(k))
    {
      MeaningOfResolved(this, key);
      var existing := Get(key);
      if existing.Nested? {
        result := Failure(RuntimeError("You cannot override a nested value"));
      } else if existing.Appended? {
        result := Failure(RuntimeError("You cannot override an inheritable array once set"));
      } else {
        Store(key, value);
        result := Success(value);
      }
    }

    /** `@storage[key] = value`: only this configuration's lookups of `key` can change. */
    method Store(key: string, value: LinkedSlot)
      requires Linked()
      modifies this
      ensures storage == Put(old(storage), key, value) && Own(key) == value
      ensures Resolved(key) == if SlotTruthy(value) then value else old(Inherited(key))
      ensures forall k | k != key :: Resolved(k) == old(Resolved(k))
    {
      PutLookup(storage, key, value, key);
      storage := Put(storage, key, value);
      assert parent != null ==> this !in parent.chain;
      forall k | k != key ensures Resolved(k) == old(Resolved(k)) {
        PutLookup(old(storage), key, value, k);
        assert Own(k) == old(Own(k));
        assert Inherited(k) == old(Inherited(k));
      }
    }

    /**
     * `nest!`: after the lookup, the truthy value stored here under `key`,
     * or else a fresh root configuration stored under `key`.
     */
    method Nest(key: string) returns (r: LinkedSlot)
      requires Linked()
      modifies chain
      ensures Own(key) == r && SlotTruthy(r)
      ensures SlotTruthy(old(Own(key))) ==> r == old(Own(key)) && unchanged(chain)
      ensures !SlotTruthy(old(Own(key))) && IsContainer(old(Resolved(key))) ==>
                r == Resolved(key) && Erase(r) == old(Meaning(key)) && MeaningsKept()
      ensures !SlotTruthy(old(Own(key))) && !IsContainer(old(Resolved(key))) ==>
                r.Nested? && fresh(r.node) && r.node.parent == null && r.node.storage == [] &&
                storage == Put(old(storage), key, r) && unchanged(chain - {this})
    {
      MeaningOfResolved(this, key);
      var _ := Get(key);
      var mine := Own(key);
      if SlotTruthy(mine) {
        r := mine;
      } else {
        var c := new Configuration(null);
        r := Nested(c);
        PutLookup(storage, key, r, key);
        storage := Put(storage, key, r);
      }
    }

    /**
     * `array!`: after the lookup, the truthy value stored here under `key`,
     * or else a fresh root append set stored under `key`.
     */
    method Array(key: string) returns (r: LinkedSlot)
      requires Linked()
      modifies chain
      ensures Own(key) == r && SlotTruthy(r)
      ensures SlotTruthy(old(Own(key))) ==> r == old(Own(key)) && unchanged(chain)
      ensures !SlotTruthy(old(Own(key))) && IsContainer(old(Resolved(key))) ==>
                r == Resolved(key) && Erase(r) == old(Meaning(key)) && MeaningsKept()
      ensures !SlotTruthy(old(Own(key))) && !IsContainer(old(Resolved(key))) ==>
                r.Appended? && fresh(r.list) && r.list.parent == null && r.list.own == [] &&
                storage == Put(old(storage), key, r) && unchanged(chain - {this})
    {
      MeaningOfResolved(this, key);
      var _ := Get(key);
      var mine := Own(key);
      if SlotTruthy(mine) {
        r := mine;
      } else {
        var a := new AppendSet(null);
        r := Appended(a);
        PutLookup(storage, key, r, key);
        storage := Put(storage, key, r);
      }
    }

    /** `nonheritable!`: adds `key` to the shared list, once. */
    method NonHeritable(key: string)
      modifies nonheritable
      ensures nonheritable.items ==
                if key in old(nonheritable.items) then old(nonheritable.items)
                else old(nonheritable.items) + [key]
      ensures key in nonheritable.items
      ensures NoDuplicates(old(nonheritable.items)) ==> NoDuplicates(nonheritable.items)
    {
      if key !in nonheritable.items {
        nonheritable.items := nonheritable.items + [key];
      }
    }

    /**
     * `fetch`: a truthy value found by the lookup; otherwise a truthy default
     * when no block is given, the block's result when one is (called with the
     * default if truthy, with nothing otherwise), and `KeyError` when neither.
     */
    method Fetch(key: string, default: LinkedSlot, block: Option<LinkedSlot -> LinkedSlot>)
      returns (result: Result<LinkedSlot>)
      requires Linked()
      modifies chain
      ensures MeaningsKept()
      ensures SlotTruthy(old(Resolved(key))) ==>
                result.Success? && result.value == Resolved(key) && Erase(result.value) == old(Meaning(key))
      ensures !SlotTruthy(old(Resolved(key))) && block.None? ==>
                result == if SlotTruthy(default) then Success(default) else Failure(KeyError)
      ensures !SlotTruthy(old(Resolved(key))) && block.Some? ==>
                result == Success(block.value(if SlotTruthy(default) then default else Plain(Nil)))
    {
      MeaningOfResolved(this, key);
      var val := Get(key);
      if SlotTruthy(val) {
        result := Success(val);
      } else if SlotTruthy(default) && block.None? {
        result := Success(default);
      } else if block.Some? {
        result := Success(if SlotTruthy(default) then block.value(default) else block.value(Plain(Nil)));
      } else {
        result := Failure(KeyError);
      }
    }

    /** `each`: every key of `keys`, in order, with what a lookup returns for it. */
    method Each() returns (pairs: seq<(string, LinkedSlot)>)
      requires Linked()
      modifies chain
      ensures MeaningsKept()
      ensures |pairs| == |old(Keys())|
      ensures forall i :: 0 <= i < |pairs| ==>
                pairs[i].0 == old(Keys())[i] && Erase(pairs[i].1) == old(Meaning(Keys()[i]))
      ensures forall i :: 0 <= i < |pairs| && IsContainer(pairs[i].1) ==> Own(pairs[i].0) == pairs[i].1
    {
      var ks := Keys();
      pairs := [];
      var i := 0;
      while i < |ks|
        invariant 0 <= i <= |ks| && |pairs| == i
        invariant MeaningsKept()
        invariant forall j :: 0 <= j < i ==> pairs[j].0 == ks[j] && Erase(pairs[j].1) == old(Meaning(ks[j]))
        invariant forall j :: 0 <= j < i && IsContainer(pairs[j].1) ==> Own(ks[j]) == pairs[j].1
      {
        var v := Get(ks[i]);
        pairs := pairs + [(ks[i], v)];
        i := i + 1;
      }
    }

    /** `@storage[key] = Configuration.new(p)` (or `InheritableAppendSet.new(p)`): a fresh, empty child of `p`. */
    method CacheChild(key: string, p: LinkedSlot) returns (r: LinkedSlot)
      requires IsContainer(p)
      modifies this
      ensures Wraps(r, p) && Erase(r) == Erase(p) && EmptyContainer(r) && (r.Nested? ==> fresh(r.node)) && (r.Appended? ==> fresh(r.list))
      ensures storage == Put(old(storage), key, r) && Own(key) == r
    {
      if p.Nested? {
        var w := new Configuration(p.node);
        assert w.Origin() == p.node.Origin();
        r := Nested(w);
      } else {
        var w := new AppendSet(p.list);
        assert w.Origin() == p.list.Origin();
        r := Appended(w);
      }
      PutLookup(storage, key, r, key);
      storage := Put(storage, key, r);
    }
  }

  /** Every node of a chain is linked, and its own chain, depth and list are those of the chain. */
  lemma {:induction false} ChainClosed(top: Configuration, n: Configuration)
    requires top.Linked() && n in top.chain
    ensures n.Linked() && n.chain <= top.chain && n.depth <= top.depth
    ensures n.nonheritable == top.nonheritable
    decreases top.depth
  {
    if n != top {
      ChainClosed(top.parent, n);
    }
  }

  /** An ancestor of `c` lies in its parent's chain, and `c` lies in no ancestor's chain. */
  lemma AncestorOutsideChild(c: Configuration, n: Configuration)
    requires c.Linked() && c.parent != null && n in c.chain && n != c
    ensures n in c.parent.chain && n.chain <= c.parent.chain && c !in n.chain
  {
  }

  /** A lookup's meaning is what `get!` resolves the key to, with every container erased. */
  lemma {:induction false} MeaningOfResolved(n: Configuration, k: string)
    requires n.Linked()
    ensures n.Meaning(k) == Erase(n.Resolved(k))
    decreases n.depth
  {
    if !SlotTruthy(n.Own(k)) && n.parent != null && !n.KeyNonheritableInParent(k) {
      MeaningOfResolved(n.parent, k);
    }
  }

  /** `has_key?` answers exactly for the keys `keys` lists. */
  lemma {:induction false} HasKeyIffInKeys(n: Configuration, key: string)
    requires n.Linked()
    ensures n.HasKey(key) <==> key in n.Keys()
    decreases n.depth
  {
    HasKeyInKeys(n.storage, key);
    if n.parent != null {
      var p := n.parent;
      HasKeyIffInKeys(p, key);
      assert n.ParentVisibleKeys() == Without(p.Keys(), p.nonheritable.items);
      assert n.KeyNonheritableInParent(key) <==> key in p.nonheritable.items;
    }
    assert n.Keys() == Union(n.ParentVisibleKeys(), KeysOf(n.storage));
  }

  /** `to_h` holds exactly the keys of `keys`, in the same order, so `length` is its size. */
  lemma {:induction false} ToHKeys(n: Configuration)
    requires n.Linked()
    ensures UniqueKeys(n.ToH())
    ensures KeysOf(n.ToH()) == n.Keys()
    ensures |n.ToH()| == n.Length()
    decreases n.depth, 1
  {
    var pv := n.ParentVisiblePairs();
    ParentVisiblePairsKeys(n);
    MergeKeys(pv, n.storage);
    assert n.ToH() == Merge(pv, n.storage);
    assert n.Keys() == Union(n.ParentVisibleKeys(), KeysOf(n.storage));
  }

  /** `to_h` reads a key from the own storage when it is there, else from the parent's heritable pairs. */
  lemma ToHLookup(n: Configuration, key: string)
    requires n.Linked()
    ensures Lookup(n.ToH(), key) ==
              if RubyCore.HasKey(n.storage, key) then Lookup(n.storage, key)
              else Lookup(n.ParentVisiblePairs(), key)
  {
    ParentVisiblePairsKeys(n);
    MergeLookup(n.ParentVisiblePairs(), n.storage, key);
  }

  /**
   * What a configuration passes down: `keys_visible_to_children` is `keys`
   * without the nonheritable ones, and `pairs_visible_to_children` carries
   * exactly those keys, in that order.
   */
  lemma {:induction false} VisibleToChildren(p: Configuration)
    requires p.Linked()
    ensures forall k :: k in p.KeysVisibleToChildren() <==> k in p.Keys() && k !in p.nonheritable.items
    ensures UniqueKeys(p.PairsVisibleToChildren())
    ensures KeysOf(p.PairsVisibleToChildren()) == p.KeysVisibleToChildren()
    decreases p.depth, 2
  {
    ToHKeys(p);
    var h := p.ToH();
    var ks := p.KeysVisibleToChildren();
    assert ks == Without(p.Keys(), p.nonheritable.items);
    forall i | 0 <= i < |h|
      ensures h[i].0 in ks <==> h[i].0 !in p.nonheritable.items
    {
      assert KeysOf(h)[i] == h[i].0;
    }
    SelectKeysWithout(h, ks, p.nonheritable.items);
    assert p.PairsVisibleToChildren() == SelectKeys(h, ks);
    UniqueKeysOfDistinct(p.PairsVisibleToChildren());
  }

  /** The pairs a parent passes down carry exactly the keys it passes down. */
  lemma {:induction false} ParentVisiblePairsKeys(n: Configuration)
    requires n.Linked()
    ensures UniqueKeys(n.ParentVisiblePairs())
    ensures KeysOf(n.ParentVisiblePairs()) == n.ParentVisibleKeys()
    decreases n.depth, 0
  {
    if n.parent != null {
      VisibleToChildren(n.parent);
    }
  }

  /** Every configuration built under a root shares the root's nonheritable list. */
  lemma {:induction false} OneListPerTree(n: Configuration)
    requires n.Linked()
    ensures n.nonheritable == n.Origin().nonheritable
    decreases n.depth
  {
    if n.parent != null {
      OneListPerTree(n.parent);
    }
  }

  /**
   * A key marked nonheritable on any configuration of a tree is hidden from
   * every configuration of that tree that has a parent, the marking one
   * included: a lookup yields nil unless the configuration holds a truthy
   * value itself, and `keys`, `to_h` and `has_key?` know the key only where
   * it is stored.
   */
  lemma MarkingHides(marker: Configuration, n: Configuration, key: string)
    requires marker.Linked() && n.Linked() && marker.Origin() == n.Origin()
    requires key in marker.nonheritable.items && n.parent != null
    ensures n.Resolved(key) == if SlotTruthy(n.Own(key)) then n.Own(key) else Plain(Nil)
    ensures key in n.Keys() <==> RubyCore.HasKey(n.storage, key)
    ensures RubyCore.HasKey(n.ToH(), key) <==> RubyCore.HasKey(n.storage, key)
    ensures n.HasKey(key) <==> RubyCore.HasKey(n.storage, key)
  {
    OneListPerTree(marker);
    OneListPerTree(n);
    assert n.KeyNonheritableInParent(key);
    assert n.Inherited(key) == Plain(Nil);
    HasKeyInKeys(n.storage, key);
    assert n.ParentVisibleKeys() == Without(n.parent.Keys(), n.nonheritable.items);
    assert n.Keys() == Union(n.ParentVisibleKeys(), KeysOf(n.storage));
    ToHKeys(n);
    HasKeyInKeys(n.ToH(), key);
    HasKeyIffInKeys(n, key);
  }
}
