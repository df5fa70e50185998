/**
 * The action registry: the definitions the node palette offers and the
 * handlers the executor dispatches to, each kept in a dictionary keyed by
 * action id and filled as the action modules register themselves.
 *
 * Python dictionaries remember insertion order and overwriting a key keeps
 * its slot; the registry therefore keeps the keys of its definitions in a
 * repetition-free sequence beside the map.
 */
module Actions {
  import opened Models
  import opened Seqs

  /** The definitions of `ds` for node type `t`, in the order of `ds`. */
  function OfType(ds: seq<NodeActionDefinition>, t: NodeType): (r: seq<NodeActionDefinition>)
    ensures |r| <= |ds|
    ensures forall d :: d in r ==> d.nodeType == t
  {
    if ds == [] then []
    else (if ds[0].nodeType == t then [ds[0]] else []) + OfType(ds[1..], t)
  }

  /** Filtering distributes over concatenation: the result keeps the registry's order. */
  lemma {:induction false} OfTypeAppend(a: seq<NodeActionDefinition>, b: seq<NodeActionDefinition>, t: NodeType)
    ensures OfType(a + b, t) == OfType(a, t) + OfType(b, t)
  {
    if a != [] {
      var head := if a[0].nodeType == t then [a[0]] else [];
      assert (a + b)[0] == a[0] && (a + b)[1..] == a[1..] + b;
      assert OfType(a + b, t) == head + OfType(a[1..] + b, t);
      OfTypeAppend(a[1..], b, t);
      assert OfType(a, t) == head + OfType(a[1..], t);
    } else {
      assert a + b == b;
    }
  }

  /** Exactly the definitions of type `t` are kept. */
  lemma {:induction false} OfTypeMembers(ds: seq<NodeActionDefinition>, t: NodeType, d: NodeActionDefinition)
    ensures d in OfType(ds, t) <==> d in ds && d.nodeType == t
  {
    if ds != [] {
      OfTypeMembers(ds[1..], t, d);
      assert ds == [ds[0]] + ds[1..];
    }
  }

  /** A sequence of definitions of type `t` only is kept whole. */
  lemma {:induction false} OfTypeAll(ds: seq<NodeActionDefinition>, t: NodeType)
    requires forall i :: 0 <= i < |ds| ==> ds[i].nodeType == t
    ensures OfType(ds, t) == ds
  {
    if ds != [] {
      OfTypeAll(ds[1..], t);
    }
  }

  /** Filtering twice by the same type is filtering once. */
  lemma OfTypeIdempotent(ds: seq<NodeActionDefinition>, t: NodeType)
    ensures OfType(OfType(ds, t), t) == OfType(ds, t)
  {
    var r := OfType(ds, t);
    forall i | 0 <= i < |r| ensures r[i].nodeType == t {
      assert r[i] in r;
    }
    OfTypeAll(r, t);
  }

  /** The definitions `dict.values()` yields: those of `defs` in key order `ids`. */
  function Listed(defs: map<string, NodeActionDefinition>, ids: seq<string>): (ds: seq<NodeActionDefinition>)
    requires forall i :: 0 <= i < |ids| ==> ids[i] in defs
  {
    seq(|ids|, i requires 0 <= i < |ids| => defs[ids[i]])
  }

  /** Overwriting a key that is already listed replaces its definition in its own slot. */
  lemma ListedReplace(defs: map<string, NodeActionDefinition>, ids: seq<string>, k: nat, d: NodeActionDefinition)
    requires NoDup(ids)
    requires forall i :: 0 <= i < |ids| ==> ids[i] in defs
    requires k < |ids|
    ensures Listed(defs[ids[k] := d], ids) == Listed(defs, ids)[k := d]
  {
    forall i | 0 <= i < |ids| && i != k ensures ids[i] != ids[k] {
      if i < k { assert ids[i] != ids[k]; } else { assert ids[k] != ids[i]; }
    }
  }

  /** Adding a new key lists its definition last and leaves the others as they were. */
  lemma ListedAppend(defs: map<string, NodeActionDefinition>, ids: seq<string>, d: NodeActionDefinition)
    requires forall i :: 0 <= i < |ids| ==> ids[i] in defs
    requires d.id !in ids
    ensures Listed(defs[d.id := d], ids + [d.id]) == Listed(defs, ids) + [d]
  {
    forall i | 0 <= i < |ids| ensures ids[i] != d.id {
      assert ids[i] in ids;
    }
  }

  /** The listed definitions are the map's values. */
  lemma ListedValues(defs: map<string, NodeActionDefinition>, ids: seq<string>, d: NodeActionDefinition)
    requires forall id :: id in defs <==> id in ids
    ensures d in Listed(defs, ids) <==> d in defs.Values
  {
    var ds := Listed(defs, ids);
    if d in defs.Values {
      var id :| id in defs && defs[id] == d;
      var i :| 0 <= i < |ids| && ids[i] == id;
      assert ds[i] == d;
    }
  }

  /** Filtering the listed definitions by type keeps exactly the registered definitions of that type. */
  lemma RegisteredOfType(defs: map<string, NodeActionDefinition>, ids: seq<string>, t: NodeType)
    requires forall id :: id in defs <==> id in ids
    ensures forall d :: d in OfType(Listed(defs, ids), t) <==> d in defs.Values && d.nodeType == t
  {
    forall d ensures d in OfType(Listed(defs, ids), t) <==> d in defs.Values && d.nodeType == t {
      OfTypeMembers(Listed(defs, ids), t, d);
      ListedValues(defs, ids, d);
    }
  }

  /** `ACTION_DEFS` and `ACTION_HANDLERS`. */
  class Registry {
    var defs: map<string, NodeActionDefinition>
    var order: seq<string>   // the keys of `defs` in insertion order
    var handlers: map<string, Handler>

    ghost predicate Valid()
      reads this
    {
      NoDup(order) && (forall id :: id in defs <==> id in order)
    }

    constructor ()
      ensures Valid()
      ensures defs == map[] && order == [] && handlers == map[]
    {
      defs := map[];
      order := [];
      handlers := map[];
    }

    /** `ACTION_DEFS.values()`. */
    function Definitions(): seq<NodeActionDefinition>
      reads this
      requires Valid()
    {
      Listed(defs, order)
    }

    /**
     * `register_action`: store `defn` under its id and return that id. An id
     * already present is overwritten without error and keeps its slot in the
     * order; a new one goes last. The handlers are untouched.
     */
    method RegisterAction(defn: NodeActionDefinition) returns (id: string)
      requires Valid()
      modifies this
      ensures Valid()
      ensures id == defn.id
      ensures defs == old(defs)[defn.id := defn]
      ensures defn.id in old(defs) ==> order == old(order)
      ensures defn.id !in old(defs) ==> order == old(order) + [defn.id]
      ensures handlers == old(handlers)
      ensures forall k :: 0 <= k < |order| && order[k] == defn.id ==>
        Definitions() == if defn.id in old(defs) then old(Definitions())[k := defn] else old(Definitions()) + [defn]
    {
      if defn.id in defs {
        forall k | 0 <= k < |order| && order[k] == defn.id
          ensures Listed(defs[defn.id := defn], order) == Listed(defs, order)[k := defn]
        {
          ListedReplace(defs, order, k, defn);
        }
      } else {
        NoDupSnoc(order, defn.id);
        ListedAppend(defs, order, defn);
        forall k | 0 <= k < |order| + 1 && (order + [defn.id])[k] == defn.id ensures k == |order| {
          if k < |order| {
            assert false;
          }
        }
        order := order + [defn.id];
      }
      defs := defs[defn.id := defn];
      id := defn.id;
    }

    /**
     * `register_handler(action_id)` applied to `fn`: map the id to the
     * handler, overwriting any earlier one, and hand `fn` back unchanged.
     */
    method RegisterHandler(actionId: string, fn: Handler) returns (r: Handler)
      modifies this
      ensures r == fn
      ensures handlers == old(handlers)[actionId := fn]
      ensures defs == old(defs) && order == old(order)
    {
      handlers := handlers[actionId := fn];
      r := fn;
    }

    /**
     * `get_actions_for_node_type`: the registered definitions for node type
     * `t`, in registration order.
     */
    function ActionsForNodeType(t: NodeType): (r: seq<NodeActionDefinition>)
      reads this
      requires Valid()
      ensures forall d :: d in r <==> d in defs.Values && d.nodeType == t
    {
      RegisteredOfType(defs, order, t);
      OfType(Definitions(), t)
    }
  }
}
