/**
 * Reconciliation of an instance's configuration with an update request:
 * the base configuration is merged with the one the request carries, and
 * every named context (overlay) the request carries is merged into the
 * stored context of that name or, if there is none, inserted as it is.
 *
 * The merge itself belongs to a reflection-based library outside this
 * model, so it is a parameter: every property here holds for any merge.
 */
module Overlay {
  import opened Results

  /** An error reported by the merge library, as its message. */
  type MergeError = string

  /**
   * The merge library as this core sees it.
   * `apply(dst, src)` overwrites `dst` with what `src` sets, or fails.
   * `intoNil(src)` is what the library reports when the destination is a
   * nil configuration pointer: an error, or none. The destination pointer
   * is passed by value, so in the second case it stays nil.
   */
  datatype Merger<!C> = Merger(apply: (C, C) -> Result<C, MergeError>, intoNil: C -> Option<MergeError>)

  /**
   * The base-configuration step of an update: no incoming base config
   * leaves the stored one as it is; otherwise the incoming one is merged
   * into it, and a merge failure is the outcome.
   */
  function MergeBase<C>(m: Merger<C>, dst: Option<C>, src: Option<C>): (r: Result<Option<C>, MergeError>)
    ensures src.None? ==> r == Success(dst)
    ensures dst.None? && r.Success? ==> r.value.None?
    ensures src.Some? && dst.None? ==> (r.Failure? <==> m.intoNil(src.value).Some?)
    ensures src.Some? && dst.Some? ==>
              (r.Success? <==> m.apply(dst.value, src.value).Success?) &&
              (r.Success? ==> r.value == Some(m.apply(dst.value, src.value).value))
    ensures r.Failure? ==>
              src.Some? &&
              (dst.Some? ==> m.apply(dst.value, src.value) == Failure(r.error)) &&
              (dst.None? ==> m.intoNil(src.value) == Some(r.error))
  {
    match src
    case None => Success(dst)
    case Some(s) =>
      match dst
      case None =>
        (match m.intoNil(s)
         case Some(e) => Failure(e)
         case None => Success(None))
      case Some(d) =>
        (match m.apply(d, s)
         case Success(c) => Success(Some(c))
         case Failure(e) => Failure(e))
  }

  /** Name `k` is in the request and in the stored contexts, and merging its incoming value fails. */
  ghost predicate Conflict<C>(merge: (C, C) -> Result<C, MergeError>, ctx: map<string, C>, incoming: map<string, C>, k: string)
  {
    k in incoming && k in ctx && merge(ctx[k], incoming[k]).Failure?
  }

  /** No name of `names` conflicts. */
  ghost predicate NoConflictOn<C>(merge: (C, C) -> Result<C, MergeError>, ctx: map<string, C>, incoming: map<string, C>, names: set<string>)
  {
    forall k :: k in names ==> !Conflict(merge, ctx, incoming, k)
  }

  /** Every incoming context can be merged into the stored one of the same name. */
  ghost predicate NoConflict<C>(merge: (C, C) -> Result<C, MergeError>, ctx: map<string, C>, incoming: map<string, C>)
  {
    NoConflictOn(merge, ctx, incoming, incoming.Keys)
  }

  /**
   * `r` is `ctx` after the incoming contexts named in `names` have been
   * reconciled into it: its names are the old names plus `names`; a name
   * outside `names` keeps its old value; a new name holds the incoming
   * value as it is; an existing name holds the merge of the incoming
   * value into the old one.
   */
  ghost predicate ReconciledOn<C>(merge: (C, C) -> Result<C, MergeError>, ctx: map<string, C>, incoming: map<string, C>,
                                     names: set<string>, r: map<string, C>)
  {
    && names <= incoming.Keys
    && r.Keys == ctx.Keys + names
    && (forall k :: k in ctx && k !in names ==> r[k] == ctx[k])
    && (forall k :: k in names && k !in ctx ==> r[k] == incoming[k])
    && (forall k :: k in names && k in ctx ==> merge(ctx[k], incoming[k]) == Success(r[k]))
  }

  /** `r` is `ctx` with every incoming context reconciled into it. */
  ghost predicate Reconciled<C>(merge: (C, C) -> Result<C, MergeError>, ctx: map<string, C>, incoming: map<string, C>, r: map<string, C>)
  {
    ReconciledOn(merge, ctx, incoming, incoming.Keys, r)
  }

  /** The names listed in a visiting order. */
  ghost function Names(order: seq<string>): set<string>
  {
    set k | k in order
  }

  /** A visiting order lists names of the request, each at most once. */
  ghost predicate VisitsIncoming<C>(incoming: map<string, C>, order: seq<string>)
  {
    && (forall i :: 0 <= i < |order| ==> order[i] in incoming)
    && (forall i, j :: 0 <= i < j < |order| ==> order[i] != order[j])
  }

  /**
   * The merge-or-insert loop run over the incoming names in the order
   * `order`: a name already present is replaced by the merge of its
   * incoming value into the current one, a new name gets the incoming
   * value, and the first failing merge ends the run with its error.
   */
  ghost function ApplyInOrder<C>(merge: (C, C) -> Result<C, MergeError>, ctx: map<string, C>, incoming: map<string, C>,
                                    order: seq<string>): Result<map<string, C>, MergeError>
    requires forall i :: 0 <= i < |order| ==> order[i] in incoming
  {
    if order == [] then Success(ctx)
    else
      var k := order[|order| - 1];
      match ApplyInOrder(merge, ctx, incoming, order[..|order| - 1])
      case Failure(e) => Failure(e)
      case Success(cur) =>
        if k in cur then
          (match merge(cur[k], incoming[k])
           case Success(c) => Success(cur[k := c])
           case Failure(e) => Failure(e))
        else Success(cur[k := incoming[k]])
  }

  /**
   * Running the loop over any order of distinct incoming names succeeds
   * exactly when none of them conflicts, and then reconciles exactly those
   * names; a failure is the error of one of them.
   */
  lemma {:induction false} ApplyInOrderReconciles<C>(merge: (C, C) -> Result<C, MergeError>, ctx: map<string, C>,
                                                        incoming: map<string, C>, order: seq<string>)
    requires VisitsIncoming(incoming, order)
    ensures ApplyInOrder(merge, ctx, incoming, order).Success? <==> NoConflictOn(merge, ctx, incoming, Names(order))
    ensures ApplyInOrder(merge, ctx, incoming, order).Success? ==>
              ReconciledOn(merge, ctx, incoming, Names(order), ApplyInOrder(merge, ctx, incoming, order).value)
    ensures ApplyInOrder(merge, ctx, incoming, order).Failure? ==>
              exists k :: k in Names(order) && Conflict(merge, ctx, incoming, k) &&
                          merge(ctx[k], incoming[k]) == Failure(ApplyInOrder(merge, ctx, incoming, order).error)
  {
    if order != [] {
      var prefix, k := order[..|order| - 1], order[|order| - 1];
      assert VisitsIncoming(incoming, prefix);
      ApplyInOrderReconciles(merge, ctx, incoming, prefix);
      assert Names(order) == Names(prefix) + {k} by {
        assert order == prefix + [k];
      }
      assert k !in Names(prefix) by {
        forall i | 0 <= i < |prefix|
          ensures prefix[i] != k
        {
          assert order[i] == prefix[i];
        }
      }
    }
  }

  /**
   * The outcome of the loop does not depend on the order in which Go's map
   * iteration visits the incoming names: any two complete orders both
   * succeed with the same contexts, or both fail.
   */
  lemma OrderDoesNotMatter<C>(merge: (C, C) -> Result<C, MergeError>, ctx: map<string, C>, incoming: map<string, C>,
                                 order1: seq<string>, order2: seq<string>)
    requires VisitsIncoming(incoming, order1) && Names(order1) == incoming.Keys
    requires VisitsIncoming(incoming, order2) && Names(order2) == incoming.Keys
    ensures ApplyInOrder(merge, ctx, incoming, order1).Success? == ApplyInOrder(merge, ctx, incoming, order2).Success?
    ensures ApplyInOrder(merge, ctx, incoming, order1).Success? ==>
              ApplyInOrder(merge, ctx, incoming, order1) == ApplyInOrder(merge, ctx, incoming, order2)
  {
    ApplyInOrderReconciles(merge, ctx, incoming, order1);
    ApplyInOrderReconciles(merge, ctx, incoming, order2);
    if ApplyInOrder(merge, ctx, incoming, order1).Success? {
      ReconciledIsUnique(merge, ctx, incoming, ApplyInOrder(merge, ctx, incoming, order1).value,
                         ApplyInOrder(merge, ctx, incoming, order2).value);
    }
  }

  /**
   * The merge-or-insert loop over the incoming contexts. Names are taken
   * in an arbitrary order, as Go's map iteration takes them; `order` is
   * the order this run took. The first failing merge aborts the loop.
   */
  method ReconcileContexts<C>(merge: (C, C) -> Result<C, MergeError>, ctx: map<string, C>, incoming: map<string, C>)
    returns (res: Result<map<string, C>, MergeError>, ghost order: seq<string>)
    ensures VisitsIncoming(incoming, order) && res == ApplyInOrder(merge, ctx, incoming, order)
    ensures res.Success? <==> NoConflict(merge, ctx, incoming)
    ensures res.Success? ==> Reconciled(merge, ctx, incoming, res.value)
    ensures res.Failure? ==> exists k :: Conflict(merge, ctx, incoming, k) && merge(ctx[k], incoming[k]) == Failure(res.error)
  {
    var contexts := ctx;
    var pending := incoming.Keys;
    order := [];
    while pending != {}
      invariant VisitsIncoming(incoming, order)
      invariant pending == incoming.Keys - Names(order)
      invariant ApplyInOrder(merge, ctx, incoming, order) == Success(contexts)
      decreases pending
    {
      var k :| k in pending;
      var v := incoming[k];
      ghost var visited := order;
      order := order + [k];
      assert order[..|order| - 1] == visited;
      assert Names(order) == Names(visited) + {k};
      if k in contexts {
        var merged := merge(contexts[k], v);
        if merged.Failure? {
          ApplyInOrderReconciles(merge, ctx, incoming, order);
          return Failure(merged.error), order;
        }
        contexts := contexts[k := merged.value];
      } else {
        contexts := contexts[k := v];
      }
      pending := pending - {k};
    }
    assert Names(order) == incoming.Keys by {
      forall k | k in Names(order)
        ensures k in incoming
      {
        var i :| 0 <= i < |order| && order[i] == k;
      }
      forall k | k in incoming
        ensures k in Names(order)
      {
        assert k !in pending;
      }
    }
    ApplyInOrderReconciles(merge, ctx, incoming, order);
    res := Success(contexts);
  }

  /** The outcome of reconciliation is determined by its inputs: whatever order the names are visited in, one map results. */
  lemma ReconciledIsUnique<C>(merge: (C, C) -> Result<C, MergeError>, ctx: map<string, C>, incoming: map<string, C>,
                                 r1: map<string, C>, r2: map<string, C>)
    requires Reconciled(merge, ctx, incoming, r1)
    requires Reconciled(merge, ctx, incoming, r2)
    ensures r1 == r2
  {
    forall k | k in r1
      ensures r1[k] == r2[k]
    {
      if k in incoming && k in ctx {
        assert merge(ctx[k], incoming[k]) == Success(r1[k]);
      }
    }
  }

  /** A request without contexts, or with an empty map of them, leaves the stored contexts as they were. */
  lemma NoIncomingLeavesContexts<C>(merge: (C, C) -> Result<C, MergeError>, ctx: map<string, C>, r: map<string, C>)
    requires Reconciled(merge, ctx, map[], r)
    ensures r == ctx
  {
    assert r.Keys == ctx.Keys;
  }

  /** Two requests naming disjoint contexts, one after the other, have the effect of one request carrying both. */
  lemma DisjointRequestsCompose<C>(merge: (C, C) -> Result<C, MergeError>, ctx: map<string, C>,
                                      inc1: map<string, C>, inc2: map<string, C>, r1: map<string, C>, r12: map<string, C>)
    requires inc1.Keys !! inc2.Keys
    requires Reconciled(merge, ctx, inc1, r1)
    requires Reconciled(merge, r1, inc2, r12)
    ensures Reconciled(merge, ctx, inc1 + inc2, r12)
  {
    var both := inc1 + inc2;
    forall k | k in both && k in ctx
      ensures merge(ctx[k], both[k]) == Success(r12[k])
    {
      if k in inc2 {
        assert k !in inc1 && r1[k] == ctx[k];
      }
    }
    forall k | k in both && k !in ctx
      ensures r12[k] == both[k]
    {
      if k in inc2 {
        assert k !in r1;
      }
    }
  }

  /** Two requests naming disjoint contexts commute. */
  lemma DisjointRequestsCommute<C>(merge: (C, C) -> Result<C, MergeError>, ctx: map<string, C>,
                                      inc1: map<string, C>, inc2: map<string, C>,
                                      a: map<string, C>, ab: map<string, C>, b: map<string, C>, ba: map<string, C>)
    requires inc1.Keys !! inc2.Keys
    requires Reconciled(merge, ctx, inc1, a) && Reconciled(merge, a, inc2, ab)
    requires Reconciled(merge, ctx, inc2, b) && Reconciled(merge, b, inc1, ba)
    ensures ab == ba
  {
    DisjointRequestsCompose(merge, ctx, inc1, inc2, a, ab);
    DisjointRequestsCompose(merge, ctx, inc2, inc1, b, ba);
    assert inc1 + inc2 == inc2 + inc1;
    ReconciledIsUnique(merge, ctx, inc1 + inc2, ab, ba);
  }
}
