/** idToTemplate: the memoised lookup from an `#id` selector to the inner HTML
    of the element it selects.  The memo keeps every computed value, but only a
    truthy stored value short-circuits a later call; an absent or empty entry is
    computed again, with a fresh document query. */
module TemplateCache {
  import opened Wrappers
  import opened Dom

  type Memo = map<string, Option<string>>

  /** The uncached computation: query the id, and take the match's innerHTML
      (`el && el.innerHTML`), or nothing when no element matches. */
  function TemplateById(doc: Document, id: string): (r: Option<string>)
    ensures r.Some? <==> id in doc
    ensures r.Some? ==> r.value == doc[id].innerHTML
  {
    match Query(doc, id)
    case Some(e) => Some(e.innerHTML)
    case None => None
  }

  /** A call for `id` is answered from the memo without querying the document. */
  predicate Hit(memo: Memo, id: string)
  {
    id in memo && Truthy(memo[id])
  }

  /** One call: the memo afterwards, the value returned, and whether the document was queried. */
  datatype StepResult = StepResult(memo: Memo, result: Option<string>, queried: bool)

  function Step(memo: Memo, doc: Document, id: string): (l: StepResult)
    ensures l.queried <==> !Hit(memo, id)
    ensures !l.queried ==> l.memo == memo && l.result == memo[id]
    ensures l.queried ==> l.result == TemplateById(doc, id) && l.memo == memo[id := l.result]
    ensures id in l.memo && l.memo[id] == l.result
    ensures Hit(l.memo, id) <==> Truthy(l.result)
  {
    if Hit(memo, id) then StepResult(memo, memo[id], false)
    else
      var v := TemplateById(doc, id);
      StepResult(memo[id := v], v, true)
  }

  /** Every value the memo would answer with agrees with the document. */
  ghost predicate Consistent(memo: Memo, doc: Document)
  {
    forall id :: Hit(memo, id) ==> memo[id] == TemplateById(doc, id)
  }

  /** Two calls with the same id against the same document return the same value; when the first value
      is truthy the second call answers without a query, whatever the document
      has become in between. */
  lemma RepeatedLookup(memo: Memo, doc: Document, doc': Document, id: string)
    ensures Step(Step(memo, doc, id).memo, doc, id).result == Step(memo, doc, id).result
    ensures Truthy(Step(memo, doc, id).result) ==>
              var second := Step(Step(memo, doc, id).memo, doc', id);
              !second.queried && second.result == Step(memo, doc, id).result
  {
  }

  /** A call on a memo that agrees with the document returns what the uncached
      computation returns, and leaves a memo that still agrees. */
  lemma StepIsTransparent(memo: Memo, doc: Document, id: string)
    requires Consistent(memo, doc)
    ensures Step(memo, doc, id).result == TemplateById(doc, id)
    ensures Consistent(Step(memo, doc, id).memo, doc)
  {
  }

  /** The outcome of a sequence of calls against one document. */
  datatype Calls = Calls(memo: Memo, results: seq<Option<string>>, queries: nat)

  function Run(memo: Memo, doc: Document, ids: seq<string>): (c: Calls)
    ensures |c.results| == |ids|
    ensures c.queries <= |ids|
    ensures c.memo.Keys == memo.Keys + set i | i in ids
    decreases |ids|
  {
    if ids == [] then Calls(memo, [], 0)
    else
      var first := Step(memo, doc, ids[0]);
      var rest := Run(first.memo, doc, ids[1..]);
      Calls(rest.memo, [first.result] + rest.results,
            rest.queries + (if first.queried then 1 else 0))
  }

  /** Memoisation never changes an answer: on a memo that agrees with the
      document, each call returns the uncached value. */
  lemma {:induction false} RunIsTransparent(memo: Memo, doc: Document, ids: seq<string>)
    requires Consistent(memo, doc)
    ensures forall k :: 0 <= k < |ids| ==> Run(memo, doc, ids).results[k] == TemplateById(doc, ids[k])
    ensures Consistent(Run(memo, doc, ids).memo, doc)
    decreases |ids|
  {
    if ids != [] {
      var first := Step(memo, doc, ids[0]);
      StepIsTransparent(memo, doc, ids[0]);
      RunIsTransparent(first.memo, doc, ids[1..]);
      var c := Run(memo, doc, ids);
      forall k | 0 <= k < |ids| ensures c.results[k] == TemplateById(doc, ids[k]) {
        if k > 0 {
          assert ids[k] == ids[1..][k - 1];
        }
      }
    }
  }

  /** The ids a sequence of calls has to query at least once. */
  function NewIds(memo: Memo, ids: seq<string>): set<string>
  {
    set i | i in ids && !Hit(memo, i)
  }

  /** When every id selects a non-empty template, each distinct id not already
      answered by the memo costs exactly one document query. */
  lemma {:induction false} RunQueriesNewIdsOnce(memo: Memo, doc: Document, ids: seq<string>)
    requires forall k :: 0 <= k < |ids| ==> Truthy(TemplateById(doc, ids[k]))
    ensures Run(memo, doc, ids).queries == |NewIds(memo, ids)|
    decreases |ids|
  {
    if ids == [] {
      assert NewIds(memo, ids) == {};
    } else {
      var x := ids[0];
      var rest := ids[1..];
      var first := Step(memo, doc, x);
      assert forall k :: 0 <= k < |rest| ==> rest[k] == ids[k + 1];
      RunQueriesNewIdsOnce(first.memo, doc, rest);
      var after := NewIds(first.memo, rest);
      if Hit(memo, x) {
        forall i ensures i in NewIds(memo, ids) <==> i in after {
          assert i in ids <==> i == x || i in rest;
        }
        assert NewIds(memo, ids) == after;
      } else {
        assert Truthy(first.result);
        forall i ensures i in NewIds(memo, ids) <==> i in after || i == x {
          assert i in ids <==> i == x || i in rest;
          if i != x {
            assert first.memo == memo[x := first.result];
          }
        }
        assert NewIds(memo, ids) == after + {x};
        assert x !in after;
      }
    }
  }

  /** The memo table that idToTemplate owns, with a count of the document
      queries it has made. */
  class IdCache {
    var memo: Memo
    var queries: nat

    constructor ()
      ensures memo == map[] && queries == 0
    {
      memo := map[];
      queries := 0;
    }

    /** idToTemplate(id) */
    method Lookup(doc: Document, id: string) returns (r: Option<string>)
      modifies this
      ensures r == Step(old(memo), doc, id).result
      ensures memo == Step(old(memo), doc, id).memo
      ensures queries == old(queries) + if Step(old(memo), doc, id).queried then 1 else 0
    {
      if id in memo && Truthy(memo[id]) {
        r := memo[id];
      } else {
        var el := Query(doc, id);
        queries := queries + 1;
        r := if el.Some? then Some(el.value.innerHTML) else None;
        memo := memo[id := r];
      }
    }
  }
}
