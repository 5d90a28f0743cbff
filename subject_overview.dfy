/**
 * The subject sidebar (src/components/layout/SubjectOverview.tsx): a list of
 * expanded subject ids that a click toggles, and a collapse flag. The list's new
 * value is computed purely (`includes`, `filter`, spread) and then stored, so
 * the computation is a function and the stored state a class.
 */
module SubjectOverview {

  /** `list.filter(id => id !== x)`: every occurrence of `x` removed, the other
      ids kept. */
  function RemoveAll(list: seq<string>, x: string): (r: seq<string>)
    ensures x !in r
    ensures forall y :: y != x ==> (y in r <==> y in list)
    ensures |r| <= |list|
  {
    if list == [] then []
    else (if list[0] == x then [] else [list[0]]) + RemoveAll(list[1..], x)
  }

  /** Filtering works element by element, so the remaining ids keep their
      relative order: filtering a concatenation filters each part. */
  lemma {:induction false} RemoveAllKeepsOrder(a: seq<string>, b: seq<string>, x: string)
    ensures RemoveAll(a + b, x) == RemoveAll(a, x) + RemoveAll(b, x)
  {
    if a != [] {
      assert (a + b)[1..] == a[1..] + b;
      RemoveAllKeepsOrder(a[1..], b, x);
    } else {
      assert a + b == b;
    }
  }

  /** Filtering out an id that does not occur changes nothing. */
  lemma {:induction false} RemoveAllAbsent(list: seq<string>, x: string)
    requires x !in list
    ensures RemoveAll(list, x) == list
  {
    if list != [] {
      RemoveAllAbsent(list[1..], x);
    }
  }

  /** No id occurs twice. */
  predicate NoDuplicates(list: seq<string>)
  {
    forall i, j :: 0 <= i < j < |list| ==> list[i] != list[j]
  }

  /** Filtering keeps a list free of duplicates. */
  lemma {:induction false} RemoveAllNoDuplicates(list: seq<string>, x: string)
    requires NoDuplicates(list)
    ensures NoDuplicates(RemoveAll(list, x))
  {
    if list != [] {
      RemoveAllNoDuplicates(list[1..], x);
      var rest := RemoveAll(list[1..], x);
      assert list[0] !in list[1..];
      assert list[0] !in rest;
    }
  }

  /** The value `toggleSubject(id)` stores: the list without `id` when it is
      expanded, the list with `id` appended otherwise. */
  function Toggled(expanded: seq<string>, id: string): (r: seq<string>)
    ensures id in r <==> id !in expanded
    ensures forall y :: y != id ==> (y in r <==> y in expanded)
    ensures id !in expanded ==> r == expanded + [id]
  {
    if id in expanded then RemoveAll(expanded, id) else expanded + [id]
  }

  /** Toggling an id that is not expanded twice gives back the very same list. */
  lemma ToggleTwiceRestoresAbsent(expanded: seq<string>, id: string)
    requires id !in expanded
    ensures Toggled(Toggled(expanded, id), id) == expanded
  {
    RemoveAllKeepsOrder(expanded, [id], id);
    RemoveAllAbsent(expanded, id);
  }

  /** Toggling an expanded id twice gives back the same membership; the id
      moves to the end and every other id keeps its order. */
  lemma ToggleTwicePresent(expanded: seq<string>, id: string)
    requires id in expanded
    ensures Toggled(Toggled(expanded, id), id) == RemoveAll(expanded, id) + [id]
    ensures forall y :: y in Toggled(Toggled(expanded, id), id) <==> y in expanded
  {
  }

  /** Toggling keeps the list free of duplicates. */
  lemma ToggleNoDuplicates(expanded: seq<string>, id: string)
    requires NoDuplicates(expanded)
    ensures NoDuplicates(Toggled(expanded, id))
  {
    if id in expanded {
      RemoveAllNoDuplicates(expanded, id);
    }
  }

  class Overview {
    var expandedSubjects: seq<string>
    var isCollapsed: bool

    /** No subject is listed twice. */
    ghost predicate Valid()
      reads this
    {
      NoDuplicates(expandedSubjects)
    }

    /** The sidebar as first rendered: nothing expanded, not collapsed. */
    constructor ()
      ensures Valid()
      ensures expandedSubjects == [] && !isCollapsed
    {
      expandedSubjects := [];
      isCollapsed := false;
    }

    /** Whether a subject's description is shown (`expandedSubjects.includes`). */
    function IsExpanded(id: string): (shown: bool)
      reads this
    {
      id in expandedSubjects
    }

    /** `toggleSubject`: flips whether `id` is expanded and leaves every other
        subject as it was. */
    method ToggleSubject(id: string)
      requires Valid()
      modifies this`expandedSubjects
      ensures Valid()
      ensures expandedSubjects == Toggled(old(expandedSubjects), id)
      ensures IsExpanded(id) == !old(IsExpanded(id))
      ensures forall y :: y != id ==> IsExpanded(y) == old(IsExpanded(y))
    {
      ToggleNoDuplicates(expandedSubjects, id);
      expandedSubjects := Toggled(expandedSubjects, id);
    }

    /** The collapse button: a negation, so two clicks restore the flag. */
    method ToggleCollapsed()
      modifies this`isCollapsed
      ensures isCollapsed == !old(isCollapsed)
    {
      isCollapsed := !isCollapsed;
    }
  }
}
