/** The selected-block store of src/lib/stores/selectedBlock.ts.

    The Svelte writable holding the selected block id is the field `selected`
    of `SelectedBlockStore`; the available blocks are given by their ids. */
module SelectedBlock {
  import opened Wrappers

  /** The stored id is usable: it is set, non-empty (JavaScript treats '' as false) and
      among the available ids. */
  predicate Usable(stored: Option<string>, availableIds: seq<string>) {
    stored.Some? && stored.value != "" && stored.value in availableIds
  }

  /** The selection `getSelectedBlockId` settles on for a non-empty list: the stored id
      when usable, otherwise the first available id. */
  function Fallback(stored: Option<string>, availableIds: seq<string>): (r: string)
    requires |availableIds| > 0
    ensures r in availableIds
    ensures Usable(stored, availableIds) ==> r == stored.value
    ensures !Usable(stored, availableIds) ==> r == availableIds[0]
  {
    if Usable(stored, availableIds) then stored.value else availableIds[0]
  }

  /** Once settled, the selection stays: asking again with the same list returns the same
      id, provided the ids are non-empty strings. */
  lemma FallbackIsStable(stored: Option<string>, availableIds: seq<string>)
    requires |availableIds| > 0
    requires forall i | 0 <= i < |availableIds| :: availableIds[i] != ""
    ensures Usable(Some(Fallback(stored, availableIds)), availableIds)
    ensures Fallback(Some(Fallback(stored, availableIds)), availableIds) == Fallback(stored, availableIds)
  {
  }

  /** An empty first id is never kept: a later call falls back to it again and rewrites it. */
  lemma EmptyFirstIdIsRewritten(availableIds: seq<string>)
    requires |availableIds| > 0 && availableIds[0] == ""
    ensures !Usable(Some(Fallback(None, availableIds)), availableIds)
  {
  }

  class SelectedBlockStore {
    var selected: Option<string>

    /** The store starts empty. */
    constructor ()
      ensures selected == None
    {
      selected := None;
    }

    /** The store's own `set`. */
    method Set(id: Option<string>)
      modifies this
      ensures selected == id
    {
      selected := id;
    }

    /** `reset` */
    method Reset()
      modifies this
      ensures selected == None
    {
      selected := None;
    }

    /** `getSelectedBlockId`: null for an empty list (store untouched); else the stored id
        when usable (store untouched); else the first id, which is also stored. */
    method GetSelectedBlockId(availableIds: seq<string>) returns (r: Option<string>)
      modifies this
      ensures |availableIds| == 0 ==> r.None? && selected == old(selected)
      ensures r.Some? ==> r.value in availableIds
      ensures |availableIds| > 0 ==> r == Some(Fallback(old(selected), availableIds))
      ensures Usable(old(selected), availableIds) ==> selected == old(selected)
      ensures |availableIds| > 0 && !Usable(old(selected), availableIds) ==> selected == Some(availableIds[0])
    {
      if |availableIds| == 0 {
        return None;
      }
      var stored := selected;
      if stored.Some? && stored.value != "" && stored.value in availableIds {
        return stored;
      }
      var firstBlockId := availableIds[0];
      selected := Some(firstBlockId);
      return Some(firstBlockId);
    }
  }
}
