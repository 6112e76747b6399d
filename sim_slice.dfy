/** The `sims` Redux slice: the SIM cards the user registered, the one
    selected in the UI, and the request lifecycle flags. Each reducer case
    is a method that assigns the slice's fields as the Immer draft does. */
module SimSlice {
  import opened Common
  import opened Records

  datatype Sim = Sim(id: string, carrier: string, country: string, phoneNumber: string,
                     isOnline: bool, userId: string, createdAt: string, updatedAt: string)

  function SimId(s: Sim): string
  {
    s.id
  }

  /** `updateSIM.fulfilled` on `selectedSim`: replaced iff it is a SIM with
      the payload's id. */
  function UpdatedSelection(selected: Option<Sim>, payload: Sim): (r: Option<Sim>)
    ensures selected.Some? && selected.value.id == payload.id ==> r == Some(payload)
    ensures !(selected.Some? && selected.value.id == payload.id) ==> r == selected
  {
    if selected.Some? && selected.value.id == payload.id then Some(payload) else selected
  }

  /** `deleteSIM.fulfilled` on `selectedSim`: cleared iff it is the SIM
      with the deleted id. */
  function SelectionAfterDelete(selected: Option<Sim>, id: string): (r: Option<Sim>)
    ensures r.None? <==> selected.None? || selected.value.id == id
    ensures r.Some? ==> r == selected
  {
    if selected.Some? && selected.value.id == id then None else selected
  }

  /** After a delete, no SIM with that id is listed and the selection is
      never the deleted SIM. */
  lemma DeleteLeavesNoTrace(sims: seq<Sim>, selected: Option<Sim>, id: string)
    ensures forall i :: 0 <= i < |RemoveAll(sims, SimId, id)| ==> RemoveAll(sims, SimId, id)[i].id != id
    ensures SelectionAfterDelete(selected, id).Some? ==> SelectionAfterDelete(selected, id).value.id != id
  {
  }

  /** A selection that agreed with the list keeps agreeing with it after
      an update from the same payload. */
  lemma {:induction false} UpdateKeepsSelectionListed(sims: seq<Sim>, selected: Option<Sim>, payload: Sim)
    requires selected.Some? ==> selected.value in sims
    requires forall i, j :: 0 <= i < j < |sims| ==> sims[i].id != sims[j].id
    ensures UpdatedSelection(selected, payload).Some? ==>
              UpdatedSelection(selected, payload).value in ReplaceFirst(sims, SimId, payload)
  {
    if selected.Some? {
      var r := ReplaceFirst(sims, SimId, payload);
      var k :| 0 <= k < |sims| && sims[k] == selected.value;
      if selected.value.id == payload.id {
        assert IsFirstMatch(sims, SimId, payload.id, k);
        assert r[k] == payload;
      } else {
        ReplaceFirstElsewhere(sims, SimId, payload, k);
        assert r[k] == selected.value;
      }
    }
  }

  class SimState {
    var sims: seq<Sim>
    var selectedSim: Option<Sim>
    var isLoading: bool
    var error: Option<string>

    /** `initialState`. */
    constructor ()
      ensures sims == [] && selectedSim == None && !isLoading && error == None
    {
      sims := [];
      selectedSim := None;
      isLoading := false;
      error := None;
    }

    method SetSelectedSim(payload: Option<Sim>)
      modifies this
      ensures selectedSim == payload
      ensures sims == old(sims) && isLoading == old(isLoading) && error == old(error)
    {
      selectedSim := payload;
    }

    /** Empties the list; the selection stays as it was. */
    method ClearSims()
      modifies this
      ensures sims == []
      ensures selectedSim == old(selectedSim) && isLoading == old(isLoading) && error == old(error)
    {
      sims := [];
    }

    /** Every `*.pending` case of the four thunks. */
    method Pending()
      modifies this
      ensures isLoading && error == None
      ensures sims == old(sims) && selectedSim == old(selectedSim)
    {
      isLoading := true;
      error := None;
    }

    /** Every `*.rejected` case of the four thunks. */
    method Rejected(payload: string)
      modifies this
      ensures !isLoading && error == Some(payload)
      ensures sims == old(sims) && selectedSim == old(selectedSim)
    {
      isLoading := false;
      error := Some(payload);
    }

    /** `fetchSims.fulfilled`: the list is replaced wholesale; `error` is
        left as the pending case set it. */
    method FetchSimsFulfilled(payload: seq<Sim>)
      modifies this
      ensures !isLoading && sims == payload
      ensures selectedSim == old(selectedSim) && error == old(error)
    {
      isLoading := false;
      sims := payload;
    }

    /** `createSIM.fulfilled`: `sims.push(payload)`. */
    method CreateSimFulfilled(payload: Sim)
      modifies this
      ensures !isLoading && sims == old(sims) + [payload]
      ensures |sims| == |old(sims)| + 1 && sims[..|old(sims)|] == old(sims)
      ensures selectedSim == old(selectedSim) && error == old(error)
    {
      isLoading := false;
      sims := sims + [payload];
    }

    /** `updateSIM.fulfilled`: the first SIM with the payload's id is
        replaced, and so is a selection with that id. */
    method UpdateSimFulfilled(payload: Sim)
      modifies this
      ensures !isLoading && sims == ReplaceFirst(old(sims), SimId, payload)
      ensures selectedSim == UpdatedSelection(old(selectedSim), payload)
      ensures error == old(error)
    {
      isLoading := false;
      var index := FindIndex(sims, SimId, payload.id);
      if index != -1 {
        sims := sims[index := payload];
      }
      if selectedSim.Some? && selectedSim.value.id == payload.id {
        selectedSim := Some(payload);
      }
    }

    /** `deleteSIM.fulfilled`: every SIM with the id is filtered out, and a
        selection with that id is cleared. */
    method DeleteSimFulfilled(id: string)
      modifies this
      ensures !isLoading && sims == RemoveAll(old(sims), SimId, id)
      ensures selectedSim == SelectionAfterDelete(old(selectedSim), id)
      ensures error == old(error)
    {
      isLoading := false;
      sims := RemoveAll(sims, SimId, id);
      if selectedSim.Some? && selectedSim.value.id == id {
        selectedSim := None;
      }
    }
  }
}
