/** The transportCard slice of client/src/states/slices/transportCardSlice.ts: its state and
    reducers. */
module TransportCardSlice {
  import opened Results

  /** `TransportCardState`; the reducers update it in place. */
  class TransportCardState<TransportCard> {
    var transportCardsList: seq<TransportCard>
    var transportCard: Option<TransportCard>
    var selectedTransportCard: Option<TransportCard>

    /** `initialState`. */
    constructor ()
      ensures transportCardsList == [] && transportCard == None && selectedTransportCard == None
    {
      transportCardsList := [];
      transportCard := None;
      selectedTransportCard := None;
    }

    method SetTransportCardsList(payload: seq<TransportCard>)
      modifies this
      ensures transportCardsList == payload
      ensures transportCard == old(transportCard) && selectedTransportCard == old(selectedTransportCard)
    {
      transportCardsList := payload;
    }

    method SetTransportCard(payload: Option<TransportCard>)
      modifies this
      ensures transportCard == payload
      ensures transportCardsList == old(transportCardsList) && selectedTransportCard == old(selectedTransportCard)
    {
      transportCard := payload;
    }

    method SetSelectedTransportCard(payload: Option<TransportCard>)
      modifies this
      ensures selectedTransportCard == payload
      ensures transportCardsList == old(transportCardsList) && transportCard == old(transportCard)
    {
      selectedTransportCard := payload;
    }

    /** Clears both single-card fields; the list stays. */
    method ResetTransportCard()
      modifies this
      ensures transportCard == None && selectedTransportCard == None
      ensures transportCardsList == old(transportCardsList)
    {
      transportCard := None;
      selectedTransportCard := None;
    }
  }
}
