/** The location slice of client/src/states/slices/locationSlice.ts: its state and reducers. */
module LocationSlice {
  import opened Results

  /** `LocationState`; the reducers update it in place. */
  class LocationState<Location> {
    var locationsList: seq<Location>
    var location: Option<Location>
    var selectedLocation: Option<Location>

    /** `initialState`. */
    constructor ()
      ensures locationsList == [] && location == None && selectedLocation == None
    {
      locationsList := [];
      location := None;
      selectedLocation := None;
    }

    method SetLocationsList(payload: seq<Location>)
      modifies this
      ensures locationsList == payload
      ensures location == old(location) && selectedLocation == old(selectedLocation)
    {
      locationsList := payload;
    }

    method SetLocation(payload: Option<Location>)
      modifies this
      ensures location == payload
      ensures locationsList == old(locationsList) && selectedLocation == old(selectedLocation)
    {
      location := payload;
    }

    method SetSelectedLocation(payload: Option<Location>)
      modifies this
      ensures selectedLocation == payload
      ensures locationsList == old(locationsList) && location == old(location)
    {
      selectedLocation := payload;
    }
  }
}
