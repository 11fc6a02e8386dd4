/**
 * The earlier four-key state record: the transcript, merged with `add_messages`,
 * and three optional keys replaced on write.
 */
module LegacyState {
  import opened Wrappers
  import opened PyValues
  import opened Messages
  import Backend = BackendState

  datatype TravelState = TravelState(
    messages: seq<Message>,
    destination: Key<Option<string>>,
    travelDates: Key<PyValue>,
    preferences: Key<PyValue>)

  datatype Update = Update(
    messages: Key<seq<Message>> := Absent,
    destination: Key<Option<string>> := Absent,
    travelDates: Key<PyValue> := Absent,
    preferences: Key<PyValue> := Absent)

  function FieldNames(): set<string>
  {
    {"messages", "destination", "travel_dates", "preferences"}
  }

  function Merge(s: TravelState, u: Update): (r: TravelState)
    ensures u.messages.Present? ==> r.messages == AddMessages(s.messages, u.messages.value)
    ensures u.messages.Absent? ==> r.messages == s.messages
    ensures u.destination.Absent? ==> r.destination == s.destination
    ensures u.destination.Present? ==> r.destination == u.destination
    ensures u.travelDates.Absent? ==> r.travelDates == s.travelDates
    ensures u.travelDates.Present? ==> r.travelDates == u.travelDates
    ensures u.preferences.Absent? ==> r.preferences == s.preferences
    ensures u.preferences.Present? ==> r.preferences == u.preferences
  {
    TravelState(
      if u.messages.Present? then AddMessages(s.messages, u.messages.value) else s.messages,
      Backend.Replace(s.destination, u.destination),
      Backend.Replace(s.travelDates, u.travelDates),
      Backend.Replace(s.preferences, u.preferences))
  }

  /** The same state seen as the later record, whose other keys are missing. */
  function Embed(s: TravelState): Backend.TravelState
  {
    Backend.TravelState(s.messages, s.destination, s.travelDates, s.preferences,
                        Absent, Absent, Absent, Absent, Absent, Absent, Absent, Absent, Absent)
  }

  function EmbedUpdate(u: Update): Backend.Update
  {
    Backend.Update(messages := u.messages, destination := u.destination,
                   travelDates := u.travelDates, preferences := u.preferences)
  }

  /**
   * Every key of this record is a key of the later one, which has more, and the two
   * merge policies agree on the keys they share.
   */
  lemma LaterRecordExtendsThisOne(s: TravelState, u: Update)
    ensures FieldNames() < Backend.FieldNames()
    ensures Embed(Merge(s, u)) == Backend.Merge(Embed(s), EmbedUpdate(u))
  {
    Backend.RecordKeys();
    assert "trip_plan" !in FieldNames();
  }

  function AsUpdate(s: TravelState): Update
  {
    Update(Present(s.messages), s.destination, s.travelDates, s.preferences)
  }

  /** Returning the incoming state as the update leaves the state unchanged. */
  lemma MergeOwnState(s: TravelState)
    requires UniqueIds(s.messages)
    ensures Merge(s, AsUpdate(s)) == s
  {
    AddMessagesSelf(s.messages);
  }

  /**
   * A one-message update with a new id appends that message. The statement matches
   * the later record's lemma of the same name, but it is about this record's own
   * merge, which has its own datatype and is not derived from the later one.
   */
  lemma MergeAppendsMessage(s: TravelState, m: Message)
    requires m.id !in Ids(s.messages)
    ensures Merge(s, Update(messages := Present([m]))).messages == s.messages + [m]
  {
    AppendsFresh(s.messages, m);
  }
}
