/**
 * sum.go: the two "episode or track" sums and their UnmarshalJSON. Each
 * first decodes only the "type" tag, then decodes the whole input into the
 * episode slot when the tag is "episode" and into the track slot for any
 * other tag, "track", unknown or missing alike.
 */
module Sum {
  import opened Wrappers
  import opened Json
  import opened Episode

  /** The track records; their fields are not part of this model. */
  type SimpleTrack
  type FullTrack

  /**
   * json.Unmarshal(data, &R{}) for a variant record: the record as the
   * decoder left it and the error it returned. On a type mismatch Go keeps
   * decoding the other fields, so the record can be partly filled.
   */
  datatype Decoded<R> = Decoded(record: R, err: Option<JsonError>)

  /** A sum's two pointer slots; None is nil. */
  datatype Slots<E, T> = Slots(episode: Option<E>, track: Option<T>)

  /** The slot the tag selects: true for the episode slot. */
  predicate SelectsEpisode(item: TypedItem)
  {
    item.typ == "episode"
  }

  /**
   * What UnmarshalJSON does, for either sum: the slots afterwards and the
   * error returned. The chosen slot is assigned before its decoder runs, so
   * it stays assigned when that decoder fails.
   */
  function Unmarshal<E, T>(before: Slots<E, T>, data: Raw,
                           decodeEpisode: Raw -> Decoded<E>, decodeTrack: Raw -> Decoded<T>)
    : (after: (Slots<E, T>, Option<JsonError>))
    ensures DecodeTypedItem(data).Err? ==> after.0 == before
    ensures after.0.episode == before.episode || after.0.track == before.track
  {
    match DecodeTypedItem(data)
    case Err(e) => (before, Some(e))
    case Ok(item) =>
      if SelectsEpisode(item) then
        var d := decodeEpisode(data);
        (before.(episode := Some(d.record)), d.err)
      else
        var d := decodeTrack(data);
        (before.(track := Some(d.record)), d.err)
  }

  /** A sum of a simple episode and a simple track (SumSimpleEpisodeSimpleTrack). */
  class SumSimpleEpisodeSimpleTrack {
    var simpleEpisode: Option<SimpleEpisode>
    var simpleTrack: Option<SimpleTrack>

    /** The zero value: both slots nil. */
    constructor ()
      ensures simpleEpisode == None && simpleTrack == None
    {
      simpleEpisode := None;
      simpleTrack := None;
    }

    function State(): Slots<SimpleEpisode, SimpleTrack>
      reads this
    {
      Slots(simpleEpisode, simpleTrack)
    }

    method UnmarshalJSON(data: Raw, decodeEpisode: Raw -> Decoded<SimpleEpisode>,
                         decodeTrack: Raw -> Decoded<SimpleTrack>)
      returns (err: Option<JsonError>)
      modifies this
      ensures (State(), err) == Unmarshal(old(State()), data, decodeEpisode, decodeTrack)
    {
      var i := DecodeTypedItem(data);
      if i.Err? {
        return Some(i.error);
      }
      if SelectsEpisode(i.value) {
        var d := decodeEpisode(data);
        simpleEpisode := Some(d.record);
        if d.err.Some? {
          return d.err;
        }
      } else {
        // "track" and every other tag, including the "" of a missing one
        var d := decodeTrack(data);
        simpleTrack := Some(d.record);
        if d.err.Some? {
          return d.err;
        }
      }
      return None;
    }
  }

  /** A sum of a full episode and a full track (SumFullEpisodeFullTrack). */
  class SumFullEpisodeFullTrack {
    var fullEpisode: Option<FullEpisode>
    var fullTrack: Option<FullTrack>

    /** The zero value: both slots nil. */
    constructor ()
      ensures fullEpisode == None && fullTrack == None
    {
      fullEpisode := None;
      fullTrack := None;
    }

    function State(): Slots<FullEpisode, FullTrack>
      reads this
    {
      Slots(fullEpisode, fullTrack)
    }

    method UnmarshalJSON(data: Raw, decodeEpisode: Raw -> Decoded<FullEpisode>,
                         decodeTrack: Raw -> Decoded<FullTrack>)
      returns (err: Option<JsonError>)
      modifies this
      ensures (State(), err) == Unmarshal(old(State()), data, decodeEpisode, decodeTrack)
    {
      var i := DecodeTypedItem(data);
      if i.Err? {
        return Some(i.error);
      }
      if SelectsEpisode(i.value) {
        var d := decodeEpisode(data);
        fullEpisode := Some(d.record);
        if d.err.Some? {
          return d.err;
        }
      } else {
        // "track" and every other tag, including the "" of a missing one
        var d := decodeTrack(data);
        fullTrack := Some(d.record);
        if d.err.Some? {
          return d.err;
        }
      }
      return None;
    }
  }

  /** An envelope that does not decode: its error is returned and neither slot is touched. */
  lemma EnvelopeErrorLeavesSlots<E, T>(before: Slots<E, T>, data: Raw,
                                       decodeEpisode: Raw -> Decoded<E>, decodeTrack: Raw -> Decoded<T>)
    requires DecodeTypedItem(data).Err?
    ensures Unmarshal(before, data, decodeEpisode, decodeTrack) == (before, Some(DecodeTypedItem(data).error))
  {
  }

  /** Malformed input is a syntax error with the slots unchanged. */
  lemma MalformedLeavesSlots<E, T>(before: Slots<E, T>,
                                   decodeEpisode: Raw -> Decoded<E>, decodeTrack: Raw -> Decoded<T>)
    ensures Unmarshal(before, Malformed, decodeEpisode, decodeTrack) == (before, Some(SyntaxError))
  {
  }

  /** Tag "episode": only the episode slot changes, to the decoded record; the decoder's error is returned. */
  lemma EpisodeTagSetsEpisode<E, T>(before: Slots<E, T>, data: Raw,
                                    decodeEpisode: Raw -> Decoded<E>, decodeTrack: Raw -> Decoded<T>)
    requires DecodeTypedItem(data) == Ok(TypedItem("episode"))
    ensures Unmarshal(before, data, decodeEpisode, decodeTrack)
         == (Slots(Some(decodeEpisode(data).record), before.track), decodeEpisode(data).err)
  {
  }

  /**
   * Any other tag ("track", unknown, or the "" of a missing one): only the
   * track slot changes, to the decoded record; the decoder's error is returned.
   */
  lemma OtherTagSetsTrack<E, T>(before: Slots<E, T>, data: Raw,
                                decodeEpisode: Raw -> Decoded<E>, decodeTrack: Raw -> Decoded<T>)
    requires DecodeTypedItem(data).Ok? && !SelectsEpisode(DecodeTypedItem(data).value)
    ensures Unmarshal(before, data, decodeEpisode, decodeTrack)
         == (Slots(before.episode, Some(decodeTrack(data).record)), decodeTrack(data).err)
  {
  }

  /**
   * A failing variant decoder makes UnmarshalJSON fail, yet the chosen slot
   * already holds a record: the update is not atomic.
   */
  lemma VariantErrorKeepsSlot<E, T>(before: Slots<E, T>, data: Raw,
                                    decodeEpisode: Raw -> Decoded<E>, decodeTrack: Raw -> Decoded<T>)
    requires DecodeTypedItem(data).Ok?
    requires SelectsEpisode(DecodeTypedItem(data).value) ==> decodeEpisode(data).err.Some?
    requires !SelectsEpisode(DecodeTypedItem(data).value) ==> decodeTrack(data).err.Some?
    ensures var after := Unmarshal(before, data, decodeEpisode, decodeTrack);
      after.1.Some? &&
      (SelectsEpisode(DecodeTypedItem(data).value) ==> after.0.episode == Some(decodeEpisode(data).record)) &&
      (!SelectsEpisode(DecodeTypedItem(data).value) ==> after.0.track == Some(decodeTrack(data).record))
  {
  }

  /**
   * From the zero value, a decode without error leaves exactly one slot
   * non-nil, and which one the tag says.
   */
  lemma ExactlyOneSlot<E, T>(data: Raw, decodeEpisode: Raw -> Decoded<E>, decodeTrack: Raw -> Decoded<T>)
    requires Unmarshal(Slots(None, None), data, decodeEpisode, decodeTrack).1.None?
    ensures DecodeTypedItem(data).Ok?
    ensures var after := Unmarshal(Slots(None, None), data, decodeEpisode, decodeTrack).0;
      (after.episode.Some? <==> SelectsEpisode(DecodeTypedItem(data).value)) &&
      (after.track.Some? <==> !SelectsEpisode(DecodeTypedItem(data).value))
  {
  }

  /** An object with no "type" member goes to the track slot. */
  lemma MissingTagIsTrack<E, T>(members: seq<Member>, before: Slots<E, T>,
                                decodeEpisode: Raw -> Decoded<E>, decodeTrack: Raw -> Decoded<T>)
    requires forall i :: 0 <= i < |members| ==> !NamesType(members[i].key)
    ensures var data := Document(Object(members));
      Unmarshal(before, data, decodeEpisode, decodeTrack)
      == (Slots(before.episode, Some(decodeTrack(data).record)), decodeTrack(data).err)
  {
    NoTypeKey(members);
  }

  /** {"type":"episode","name":"Ep1","duration_ms":120000} fills the episode slot only. */
  lemma EpisodeScenario<E, T>(decodeEpisode: Raw -> Decoded<E>, decodeTrack: Raw -> Decoded<T>)
    ensures var data := Document(Object([Member("type", Str("episode")), Member("name", Str("Ep1")),
                                         Member("duration_ms", Number("120000"))]));
      var after := Unmarshal(Slots(None, None), data, decodeEpisode, decodeTrack);
      after.0 == Slots(Some(decodeEpisode(data).record), None) && after.1 == decodeEpisode(data).err
  {
    var members := [Member("type", Str("episode")), Member("name", Str("Ep1")),
                    Member("duration_ms", Number("120000"))];
    SingleTypeMember(members, 0, "episode");
  }

  /** {"type":"track","name":"Song1"} fills the track slot only. */
  lemma TrackScenario<E, T>(decodeEpisode: Raw -> Decoded<E>, decodeTrack: Raw -> Decoded<T>)
    ensures var data := Document(Object([Member("type", Str("track")), Member("name", Str("Song1"))]));
      var after := Unmarshal(Slots(None, None), data, decodeEpisode, decodeTrack);
      after.0 == Slots(None, Some(decodeTrack(data).record)) && after.1 == decodeTrack(data).err
  {
    var members := [Member("type", Str("track")), Member("name", Str("Song1"))];
    SingleTypeMember(members, 0, "track");
  }

  /** {"name":"Unknown"}, with no tag at all, fills the track slot only. */
  lemma UntaggedScenario<E, T>(decodeEpisode: Raw -> Decoded<E>, decodeTrack: Raw -> Decoded<T>)
    ensures var data := Document(Object([Member("name", Str("Unknown"))]));
      var after := Unmarshal(Slots(None, None), data, decodeEpisode, decodeTrack);
      after.0 == Slots(None, Some(decodeTrack(data).record)) && after.1 == decodeTrack(data).err
  {
    MissingTagIsTrack<E, T>([Member("name", Str("Unknown"))], Slots(None, None), decodeEpisode, decodeTrack);
  }

  /** {"type":5} is a type error on the tag, and no slot is touched. */
  lemma MistypedTagScenario<E, T>(before: Slots<E, T>, decodeEpisode: Raw -> Decoded<E>, decodeTrack: Raw -> Decoded<T>)
    ensures Unmarshal(before, Document(Object([Member("type", Number("5"))])), decodeEpisode, decodeTrack)
         == (before, Some(UnmarshalTypeError("number", "type")))
  {
    assert TypeValues([Member("type", Number("5"))]) == [Number("5")];
  }
}
