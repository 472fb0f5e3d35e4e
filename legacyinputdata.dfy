/**
 * The older parser object of src/EcowittInputData.cs. It runs the same token automaton in its
 * `Legacy` revision (no `msg` check, no `unit` property, the sensor name stored as the unit),
 * and its `GetChannels` walks the channels without reporting any.
 */
module LegacyInputData {
  import opened Wrappers
  import opened Assoc
  import opened InputData

  class EcowittInputData {
    const rawData: seq<Token>
    var channelsList: Channels

    constructor(rawData: seq<Token>)
      ensures this.rawData == rawData && channelsList == []
    {
      this.rawData := rawData;
      channelsList := [];
    }

    method ProcessInput() returns (outcome: Outcome<ParseError>)
      modifies this
      ensures channelsList == Parse(Legacy, rawData, old(channelsList)).state.channels
      ensures outcome == OutcomeOf(Parse(Legacy, rawData, old(channelsList)))
      ensures DistinctKeys(old(channelsList)) ==> DistinctKeys(channelsList)
    {
      if DistinctKeys(channelsList) {
        ParseKeepsChannelsDistinct(Legacy, rawData, channelsList);
      }
      channelsList, outcome := ProcessTokens(Legacy, rawData, channelsList);
    }

    /** The loop over the channels has an empty body, so the list stays empty. */
    method GetChannels() returns (result: seq<string>)
      ensures result == []
    {
      result := [];
      var i := 0;
      while i < |channelsList|
        invariant 0 <= i <= |channelsList|
        invariant result == []
      {
        i := i + 1;
      }
    }
  }

  /** The older parser never inspects `msg`: a failed API answer parses like a successful one. */
  lemma MsgIgnored(toks: seq<Token>, c: Cursor)
    requires c.pos < |toks|
    ensures CheckMsg(Legacy, toks, c) == Ok(c)
  {
  }

  /** Nor does it read `unit`: the property name is passed over and its value token is skipped. */
  lemma UnitIgnored(toks: seq<Token>, c: Cursor)
    requires c.pos < |toks|
    ensures CheckUnit(Legacy, toks, c) == Ok(c)
  {
  }
}
