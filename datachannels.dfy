/**
 * The channel records of src/DataChannels.cs. Both expose the four read-only members of
 * `IChannelMetaData`; once constructed, neither changes.
 */
module DataChannels {
  import opened Decimal

  /** `IChannelMetaData`, the view both records share. */
  datatype ChannelMeta = ChannelMeta(ChannelStartDate: UInt32, ChannelEndDate: UInt32, Count: UInt32, ChannelName: string)

  /** `DataChannel`: the metadata plus the raw text it was built from, which it never reads. */
  datatype DataChannel = DataChannel(meta: ChannelMeta, rawData: string)

  /** `new DataChannel(rawData)`: zero dates and count and an empty name, whatever the argument. */
  function NewDataChannel(rawData: string): (c: DataChannel)
    ensures c.meta == ChannelMeta(0, 0, 0, "")
    ensures c.rawData == rawData
  {
    DataChannel(ChannelMeta(0, 0, 0, ""), rawData)
  }

  /** `ProcessChannel`: the source method's body is empty, so the channel comes back as it was. */
  function ProcessChannel(c: DataChannel): (r: DataChannel)
    ensures r == c
  {
    c
  }

  /** `new DataChannelMetaData(source)`: a verbatim copy of the source's four members. */
  function DataChannelMetaData(source: DataChannel): (m: ChannelMeta)
    ensures m.ChannelStartDate == source.meta.ChannelStartDate
    ensures m.ChannelEndDate == source.meta.ChannelEndDate
    ensures m.Count == source.meta.Count
    ensures m.ChannelName == source.meta.ChannelName
  {
    source.meta
  }

  /**
   * The argument of the constructor never reaches the summary: two channels built from any two
   * texts give equal summaries, before and after `ProcessChannel`.
   */
  lemma SummaryIgnoresRawData(a: string, b: string)
    ensures DataChannelMetaData(ProcessChannel(NewDataChannel(a))) == DataChannelMetaData(NewDataChannel(b))
    ensures DataChannelMetaData(NewDataChannel(a)) == ChannelMeta(0, 0, 0, "")
  {
  }
}
